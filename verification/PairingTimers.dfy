/** Epochs: a submission reaches its own flow only, and a timer ends no wait but the one it was set for. */
module PairingTimers {
  import opened Wrappers
  import opened Flow
  import opened Links
  import opened Pairing
  import opened PairingInvariant
  import opened PairingSteps
  import opened PairingSubmit
  import opened PairingRuns
  import opened PairingLocality
  import opened PairingTable

  /** A submission touches no flow but its own: every other half-open flow and claim stays as it is. A new wait
      gets a fresh epoch and the one timer set for it; leases and downlinks go out only with a pair. */
  lemma SubmitIsLocal(limits: Limits, s: Registry, sub: Submission, now: int, hint: FlowKey)
    requires limits.Valid() && Inv(limits, s) && sub.header.Valid() && NewDownlink(s, sub)
    ensures var (t, outcome) := Submit(limits, s, sub, now, hint);
            && Local(s, t, sub.Key())
            && t.timers == s.timers + (if outcome.Waiting? then {Timer(sub.via, sub.Key(), s.nextEpoch + 1)} else {})
            && (outcome.Waiting? ==> s.nextEpoch + 1 < t.nextEpoch)
            && (if outcome.Paired? then
                  && t.handed == s.handed + {outcome.flow.downlink}
                  && t.leases - {outcome.flow.epoch} == s.leases - {outcome.flow.epoch}
                else t.leases == s.leases && t.handed == s.handed)
  {
    hide Within, NewDownlink, InHand, Prepare, Decide, RejectSetup, Release, WriteResult, Coherent, Local, InPlace,
      SameFlows;
    var key := sub.Key();
    PrepareEnds(limits, s, sub, now);
    PrepareGood(limits, s, sub, now);
    LocalPrepare(limits, s, sub, now);
    var t := Submit(limits, s, sub, now, hint).0;
    match Prepare(limits, s, sub, now)
    case Waits(s1, epoch) =>
      hide Finish;
      LocalSelf(s1, t, key);
      LocalThen(s, s1, t, key);
    case Completes(s1, d) =>
      LocalFinish(s1, d);
      PairedKey(s1, d);
      hide Finish;
      LocalThen(s, s1, t, key);
    case Fails(s1, code, downlink, abort, hand) =>
      hide Finish;
      var s2 := if abort then RejectSetup(limits, s1, key, code, now, hint) else s1;
      LocalSelf(s1, s1, key);
      LocalReject(limits, s1, key, code, now, hint);
      LocalThen(s, s1, s2, key);
      var s3 := WriteResult(s2, downlink, code);
      LocalWrite(s2, downlink, code, key);
      LocalThen(s, s2, s3, key);
      LocalRelease(s3, hand, key);
      LocalThen(s, s3, t, key);
  }

  lemma PairedKey(s: Registry, d: Completed)
    ensures Finish(s, d).1.Paired? ==> Finish(s, d).1.flow.key == d.key
  {
  }

  // ---------------------------------------------------------------------------------------------
  // Timers.

  /** The timer finds the wait it was set for. */
  predicate Due(s: Registry, x: Timer) {
    x.key in Pend(s, x.kind) && Pend(s, x.kind)[x.key].epoch == x.epoch
  }

  /** A timer whose flow does not wait, or waits under another epoch, does nothing. */
  lemma StaleTimerDoesNothing(limits: Limits, s: Registry, x: Timer, now: int, hint: FlowKey)
    requires !Due(s, x)
    ensures Timeout(limits, s, x, now, hint) == s.(timers := s.timers - {x})
  {
  }

  /** Whatever half-open flow a timer ends or changes, it was set for exactly that wait; and that wait it ends. */
  lemma TimerEndsItsWait(
    limits: Limits, s: Registry, x: Timer, now: int, hint: FlowKey, kind: FlowKind, k: FlowKey)
    requires Inv(limits, s) && k in Pend(s, kind)
    ensures var t := Timeout(limits, s, x, now, hint);
            if x == Timer(kind, k, Pend(s, kind)[k].epoch) then k !in t.tcp && k !in t.udp && k !in t.claims
            else
              && k in Pend(t, kind) && Pend(t, kind)[k] == Pend(s, kind)[k]
              && k in t.claims && t.claims[k] == s.claims[k]
  {
    hide Within, Books, Timeout, WriteResult, AddTombstone, EntryOk, Forget;
    BooksHold(limits, s, None);
    EntryFacts(limits, s, None, kind, k);
    HalfOpenInactive(limits, s, k);
    if Due(s, x) {
      EntryFacts(limits, s, None, x.kind, x.key);
      TimeoutUnfolds(limits, s, x, now, hint);
      var u := Forget(s, x.kind, x.key).(timers := s.timers - {x});
      TimedOut(limits, u, Pend(s, x.kind)[x.key].downlink, x.key, now, hint);
      ForgetFields(s, x.kind, x.key);
    } else {
      StaleTimerDoesNothing(limits, s, x, now, hint);
    }
  }

  lemma TimedOut(limits: Limits, u: Registry, d: Option<Stream>, key: FlowKey, now: int, hint: FlowKey)
    ensures var t := if d.Some? then WriteResult(u, d, PairTimeout)
                     else AddTombstone(limits, u, key, PairTimeout, now, hint);
            t.tcp == u.tcp && t.udp == u.udp && t.claims == u.claims
  {
    hide Bury;
  }

  // ---------------------------------------------------------------------------------------------
  // Over whole runs.

  ghost predicate EntriesAge(m: Entries, n: Entries, next: nat) {
    forall k :: k in n ==> EntryKept(m, n, k, next)
  }

  /** Every wait of `t` is one of `s` or began after it. */
  ghost predicate Ages(s: Registry, t: Registry) {
    EntriesAge(s.tcp, t.tcp, s.nextEpoch) && EntriesAge(s.udp, t.udp, s.nextEpoch) && s.nextEpoch <= t.nextEpoch
  }

  lemma AgesThen(s: Registry, t: Registry, u: Registry)
    requires Ages(s, t) && Ages(t, u)
    ensures Ages(s, u)
  {
    EntriesAgeThen(s.tcp, t.tcp, u.tcp, s.nextEpoch, t.nextEpoch);
    EntriesAgeThen(s.udp, t.udp, u.udp, s.nextEpoch, t.nextEpoch);
    hide EntriesAge;
  }

  lemma EntriesAgeThen(m: Entries, n: Entries, o: Entries, next: nat, later: nat)
    requires EntriesAge(m, n, next) && EntriesAge(n, o, later) && next <= later
    ensures EntriesAge(m, o, next)
  {
    forall k | k in o
      ensures EntryKept(m, o, k, next)
    {
      assert EntryKept(n, o, k, later);
      assert k in n ==> EntryKept(m, n, k, next);
    }
  }

  lemma SubAges(m: Entries, n: Entries, next: nat)
    requires forall k :: k in n ==> k in m && n[k].epoch == m[k].epoch
    ensures EntriesAge(m, n, next)
  {
  }

  lemma LocalAges(s: Registry, t: Registry, key: FlowKey)
    requires Local(s, t, key)
    ensures Ages(s, t)
  {
    AsideAges(s.tcp, t.tcp, key, s.nextEpoch);
    AsideAges(s.udp, t.udp, key, s.nextEpoch);
    hide EntriesAge, Aside;
  }

  lemma AsideAges(m: Entries, n: Entries, key: FlowKey, next: nat)
    requires Aside(m, n, key) && EntryKept(m, n, key, next)
    ensures EntriesAge(m, n, next)
  {
    forall k | k in n
      ensures EntryKept(m, n, k, next)
    {
      if k != key {
        assert k in n - {key} && (n - {key})[k] == n[k];
        assert k in m - {key} && (m - {key})[k] == m[k];
      }
    }
  }

  lemma SameAges(s: Registry, t: Registry)
    requires t.tcp == s.tcp && t.udp == s.udp && s.nextEpoch <= t.nextEpoch
    ensures Ages(s, t)
  {
    SubAges(s.tcp, t.tcp, s.nextEpoch);
    SubAges(s.udp, t.udp, s.nextEpoch);
    hide EntriesAge;
  }

  lemma {:induction false} RejectAllAges(limits: Limits, s: Registry, keys: set<FlowKey>, now: int, hints: seq<Hint>)
    ensures var t := RejectAll(limits, s, keys, now, hints); Ages(s, t) && t.timers == s.timers
    decreases |keys|
  {
    hide Ages, RejectSetup;
    if keys == {} {
      SameAges(s, s);
    } else {
      var k := NextKey(keys, hints);
      var hint := if hints == [] then k else hints[0].victim;
      var t := RejectSetup(limits, s, k, SessionReplaced, now, hint);
      LocalReject(limits, s, k, SessionReplaced, now, hint);
      hide Local;
      LocalAges(s, t, k);
      var rest := if hints == [] then [] else hints[1..];
      RejectAllAges(limits, t, keys - {k}, now, rest);
      AgesThen(s, t, RejectAll(limits, t, keys - {k}, now, rest));
    }
  }

  lemma TimeoutAges(limits: Limits, s: Registry, x: Timer, now: int, hint: FlowKey)
    ensures var t := Timeout(limits, s, x, now, hint); Ages(s, t) && t.timers == s.timers - {x}
  {
    hide Ages, Local, DropEntry, RejectSetup, AbandonClaim, WriteResult;
    var s0 := s.(timers := s.timers - {x});
    SameAges(s, s0);
    if Due(s0, x) {
      var p := Pend(s0, x.kind)[x.key];
      var s1 := DropEntry(s0, x.kind, x.key);
      var s2 := WriteResult(s1, p.downlink, PairTimeout);
      LocalDropEntry(s0, x.kind, x.key);
      LocalReject(limits, s1, x.key, PairTimeout, now, hint);
      LocalThen(s0, s1, RejectSetup(limits, s1, x.key, PairTimeout, now, hint), x.key);
      LocalWrite(s1, p.downlink, PairTimeout, x.key);
      LocalThen(s0, s1, s2, x.key);
      LocalAbandon(s2, x.key, x.epoch);
      LocalThen(s0, s2, AbandonClaim(s2, x.key, x.epoch), x.key);
      LocalAges(s0, Timeout(limits, s, x, now, hint), x.key);
      AgesThen(s, s0, Timeout(limits, s, x, now, hint));
    }
  }

  lemma CloseAges(s: Registry, key: FlowKey)
    ensures var t := CancelUdp(s, key); Ages(s, t) && t.timers == s.timers
  {
    hide Ages, Local, DropEntry, AbandonClaim;
    var s1 := DropEntry(s, Udp, key);
    LocalDropEntry(s, Udp, key);
    LocalAges(s, s1, key);
    if key in s1.claims {
      LocalAbandon(s1, key, s1.claims[key].epoch);
      LocalThen(s, s1, AbandonClaim(s1, key, s1.claims[key].epoch), key);
      LocalAges(s, AbandonClaim(s1, key, s1.claims[key].epoch), key);
      SameAges(s1, s1.(cancelled := s1.cancelled + {s1.claims[key].token}));
      AgesThen(s, s1, s1.(cancelled := s1.cancelled + {s1.claims[key].token}));
    }
  }

  lemma LeaseAges(s: Registry, e: nat)
    ensures var t := DropLease(s, e);
            t.tcp == s.tcp && t.udp == s.udp && t.nextEpoch == s.nextEpoch && t.timers == s.timers
  {
  }

  lemma RegisterAges(limits: Limits, s: Registry, x: SessionId, now: int, hints: seq<Hint>)
    ensures var t := RegisterQuic(limits, s, x, now, hints); Ages(s, t) && t.timers == s.timers
  {
    hide Ages, RejectAll, SwapQuic, Stale;
    var (links, previous) := SwapQuic(s.links, x, limits.maxUdpFlows);
    var s1 := s.(links := links);
    SameAges(s, s1);
    if previous.Some? {
      var s2 := CancelPass(s1, x, previous.value);
      SameAges(s, s2);
      RejectAllAges(limits, s2, Stale(s2, x, previous.value), now, hints);
      AgesThen(s, s2, RegisterQuic(limits, s, x, now, hints));
    }
  }

  lemma ShutdownAges(s: Registry)
    ensures Ages(s, CancelAll(s))
  {
    hide AllTokens, ActiveClaims, Refunded;
  }

  /** Every timer that is set is older than the epochs to come. */
  ghost predicate TimersOk(s: Registry) {
    forall x :: x in s.timers ==> x.epoch < s.nextEpoch
  }

  lemma StepAges(limits: Limits, s: Registry, e: Event)
    requires limits.Valid() && Inv(limits, s) && Enabled(s, e)
    ensures Ages(s, Step(limits, s, e))
    ensures TimersOk(s) ==> TimersOk(Step(limits, s, e))
  {
    hide Within, NewDownlink, Ages, Local, Submit, RejectSetup, Timeout, CancelUdp, DropLease, RegisterQuic, RejectAll,
      CancelAll, CancelPass, RegisterTcpLink, DropTcpLink, DropQuicLink;
    var t := Step(limits, s, e);
    match e
    case Submits(sub, now, hint) =>
      SubmitIsLocal(limits, s, sub, now, hint);
      LocalAges(s, t, sub.Key());
      AgesOn(s, t);
    case RejectsSetup(key, code, now, hint) =>
      LocalReject(limits, s, key, code, now, hint);
      LocalAges(s, t, key);
      AgesOn(s, t);
    case TimerFires(x, now, hint) =>
      TimeoutAges(limits, s, x, now, hint);
      AgesOn(s, t);
    case ClosesUdp(key) =>
      CloseAges(s, key);
      AgesOn(s, t);
    case DropsLease(epoch) =>
      LeaseAges(s, epoch);
      SameAges(s, t);
    case RegistersQuic(x, now, hints) =>
      RegisterAges(limits, s, x, now, hints);
      AgesOn(s, t);
    case Purges(x, g, now, hints) =>
      RejectAllAges(limits, s, Stale(s, x, g), now, hints);
      AgesOn(s, t);
    case CancelsAll =>
      ShutdownAges(s);
      ShutdownTimers(s);
      AgesOn(s, t);
    case RegistersTcp(_) => SameAges(s, t);
    case DropsTcpGuard(_) => SameAges(s, t);
    case DropsQuicGuard(x, g) =>
      PassAside(s.(links := DropQuicLink(s.links, x, g)), x, g);
      SameAges(s, t);
  }

  lemma AgesOn(s: Registry, t: Registry)
    requires Ages(s, t)
    ensures s.nextEpoch <= t.nextEpoch
  {
  }

  lemma ShutdownTimers(s: Registry)
    ensures CancelAll(s).timers == s.timers
  {
  }

  lemma PassAside(s: Registry, x: SessionId, g: nat)
    ensures var t := CancelPass(s, x, g);
            t.tcp == s.tcp && t.udp == s.udp && t.nextEpoch == s.nextEpoch && t.timers == s.timers
  {
  }

  lemma {:induction false} TimersStayOk(limits: Limits, run: seq<Event>)
    requires limits.Valid() && LegalRun(limits, run)
    ensures TimersOk(After(limits, run))
  {
    hide Step, Enabled;
    if run != [] {
      var init := run[..|run| - 1];
      TimersStayOk(limits, init);
      RunKeepsInvariant(limits, init);
      StepAges(limits, After(limits, init), run[|run| - 1]);
    }
  }

  lemma NeverDueAgain(s: Registry, t: Registry, x: Timer)
    requires Ages(s, t) && !Due(s, x) && x.epoch < s.nextEpoch
    ensures !Due(t, x)
  {
    assert x.key in Pend(t, x.kind) ==> EntryKept(Pend(s, x.kind), Pend(t, x.kind), x.key, s.nextEpoch);
  }

  /** A timer whose wait is over never ends another: however the run goes on, no later wait of the flow is the one
      it was set for. */
  lemma {:induction false} OldTimersAreHarmless(limits: Limits, run: seq<Event>, more: seq<Event>, x: Timer)
    requires limits.Valid() && LegalRun(limits, run + more) && LegalRun(limits, run)
    requires x in After(limits, run).timers && !Due(After(limits, run), x)
    ensures !Due(After(limits, run + more), x) && x.epoch < After(limits, run + more).nextEpoch
  {
    hide Step, Enabled, Due;
    if more == [] {
      assert run + more == run;
      TimersStayOk(limits, run);
    } else {
      var init, e := more[..|more| - 1], more[|more| - 1];
      var all := run + more;
      assert all[..|all| - 1] == run + init && all[|all| - 1] == e;
      OldTimersAreHarmless(limits, run, init, x);
      RunKeepsInvariant(limits, run + init);
      var s := After(limits, run + init);
      StepAges(limits, s, e);
      NeverDueAgain(s, Step(limits, s, e), x);
      AgesOn(s, Step(limits, s, e));
    }
  }
}
