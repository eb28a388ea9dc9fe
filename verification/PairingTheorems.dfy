/** The promises of the pairing registry, spelled out for every run of calls. */
module PairingTheorems {
  import opened Wrappers
  import opened Flow
  import opened Counting
  import opened Links
  import opened Pairing
  import opened PairingFrames
  import opened PairingInvariant
  import opened PairingSteps
  import opened PairingSubmit
  import opened PairingRuns

  // ---------------------------------------------------------------------------------------------
  // The submissions a registry has seen are those of its run.

  ghost function SubmissionsOf(run: seq<Event>): set<Submission> {
    set i | 0 <= i < |run| && run[i].Submits? :: run[i].sub
  }

  ghost function SubmissionsIn(e: Event): set<Submission> {
    if e.Submits? then {e.sub} else {}
  }

  lemma PurgeHistory(limits: Limits, s: Registry, x: SessionId, g: nat, now: int, hints: seq<Hint>)
    ensures Purge(limits, s, x, g, now, hints).history == s.history
  {
    TameRejectAll(limits, s, Stale(s, x, g), now, hints);
  }

  lemma SubmitHistory(limits: Limits, s: Registry, sub: Submission, now: int, hint: FlowKey)
    ensures Submit(limits, s, sub, now, hint).0.history == s.history + {sub}
  {
    TamePrepare(limits, s, sub, now);
    hide Prepare, RejectSetup;
    if Prepare(limits, s, sub, now).Completes? {
      var s1, d := Prepare(limits, s, sub, now).state, Prepare(limits, s, sub, now).done;
      if ActivateClaim(s1, d.key, d.epoch, d.generations).Refused? {
        TameRefusal(s1, d);
      }
    } else {
      TameSubmit(limits, s, sub, now, hint);
    }
  }

  lemma StepHistory(limits: Limits, s: Registry, e: Event)
    ensures Step(limits, s, e).history == s.history + SubmissionsIn(e)
  {
    hide Submit, RejectSetup, Timeout, DropEntry, AbandonClaim, DropLease, Purge, Refunded, ActiveClaims, AllTokens;
    match e
    case Submits(sub, now, hint) => SubmitHistory(limits, s, sub, now, hint);
    case RejectsSetup(key, code, now, hint) => TameReject(limits, s, key, code, now, hint);
    case TimerFires(timer, now, hint) => TameTimeout(limits, s, timer, now, hint);
    case ClosesUdp(key) =>
      var s1 := DropEntry(s, Udp, key);
      TameDropEntry(s, Udp, key);
      if key in s1.claims {
        TameAbandon(s1, key, s1.claims[key].epoch);
      }
    case DropsLease(epoch) => TameDropLease(s, epoch);
    case RegistersQuic(x, now, hints) =>
      var (links, previous) := SwapQuic(s.links, x, limits.maxUdpFlows);
      if previous.Some? {
        PurgeHistory(limits, CancelPass(s.(links := links), x, previous.value), x, previous.value, now, hints);
      }
    case Purges(x, g, now, hints) => PurgeHistory(limits, s, x, g, now, hints);
    case RegistersTcp(_) =>
    case DropsTcpGuard(_) =>
    case DropsQuicGuard(_, _) =>
    case CancelsAll =>
  }

  lemma {:induction false} HistoryIsRun(limits: Limits, run: seq<Event>)
    ensures After(limits, run).history == SubmissionsOf(run)
  {
    hide Step, SubmissionsOf, SubmissionsIn;
    if run == [] {
      NoSubmissions();
    } else {
      var before, e := run[..|run| - 1], run[|run| - 1];
      HistoryIsRun(limits, before);
      StepHistory(limits, After(limits, before), e);
      assert run == before + [e];
      SubmissionsAppend(before, e);
    }
  }

  lemma NoSubmissions()
    ensures SubmissionsOf([]) == {}
  {
  }

  lemma SubmissionsAppend(before: seq<Event>, e: Event)
    ensures SubmissionsOf(before + [e]) == SubmissionsOf(before) + SubmissionsIn(e)
  {
    var run := before + [e];
    assert forall i :: 0 <= i < |before| ==> run[i] == before[i];
    assert run[|before|] == e;
  }

  // ---------------------------------------------------------------------------------------------
  // Bookkeeping.

  /** Each half-open flow of `m` has an inactive claim with its metadata, epoch, target and generations. */
  ghost predicate Agree(m: Entries, claims: Claims) {
    forall k :: k in m ==>
      && k in claims && !claims[k].active
      && m[k].metadata == claims[k].metadata && m[k].epoch == claims[k].epoch && m[k].target == claims[k].target
      && Generations(m[k]) == claims[k].generations
  }

  lemma EntriesAgree(kind: FlowKind, m: Entries, claims: Claims, timers: set<Timer>, budgets: nat)
    requires EntriesOk(kind, m, claims, timers, budgets)
    ensures Agree(m, claims)
  {
    hide HalfOk, Generations;
  }

  lemma InactiveIsHalfOpen(limits: Limits, s: Registry, k: FlowKey)
    requires Books(limits, s) && k in s.claims && !s.claims[k].active
    ensures k in s.tcp || k in s.udp
  {
    assert ClaimsOk(s.claims, s.leases, s.tcp.Keys + s.udp.Keys, s.nextEpoch);
    hide Books;
  }

  /** The pending maps have disjoint keys, together exactly the inactive claims, and agree with them;
      inactive claims and tombstones are bounded; a tombstone's flow has neither claim nor half. */
  lemma Bookkeeping(limits: Limits, run: seq<Event>)
    requires limits.Valid() && LegalRun(limits, run)
    ensures var s := After(limits, run);
            && Agree(s.tcp, s.claims) && Agree(s.udp, s.claims)
            && (forall k :: k in s.claims && !s.claims[k].active ==> k in s.tcp || k in s.udp)
            && (forall k :: k !in s.tcp || k !in s.udp)
            && (forall x :: |Inactive(s.claims, x)| <= limits.maxPending)
            && |s.rejections| <= limits.maxPending
            && (forall k :: k in s.rejections ==> k !in s.claims && k !in s.tcp && k !in s.udp)
  {
    RunKeepsInvariant(limits, run);
    var s := After(limits, run);
    hide After, LegalRun;
    BooksHold(limits, s, None);
    EntriesAgree(Tcp, s.tcp, s.claims, s.timers, |s.links.budgets|);
    EntriesAgree(Udp, s.udp, s.claims, s.timers, |s.links.budgets|);
    assert QuotaOk(s.claims, limits.maxPending) && TombstonesOk(s.rejections, s.claims.Keys, limits.maxPending);
    hide Within, Books, Inactive;
    forall k
      ensures k in s.claims && !s.claims[k].active ==> k in s.tcp || k in s.udp
      ensures k !in s.tcp || k !in s.udp
    {
      if k in s.claims && !s.claims[k].active {
        InactiveIsHalfOpen(limits, s, k);
      }
      OneKind(limits, s, k);
    }
  }

  function LeasedPermits(leases: Leases, b: nat): set<nat> {
    set e | e in leases && leases[e].permit == Some(b)
  }

  lemma LeasedCount(leases: Leases, b: nat)
    ensures |LeasedPermits(leases, b)| == Count(leases, LeaseHolds(b))
  {
    assert LeasedPermits(leases, b) == Matching(leases, LeaseHolds(b));
  }

  /** Every unit of every session budget is free, held by a half-open flow, or held by a live lease. */
  lemma PermitsConserved(limits: Limits, run: seq<Event>, b: nat)
    requires limits.Valid() && LegalRun(limits, run) && b < |After(limits, run).links.budgets|
    ensures var s := After(limits, run);
            s.links.budgets[b] + |HeldPermits(s.udp, b)| + |LeasedPermits(s.leases, b)| == limits.maxUdpFlows
  {
    RunKeepsInvariant(limits, run);
    var s := After(limits, run);
    hide After, LegalRun;
    assert Permits(limits.maxUdpFlows, s.links.budgets, s.udp, s.leases, None);
    hide Within, Count, HeldPermits, LeasedPermits;
    HeldCount(s.udp, b);
    LeasedCount(s.leases, b);
  }

  /** No downlink is told twice how its setup ended, and none that a relay owns is told at all. */
  lemma ResultsAreSingle(limits: Limits, run: seq<Event>, i: nat, j: nat)
    requires limits.Valid() && LegalRun(limits, run) && i < |After(limits, run).answers|
    ensures j < |After(limits, run).answers| && i != j ==>
              After(limits, run).answers[i].stream != After(limits, run).answers[j].stream
    ensures After(limits, run).answers[i].stream !in After(limits, run).handed
  {
    RunKeepsInvariant(limits, run);
    hide After, LegalRun, Books, Sources, Links.TableOk, Permits;
  }

  /** Whatever ran before, a submission never trips an `expect`, never finds its claim or permit missing,
      and a pair it returns is made of submissions of the run: uplink and target of the OPEN, downlink of
      the ATTACH, one key, one metadata, every QUIC half current. */
  lemma PairsAreCoherent(limits: Limits, run: seq<Event>, sub: Submission, now: int, hint: FlowKey)
    requires limits.Valid() && LegalRun(limits, run + [Submits(sub, now, hint)])
    ensures var (t, outcome) := Submit(limits, After(limits, run), sub, now, hint);
            && outcome != Panicked && outcome != Rejected(InternalError)
            && (outcome.Paired? ==>
                  && outcome.flow.key == sub.Key()
                  && exists o, a :: o in SubmissionsOf(run) + {sub} && a in SubmissionsOf(run) + {sub}
                                    && MadeOf(t.links, outcome.flow, o, a))
  {
    var more := run + [Submits(sub, now, hint)];
    assert more[..|more| - 1] == run;
    RunKeepsInvariant(limits, run);
    HistoryIsRun(limits, run);
    var s := After(limits, run);
    assert Enabled(s, more[|more| - 1]);
    hide After, LegalRun, Within, MadeOf, SubmissionsOf, Submit;
    SubmitKeeps(limits, s, sub, now, hint);
    SubmitHistory(limits, s, sub, now, hint);
  }
}
