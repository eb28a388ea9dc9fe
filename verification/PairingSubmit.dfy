/** What a submission does in a consistent registry. */
module PairingSubmit {
  import opened Wrappers
  import opened Flow
  import opened Counting
  import opened Links
  import opened Pairing
  import opened PairingInvariant
  import opened PairingSteps

  // ---------------------------------------------------------------------------------------------
  // Joining a flow, case by case.

  function Blank(s: Registry, sub: Submission): Pending {
    Pending(s.nextEpoch, sub.Meta(), Current(s.links, sub.session), sub.target,
            None, None, None, None, None, None, None, None)
  }

  lemma SettleFirst(s: Registry, kind: FlowKind, key: FlowKey, p: Pending)
    requires key in s.claims && !(p.uplink.Some? && p.downlink.Some?)
    ensures Settle(s, kind, key, p) ==
            Waits(WithPend(s.(nextEpoch := s.nextEpoch + 1,
                              claims := s.claims[key := s.claims[key].(epoch := s.nextEpoch)]),
                           kind, Pend(s, kind)[key := p.(epoch := s.nextEpoch)]),
                  s.nextEpoch)
  {
  }

  lemma ReserveNew(limits: Limits, s: Registry, sub: Submission)
    requires sub.Key() !in s.claims && |Inactive(s.claims, sub.session)| < limits.maxPending
    ensures ReserveClaim(limits, s, sub.Key(), sub.Meta(), sub.target, sub.generation)
         == Granted(s.(claims := s.claims[sub.Key() := FirstClaim(sub, s.nextEpoch, s.nextEpoch)],
                       nextEpoch := s.nextEpoch + 1), s.nextEpoch, true)
  {
    hide Inactive;
  }

  lemma JoinNew(limits: Limits, s: Registry, sub: Submission, permit: Option<nat>)
    requires Splittable(s, sub) && RightPermit(sub, permit)
    requires sub.Key() !in s.claims && sub.Key() !in Pend(s, sub.via)
    requires |Inactive(s.claims, sub.session)| < limits.maxPending
    ensures var r := Join(limits, s, sub, permit);
            && r.Waits? && r.epoch == s.nextEpoch + 1
            && r.state.(timers := r.state.timers + {Timer(sub.via, sub.Key(), r.epoch)}) == StartWaiting(s, sub, permit)
  {
    hide Join, InstallHalf, Settle, FirstHalf, Splittable, Inactive;
    var key, e := sub.Key(), s.nextEpoch;
    var c := FirstClaim(sub, e, e);
    var s1 := s.(claims := s.claims[key := c], nextEpoch := e + 1);
    var p := FirstHalf(sub, permit, Current(s.links, sub.session), e);
    JoinInstalls(limits, s, sub, permit);
    InstallFirst(s, s1, sub, permit);
    SettleFirst(s1, sub.via, key, p);
    assert s1.claims[key := c.(epoch := e + 1)] == s.claims[key := FirstClaim(sub, e + 1, e)];
    FirstHalfEpoch(sub, permit, Current(s.links, sub.session), e);
  }

  lemma JoinInstalls(limits: Limits, s: Registry, sub: Submission, permit: Option<nat>)
    requires sub.Key() !in s.claims && sub.Key() !in Pend(s, sub.via)
    requires |Inactive(s.claims, sub.session)| < limits.maxPending
    ensures var s1 := s.(claims := s.claims[sub.Key() := FirstClaim(sub, s.nextEpoch, s.nextEpoch)],
                         nextEpoch := s.nextEpoch + 1);
            Join(limits, s, sub, permit) == InstallHalf(s1, sub, Blank(s, sub), permit)
  {
    hide ReserveClaim, Inactive, InstallHalf;
    ReserveNew(limits, s, sub);
  }

  lemma InstallFirst(s: Registry, s1: Registry, sub: Submission, permit: Option<nat>)
    requires Splittable(s, sub) && RightPermit(sub, permit)
    ensures InstallHalf(s1, sub, Blank(s, sub), permit)
         == Settle(s1, sub.via, sub.Key(), FirstHalf(sub, permit, Current(s.links, sub.session), s.nextEpoch))
    ensures var p := FirstHalf(sub, permit, Current(s.links, sub.session), s.nextEpoch);
            !(p.uplink.Some? && p.downlink.Some?)
  {
    hide Settle, Current;
  }

  lemma FirstHalfEpoch(sub: Submission, permit: Option<nat>, current: Option<nat>, e: nat)
    ensures FirstHalf(sub, permit, current, e).(epoch := e + 1) == FirstHalf(sub, permit, current, e + 1)
  {
  }

  lemma JoinDuplicate(limits: Limits, s: Registry, sub: Submission, permit: Option<nat>)
    requires Splittable(s, sub) && sub.Key() in Pend(s, sub.via)
    requires EntryOk(sub.via, sub.Key(), Pend(s, sub.via)[sub.Key()], s.claims, s.timers, |s.links.budgets|)
    requires Fresh(Pend(s, sub.via)[sub.Key()], Current(s.links, sub.session))
    requires var p := Pend(s, sub.via)[sub.Key()];
             if sub.header.role.Open? then p.uplink.Some? else p.downlink.Some?
    ensures var r := Join(limits, s, sub, permit);
            && r.Fails? && r == Fails(s, MetadataConflict, r.downlink, true, permit)
            && (r.downlink == sub.downlink || (r.downlink == None && sub.header.role.Open?))
  {
    var key := sub.Key();
    var p := Pend(s, sub.via)[key];
    ReserveDuplicate(limits, s, sub);
    hide ReserveClaim, Generations, Splittable;
    assert Pend(s, sub.via)[key := p] == Pend(s, sub.via);
  }

  lemma ReserveDuplicate(limits: Limits, s: Registry, sub: Submission)
    requires Splittable(s, sub) && sub.Key() in Pend(s, sub.via)
    requires EntryOk(sub.via, sub.Key(), Pend(s, sub.via)[sub.Key()], s.claims, s.timers, |s.links.budgets|)
    requires Fresh(Pend(s, sub.via)[sub.Key()], Current(s.links, sub.session))
    requires var p := Pend(s, sub.via)[sub.Key()];
             if sub.header.role.Open? then p.uplink.Some? else p.downlink.Some?
    ensures var r := ReserveClaim(limits, s, sub.Key(), sub.Meta(), sub.target, sub.generation);
            r == Denied(MetadataConflict) || (r.Granted? && r.state == s && s.claims[sub.Key()].metadata == sub.Meta())
  {
    var key := sub.Key();
    var p, c := Pend(s, sub.via)[key], s.claims[key];
    if c.metadata == sub.Meta() && sub.generation.Some? {
      assert Generations(p)[0] in c.generations && sub.generation == Some(Generations(p)[0]);
    }
    assert s.claims[key := c] == s.claims;
  }

  /** The waiting entry with the missing half of `sub` in it. */
  function Joined(q: Pending, sub: Submission, permit: Option<nat>): Pending {
    if sub.header.role.Open?
    then q.(target := sub.target, uplink := sub.uplink, permit := permit, uplinkPath := Some(sub.path),
            uplinkGeneration := sub.generation)
    else q.(downlink := sub.downlink, liveness := sub.liveness, downlinkPath := Some(sub.path),
            downlinkGeneration := sub.generation)
  }

  /** Both halves of an entry are there. */
  predicate Whole(p: Pending) {
    p.target.Some? && p.uplink.Some? && p.downlink.Some? && p.uplinkPath.Some? && p.downlinkPath.Some?
  }

  function FlowOf(key: FlowKey, p: Pending): PairedFlow
    requires Whole(p)
  {
    PairedFlow(key, p.metadata, p.target.value, p.uplink.value, p.downlink.value, p.liveness, p.uplinkPath.value,
               p.downlinkPath.value, Generations(p), p.epoch)
  }

  function RunningClaim(c: FlowClaim, p: Pending): FlowClaim {
    c.(epoch := p.epoch, active := true, target := p.target, generations := Generations(p))
  }

  /** The missing half of the waiting entry `q` comes with `sub`. */
  ghost predicate Completing(s: Registry, sub: Submission, q: Pending) {
    && sub.Key() in Pend(s, sub.via) && Pend(s, sub.via)[sub.Key()] == q
    && EntryOk(sub.via, sub.Key(), q, s.claims, s.timers, |s.links.budgets|)
    && Fresh(q, Current(s.links, sub.session))
    && q.metadata == sub.Meta()
    && (if sub.header.role.Open? then q.uplink.None? else q.downlink.None?)
  }

  lemma JoinedOk(s: Registry, sub: Submission, permit: Option<nat>, q: Pending)
    requires Splittable(s, sub) && RightPermit(sub, permit) && Completing(s, sub, q)
    ensures var p := Joined(q, sub, permit);
            && Whole(p) && Fresh(p, Current(s.links, sub.session)) && p.epoch == q.epoch && p.metadata == q.metadata
            && (sub.via.Udp? ==> p.permit.Some?)
            && p.permit == (if q.permit.Some? then q.permit else permit)
            && (q.permit == None || permit == None)
            && (p.downlink == q.downlink || p.downlink == sub.downlink)
  {
  }

  lemma ReserveJoin(limits: Limits, s: Registry, sub: Submission, q: Pending)
    requires Splittable(s, sub) && Completing(s, sub, q)
    ensures var key := sub.Key();
            var r := ReserveClaim(limits, s, key, sub.Meta(), sub.target, sub.generation);
            && r.Granted? && key in r.state.claims
            && r.state == s.(claims := s.claims[key := r.state.claims[key]])
            && r.state.claims[key].target == (if sub.header.role.Open? then sub.target else q.target)
            && r.state.claims[key].token == s.claims[key].token
            && r.state.claims[key].metadata == q.metadata
  {
  }

  lemma JoinPair(limits: Limits, s: Registry, sub: Submission, permit: Option<nat>, q: Pending)
    requires Splittable(s, sub) && RightPermit(sub, permit) && Completing(s, sub, q)
    ensures var key, p := sub.Key(), Joined(q, sub, permit);
            var r := Join(limits, s, sub, permit);
            && Whole(p) && r.Completes?
            && Finish(r.state, r.done) ==
               (StartRunning(s, sub.via, key, RunningClaim(s.claims[key], p),
                 FlowLease(key, s.claims[key].token, p.permit),
                             s.nextEpoch, p.downlink.value),
                Paired(FlowOf(key, p)))
  {
    var key, p := sub.Key(), Joined(q, sub, permit);
    JoinedOk(s, sub, permit, q);
    ReserveJoin(limits, s, sub, q);
    var s1 := ReserveClaim(limits, s, key, sub.Meta(), sub.target, sub.generation).state;
    assert InstallHalf(s1, sub, if q.target.None? then q.(target := sub.target) else q, permit)
        == Settle(s1, sub.via, key, p);
    hide ReserveClaim, InstallHalf, Joined, EntryOk;
    assert Join(limits, s, sub, permit) == Settle(s1, sub.via, key, p);
    hide Join, Splittable, Completing;
    FinishWhole(s, s1, sub.via, key, p);
  }

  lemma FinishWhole(s: Registry, s1: Registry, kind: FlowKind, key: FlowKey, p: Pending)
    requires Whole(p) && (kind.Udp? ==> p.permit.Some?) && Fresh(p, Current(s.links, key.session)) && key in s.claims
    requires key in s1.claims && s1 == s.(claims := s.claims[key := s1.claims[key]])
    requires s1.claims[key].target == p.target && s1.claims[key].token == s.claims[key].token
    requires s1.claims[key].metadata == s.claims[key].metadata
    ensures var r := Settle(s1, kind, key, p);
            && r.Completes?
            && Finish(r.state, r.done) ==
               (StartRunning(s, kind, key, RunningClaim(s.claims[key], p),
                 FlowLease(key, s.claims[key].token, p.permit),
                             s.nextEpoch, p.downlink.value),
                Paired(FlowOf(key, p)))
  {
    var r := Settle(s1, kind, key, p);
    var c := s1.claims[key].(epoch := p.epoch, active := true, generations := Generations(p));
    assert c == RunningClaim(s.claims[key], p);
    assert s1.claims[key := c] == s.claims[key := c];
    hide Generations;
    assert ActivateClaim(r.state, key, p.epoch, Generations(p)) == Activated(r.state.(claims := s.claims[key := c]));
  }

  // ---------------------------------------------------------------------------------------------
  // What a submission may end in.

  /** A paired flow is made of one OPEN and one ATTACH of the same flow with the same metadata, or of one
      DUPLEX: uplink and target from the first, downlink from the second, QUIC halves on the current
      generation. */
  ghost predicate MadeOf(links: LinkTable, flow: PairedFlow, o: Submission, a: Submission) {
    && o.Key() == a.Key() == flow.key && o.Meta() == a.Meta() == flow.metadata
    && (if o == a then o.header.role.Duplex? else o.header.role.Open? && a.header.role.Attach?)
    && o.uplink == Some(flow.uplink) && o.target == Some(flow.target) && o.path == flow.uplinkPath
    && a.downlink == Some(flow.downlink) && a.liveness == flow.liveness && a.path == flow.downlinkPath
    && flow.generations == (if o == a then Listed(o.generation) else Listed(o.generation) + Listed(a.generation))
    && (forall i :: 0 <= i < |flow.generations| ==> Current(links, flow.key.session) == Some(flow.generations[i]))
  }

  ghost predicate Coherent(s: Registry, flow: PairedFlow) {
    exists o, a :: o in s.history && a in s.history && MadeOf(s.links, flow, o, a)
  }

  /** No `expect` fails and no internal error arises; what is left to do keeps the invariant. */
  ghost predicate Good(limits: Limits, sub: Submission, r: Installed) {
    match r
    case Waits(s, epoch) => Inv(limits, s.(timers := s.timers + {Timer(sub.via, sub.Key(), epoch)}))
    case Completes(s, d) =>
      var (t, outcome) := Finish(s, d);
      Inv(limits, t) && outcome.Paired? && Coherent(t, outcome.flow) && outcome.flow.key == sub.Key()
    case Fails(s, code, downlink, _, hand) => Within(limits, s, hand) && InHand(s, downlink) && code != InternalError
  }

  lemma DeniedGood(
    limits: Limits, s: Registry, sub: Submission, permit: Option<nat>, code: FlowErrorCode, d: Option<Stream>,
    abort: bool)
    requires Within(limits, s, permit) && InHand(s, sub.downlink) && code != InternalError
    requires d == None || d == sub.downlink
    ensures Good(limits, sub, Fails(s, code, d, abort, permit))
  {
    hide Within, Answered, Offered, NotWaiting;
  }

  lemma PairMadeOf(s: Registry, sub: Submission, permit: Option<nat>, q: Pending)
    requires Splittable(s, sub) && RightPermit(sub, permit) && Completing(s, sub, q)
    requires sub in s.history && SourceOk(sub.via, sub.Key(), q, s.history)
    requires Whole(Joined(q, sub, permit)) && Fresh(Joined(q, sub, permit), Current(s.links, sub.session))
    ensures exists o, a :: o in s.history && a in s.history
              && MadeOf(s.links, FlowOf(sub.Key(), Joined(q, sub, permit)), o, a)
  {
    var p := Joined(q, sub, permit);
    if sub.header.role.Open? {
      var a :| a in s.history && DownlinkFrom(q, sub.via, sub.Key(), a);
      assert MadeOf(s.links, FlowOf(sub.Key(), p), sub, a);
    } else {
      var o :| o in s.history && UplinkFrom(q, sub.via, sub.Key(), o);
      assert MadeOf(s.links, FlowOf(sub.Key(), p), o, sub);
    }
  }

  lemma PairGood(limits: Limits, s: Registry, sub: Submission, permit: Option<nat>, q: Pending)
    requires Within(limits, s, permit) && Splittable(s, sub) && RightPermit(sub, permit) && Completing(s, sub, q)
    requires sub in s.history && InHand(s, sub.downlink) && sub.Key() !in s.rejections
    ensures Good(limits, sub, Join(limits, s, sub, permit))
  {
    var key, p := sub.Key(), Joined(q, sub, permit);
    hide Within, InHand, MadeOf, Join, Finish;
    EntryFacts(limits, s, permit, sub.via, key);
    JoinedOk(s, sub, permit, q);
    hide Joined, Splittable;
    JoinPair(limits, s, sub, permit, q);
    PairMadeOf(s, sub, permit, q);
    var c, l := RunningClaim(s.claims[key], p), FlowLease(key, s.claims[key].token, p.permit);
    hide Generations;
    assert MayRun(s, key, c, l, s.nextEpoch);
    RunKeeps(limits, s, sub.via, key, c, l, s.nextEpoch, p.downlink.value, permit);
    RunFrame(s, sub.via, key, c, l, s.nextEpoch, p.downlink.value);
    hide StartRunning, MayRun, EntryOk, SourceOk, Completing;
    var t := StartRunning(s, sub.via, key, c, l, s.nextEpoch, p.downlink.value);
    assert Coherent(t, FlowOf(key, p));
  }

  lemma EntryFacts(limits: Limits, s: Registry, hand: Option<nat>, kind: FlowKind, key: FlowKey)
    requires Within(limits, s, hand) && key in Pend(s, kind)
    ensures SourceOk(kind, key, Pend(s, kind)[key], s.history)
    ensures EntryOk(kind, key, Pend(s, kind)[key], s.claims, s.timers, |s.links.budgets|)
    ensures key !in Pend(s, if kind.Tcp? then Udp else Tcp)
  {
    OneKind(limits, s, key);
    hide ClaimsOk, LeasesOk, DistinctClaims, QuotaOk, TombstonesOk, Permits, Downlinks, Links.TableOk, EntryOk,
      SourceOk;
  }

  lemma RunFrame(s: Registry, kind: FlowKind, key: FlowKey, c: FlowClaim, l: FlowLease, nextEpoch: nat, d: Stream)
    ensures var t := StartRunning(s, kind, key, c, l, nextEpoch, d); t.history == s.history && t.links == s.links
  {
  }

  lemma JoinDenied(limits: Limits, s: Registry, sub: Submission, permit: Option<nat>)
    requires if sub.Key() in s.claims then s.claims[sub.Key()].active || s.claims[sub.Key()].metadata != sub.Meta()
             else |Inactive(s.claims, sub.session)| >= limits.maxPending
    ensures Join(limits, s, sub, permit)
         == Fails(s, if sub.Key() in s.claims then MetadataConflict else FlowLimit, sub.downlink, true, permit)
  {
  }

  /** What a half needs before it may join its flow. */
  ghost predicate Joinable(limits: Limits, s: Registry, sub: Submission, permit: Option<nat>) {
    && Within(limits, s, permit) && Splittable(s, sub) && RightPermit(sub, permit)
    && sub in s.history && InHand(s, sub.downlink) && sub.Key() !in s.rejections
    && (sub.Key() in Pend(s, sub.via) ==> Fresh(Pend(s, sub.via)[sub.Key()], Current(s.links, sub.session)))
  }

  lemma NewGood(limits: Limits, s: Registry, sub: Submission, permit: Option<nat>)
    requires Joinable(limits, s, sub, permit) && sub.Key() !in s.claims && sub.Key() !in Pend(s, sub.via)
    requires |Inactive(s.claims, sub.session)| < limits.maxPending
    ensures Good(limits, sub, Join(limits, s, sub, permit))
  {
    hide Within, InHand, Splittable, Fresh;
    JoinNew(limits, s, sub, permit);
    StartKeeps(limits, s, sub, permit);
    hide Join, StartWaiting, Inv;
  }

  lemma JoinGood(limits: Limits, s: Registry, sub: Submission, permit: Option<nat>)
    requires Joinable(limits, s, sub, permit)
    ensures Good(limits, sub, Join(limits, s, sub, permit))
  {
    var key := sub.Key();
    KeyFacts(limits, s, permit, sub.via, key);
    hide Within, InHand, Fresh, Splittable, Join, Good, EntryOk;
    if key in s.claims {
      if s.claims[key].active || s.claims[key].metadata != sub.Meta() {
        JoinDenied(limits, s, sub, permit);
        DeniedGood(limits, s, sub, permit, Join(limits, s, sub, permit).code, sub.downlink, true);
      } else {
        assert sub.header.kind == sub.via by { SplittableKind(s, sub); }
        var q := Pend(s, sub.via)[key];
        if if sub.header.role.Open? then q.uplink.Some? else q.downlink.Some? {
          JoinDuplicate(limits, s, sub, permit);
          var r := Join(limits, s, sub, permit);
          DeniedGood(limits, s, sub, permit, r.code, r.downlink, r.abort);
        } else {
          CompletingHere(s, sub, q);
          PairGood(limits, s, sub, permit, q);
        }
      }
    } else if |Inactive(s.claims, sub.session)| >= limits.maxPending {
      JoinDenied(limits, s, sub, permit);
      DeniedGood(limits, s, sub, permit, Join(limits, s, sub, permit).code, sub.downlink, true);
    } else {
      NewGood(limits, s, sub, permit);
    }
  }

  lemma SplittableKind(s: Registry, sub: Submission)
    requires Splittable(s, sub)
    ensures sub.header.kind == sub.via
  {
  }

  lemma CompletingHere(s: Registry, sub: Submission, q: Pending)
    requires sub.Key() in Pend(s, sub.via) && Pend(s, sub.via)[sub.Key()] == q
    requires EntryOk(sub.via, sub.Key(), q, s.claims, s.timers, |s.links.budgets|)
    requires s.claims[sub.Key()].metadata == sub.Meta()
    requires Fresh(q, Current(s.links, sub.session))
    requires if sub.header.role.Open? then q.uplink.None? else q.downlink.None?
    ensures Completing(s, sub, q)
  {
  }

  lemma KeyFacts(limits: Limits, s: Registry, hand: Option<nat>, kind: FlowKind, key: FlowKey)
    requires Within(limits, s, hand)
    ensures key in Pend(s, kind) ==> EntryOk(kind, key, Pend(s, kind)[key], s.claims, s.timers, |s.links.budgets|)
    ensures key in s.claims && !s.claims[key].active && s.claims[key].metadata.kind == kind ==> key in Pend(s, kind)
    ensures key !in s.claims ==> key !in s.tcp && key !in s.udp
  {
    HalfOpenInactive(limits, s, key);
    if key in s.tcp {
      EntryHasClaim(Tcp, s.tcp, s.claims, s.timers, |s.links.budgets|, key);
    }
    if key in s.udp {
      EntryHasClaim(Udp, s.udp, s.claims, s.timers, |s.links.budgets|, key);
    }
    hide Within, HalfOk;
  }

  // ---------------------------------------------------------------------------------------------
  // Whole submissions.

  lemma InstallGood(limits: Limits, s: Registry, sub: Submission, permit: Option<nat>, now: int)
    requires Within(limits, s, permit) && sub.header.Valid() && !sub.header.role.Duplex? && sub.Shaped()
    requires sub in s.history && InHand(s, sub.downlink) && RightPermit(sub, permit) && Invalid(s, sub).None?
    ensures Good(limits, sub, Install(limits, s, sub, permit, now))
  {
    hide Within, InHand, Good, Join, Fresh;
    var key := sub.Key();
    if !LinkCurrent(s.links, key.session, sub.generation) {
      DeniedGood(limits, s, sub, permit, SessionReplaced, sub.downlink, sub.header.role.Open?);
    } else {
      SplittableHere(s, sub);
      ClearStaleKeeps(limits, s, sub.via, key, permit, sub.downlink);
      var s1 := ClearStale(s, sub.via, key);
      SplittableFrame(s, s1, sub);
      hide ClearStale, Invalid, Splittable;
      BooksHold(limits, s1, permit);
      hide Books;
      PruneKeeps(limits, s1, key, sub.header.role.Attach?, now, permit, sub.downlink);
      var (s2, rejection) := TerminalRejection(s1, key, sub.header.role.Attach?, now);
      PruneFrame(limits, s1, key, sub.header.role.Attach?, now);
      if rejection.Some? {
        DeniedGood(limits, s2, sub, permit, rejection.value, sub.downlink, false);
      } else {
        SplittableFrame(s1, s2, sub);
        JoinGood(limits, s2, sub, permit);
      }
    }
  }

  lemma SplittableHere(s: Registry, sub: Submission)
    requires sub.header.Valid() && !sub.header.role.Duplex? && sub.Shaped() && Invalid(s, sub).None?
    requires LinkCurrent(s.links, sub.session, sub.generation)
    ensures Splittable(s, sub)
  {
  }

  lemma PruneFrame(limits: Limits, s: Registry, key: FlowKey, consume: bool, now: int)
    requires Books(limits, s)
    ensures var (t, rejection) := TerminalRejection(s, key, consume, now);
            && t == s.(rejections := t.rejections)
            && (rejection.None? ==> key !in t.rejections)
            && (rejection.Some? ==> rejection.value != InternalError)
  {
    hide EntriesOk, ClaimsOk, LeasesOk, DistinctClaims, QuotaOk;
  }

  lemma SplittableFrame(s: Registry, t: Registry, sub: Submission)
    requires Splittable(s, sub) && t.links.counts == s.links.counts
    ensures Splittable(t, sub)
  {
  }

  lemma BooksHold(limits: Limits, s: Registry, hand: Option<nat>)
    requires Within(limits, s, hand)
    ensures Books(limits, s)
  {
  }

  lemma DuplexNew(limits: Limits, s: Registry, sub: Submission, permit: Option<nat>)
    requires sub.header.role.Duplex? && sub.Shaped() && Invalid(s, sub).None?
    requires sub.Key() !in s.claims && sub.Key() !in Pend(s, sub.via)
    requires |Inactive(s.claims, sub.session)| < limits.maxPending
    ensures var key, r := sub.Key(), InstallDuplex(limits, s, sub, permit);
            var c := FlowClaim(s.nextEpoch, sub.Meta(), sub.target, true, s.nextEpoch, Listed(sub.generation));
            var l := FlowLease(key, s.nextEpoch, permit);
            && r.Completes? && Finish(r.state, r.done).1.Paired?
            && Finish(r.state, r.done).0
               == StartRunning(s, sub.via, key, c, l, s.nextEpoch + 1, sub.downlink.value)
            && Finish(r.state, r.done).1.flow.key == key && Finish(r.state, r.done).1.flow.epoch == s.nextEpoch
            && MadeOf(s.links, Finish(r.state, r.done).1.flow, sub, sub)
  {
    var key, r := sub.Key(), InstallDuplex(limits, s, sub, permit);
    var c := FlowClaim(s.nextEpoch, sub.Meta(), sub.target, true, s.nextEpoch, Listed(sub.generation));
    assert r.state.claims[key := c] == s.claims[key := c];
    assert ActivateClaim(r.state, key, s.nextEpoch, Listed(sub.generation))
        == Activated(r.state.(claims := s.claims[key := c]));
    assert Pend(s, sub.via) - {key} == Pend(s, sub.via);
  }

  lemma DuplexRuns(limits: Limits, s: Registry, sub: Submission, permit: Option<nat>)
    requires Within(limits, s, permit) && sub.header.role.Duplex? && sub.Shaped()
    requires sub in s.history && InHand(s, sub.downlink) && Invalid(s, sub).None?
    requires sub.Key() !in s.rejections && sub.Key() !in s.claims && sub.Key() !in s.tcp && sub.Key() !in s.udp
    requires |Inactive(s.claims, sub.session)| < limits.maxPending
    ensures Good(limits, sub, InstallDuplex(limits, s, sub, permit))
  {
    var key := sub.Key();
    hide Within, InHand, MadeOf, Invalid;
    DuplexNew(limits, s, sub, permit);
    hide InstallDuplex, Finish, Inactive;
    var c := FlowClaim(s.nextEpoch, sub.Meta(), sub.target, true, s.nextEpoch, Listed(sub.generation));
    var l := FlowLease(key, s.nextEpoch, permit);
    RunKeeps(limits, s, sub.via, key, c, l, s.nextEpoch + 1, sub.downlink.value, permit);
    RunFrame(s, sub.via, key, c, l, s.nextEpoch + 1, sub.downlink.value);
    hide StartRunning, Inv;
    var r := InstallDuplex(limits, s, sub, permit);
    assert Coherent(Finish(r.state, r.done).0, Finish(r.state, r.done).1.flow);
  }

  lemma DuplexDenied(limits: Limits, s: Registry, sub: Submission, permit: Option<nat>)
    requires sub.header.role.Duplex?
    requires if sub.Key() in s.claims then s.claims[sub.Key()].active || s.claims[sub.Key()].metadata != sub.Meta()
             else |Inactive(s.claims, sub.session)| >= limits.maxPending
    ensures InstallDuplex(limits, s, sub, permit)
         == Fails(s, if sub.Key() in s.claims then MetadataConflict else FlowLimit, sub.downlink, false, permit)
  {
  }

  /** Only split flows wait, so no duplex flow ever meets the claim of a half-open one. */
  lemma DuplexApart(limits: Limits, s: Registry, hand: Option<nat>, sub: Submission)
    requires Within(limits, s, hand) && sub.header.Valid() && sub.header.role.Duplex? && sub.Key() in s.claims
    ensures s.claims[sub.Key()].active || s.claims[sub.Key()].metadata != sub.Meta()
  {
    KeyFacts(limits, s, hand, Tcp, sub.Key());
    KeyFacts(limits, s, hand, Udp, sub.Key());
    hide Within;
  }

  lemma DuplexGood(limits: Limits, s: Registry, sub: Submission, permit: Option<nat>)
    requires Within(limits, s, permit) && sub.header.Valid() && sub.header.role.Duplex? && sub.Shaped()
    requires sub in s.history && InHand(s, sub.downlink) && Invalid(s, sub).None? && sub.Key() !in s.rejections
    ensures Good(limits, sub, InstallDuplex(limits, s, sub, permit))
  {
    var key := sub.Key();
    hide Within, InHand, Good, InstallDuplex, Invalid;
    KeyFacts(limits, s, permit, Tcp, key);
    hide EntryOk;
    if key in s.claims || |Inactive(s.claims, sub.session)| >= limits.maxPending {
      if key in s.claims {
        DuplexApart(limits, s, permit, sub);
      }
      DuplexDenied(limits, s, sub, permit);
      DeniedGood(limits, s, sub, permit, InstallDuplex(limits, s, sub, permit).code, sub.downlink, false);
    } else {
      DuplexRuns(limits, s, sub, permit);
    }
  }

  /** Each submission brings a downlink of its own. */
  ghost predicate NewDownlink(s: Registry, sub: Submission) {
    sub.downlink.Some? ==> !Offered(s.history, sub.downlink.value)
  }

  lemma OfferedMore(history: set<Submission>, sub: Submission, d: Stream)
    ensures Offered(history, d) ==> Offered(history + {sub}, d)
    ensures sub.downlink == Some(d) ==> Offered(history + {sub}, d)
  {
    if Offered(history, d) {
      var o :| o in history && o.downlink == Some(d);
      assert o in history + {sub};
    }
    if sub.downlink == Some(d) {
      assert sub in history + {sub};
    }
  }

  lemma HistoryDownlinks(s: Registry, sub: Submission)
    requires Downlinks(s) && NewDownlink(s, sub)
    ensures Downlinks(s.(history := s.history + {sub}))
    ensures InHand(s.(history := s.history + {sub}), sub.downlink)
  {
    forall d: Stream
      ensures Offered(s.history, d) ==> Offered(s.history + {sub}, d)
      ensures sub.downlink == Some(d) ==> Offered(s.history + {sub}, d)
    {
      OfferedMore(s.history, sub, d);
    }
    hide Offered;
  }

  lemma HistorySources(kind: FlowKind, m: Entries, history: set<Submission>, sub: Submission)
    requires Sources(kind, m, history)
    ensures Sources(kind, m, history + {sub})
  {
    hide UplinkFrom, DownlinkFrom;
    forall k | k in m
      ensures SourceOk(kind, k, m[k], history + {sub})
    {
      if m[k].uplink.Some? {
        var o :| o in history && UplinkFrom(m[k], kind, k, o);
        assert o in history + {sub};
      }
      if m[k].downlink.Some? {
        var a :| a in history && DownlinkFrom(m[k], kind, k, a);
        assert a in history + {sub};
      }
    }
  }

  lemma HistoryKeeps(limits: Limits, s: Registry, sub: Submission)
    requires Inv(limits, s) && NewDownlink(s, sub)
    ensures var t := s.(history := s.history + {sub}); Inv(limits, t) && InHand(t, sub.downlink)
  {
    hide EntriesOk, ClaimsOk, LeasesOk, DistinctClaims, QuotaOk, TombstonesOk, Permits, Links.TableOk, Downlinks,
      Sources, InHand;
    HistoryDownlinks(s, sub);
    HistorySources(Tcp, s.tcp, s.history, sub);
    HistorySources(Udp, s.udp, s.history, sub);
  }

  /** Taking a permit from a budget. */
  function Acquire(s: Registry, b: nat): Registry
    requires b < |s.links.budgets| && s.links.budgets[b] > 0
  {
    s.(links := s.links.(budgets := s.links.budgets[b := s.links.budgets[b] - 1]))
  }

  lemma AcquireKeeps(limits: Limits, s: Registry, b: nat, d: Option<Stream>)
    requires Inv(limits, s) && b < |s.links.budgets| && s.links.budgets[b] > 0 && InHand(s, d)
    ensures Within(limits, Acquire(s, b), Some(b)) && InHand(Acquire(s, b), d)
  {
    hide EntriesOk, ClaimsOk, LeasesOk, DistinctClaims, QuotaOk, TombstonesOk, Links.TableOk, Sources, Count;
    hide Offered, Answered, NotWaiting, AnswersOk, WaitingOk, Apart, ApartFrom;
    LinksIgnoreBudgets(s.links, Acquire(s, b).links.budgets);
  }

  lemma InvalidFrame(s: Registry, t: Registry, sub: Submission)
    requires t.links.counts == s.links.counts
    ensures Invalid(t, sub) == Invalid(s, sub)
  {
  }

  /** The tail of `Prepare`: the permit in hand, install. */
  lemma InstalledGood(limits: Limits, s: Registry, sub: Submission, permit: Option<nat>, now: int)
    requires Within(limits, s, permit) && sub.header.Valid() && sub.Shaped()
    requires sub in s.history && InHand(s, sub.downlink) && RightPermit(sub, permit) && Invalid(s, sub).None?
    requires sub.header.role.Duplex? ==> sub.Key() !in s.rejections
    ensures Good(limits, sub, if sub.header.role.Duplex? then InstallDuplex(limits, s, sub, permit)
                              else Install(limits, s, sub, permit, now))
  {
    if sub.header.role.Duplex? {
      DuplexGood(limits, s, sub, permit);
    } else {
      InstallGood(limits, s, sub, permit, now);
    }
  }

  lemma PrepareGood(limits: Limits, s: Registry, sub: Submission, now: int)
    requires Inv(limits, s) && sub.header.Valid() && NewDownlink(s, sub)
    ensures Good(limits, sub, Prepare(limits, s, sub, now))
  {
    var key, role := sub.Key(), sub.header.role;
    var s0 := s.(history := s.history + {sub});
    HistoryKeeps(limits, s, sub);
    hide Within, InHand, Good, Install, InstallDuplex, NewDownlink;
    var invalid := Invalid(s0, sub);
    if invalid.Some? {
      DeniedGood(limits, s0, sub, None, invalid.value, sub.downlink, role.Open?);
    } else if !sub.Shaped() {
      DeniedGood(limits, s0, sub, None, InvalidRequest, sub.downlink, role.Open?);
    } else {
      EarlyGood(limits, s0, sub, now);
    }
  }

  lemma EarlyGood(limits: Limits, s0: Registry, sub: Submission, now: int)
    requires Inv(limits, s0) && sub.header.Valid() && sub.Shaped() && sub in s0.history && InHand(s0, sub.downlink)
    requires Invalid(s0, sub).None?
    ensures Good(limits, sub, Admit(limits, s0, sub, now))
  {
    var key, role := sub.Key(), sub.header.role;
    BooksHold(limits, s0, None);
    hide Books, Within, InHand, Good, AcquireAndInstall;
    if role.Duplex? || (role.Open? && sub.via.Udp?) {
      PruneFrame(limits, s0, key, role.Duplex?, now);
      PruneKeeps(limits, s0, key, role.Duplex?, now, None, sub.downlink);
      var (s1, rejection) := TerminalRejection(s0, key, role.Duplex?, now);
      InvalidFrame(s0, s1, sub);
      hide TerminalRejection, Invalid;
      if rejection.Some? {
        DeniedGood(limits, s1, sub, None, rejection.value, sub.downlink, false);
      } else {
        AcquireGood(limits, s1, sub, now);
      }
    } else {
      hide Invalid;
      AcquireGood(limits, s0, sub, now);
    }
  }

  lemma AcquireGood(limits: Limits, s: Registry, sub: Submission, now: int)
    requires Inv(limits, s) && sub.header.Valid() && sub.Shaped() && sub in s.history && InHand(s, sub.downlink)
    requires Invalid(s, sub).None? && (sub.header.role.Duplex? ==> sub.Key() !in s.rejections)
    ensures Good(limits, sub, AcquireAndInstall(limits, s, sub, now))
  {
    hide Within, InHand, Good, Install, InstallDuplex, Invalid;
    var role := sub.header.role;
    if sub.via.Udp? && !role.Attach? {
      if sub.session !in s.links.counts {
        DeniedGood(limits, s, sub, None, SessionReplaced, sub.downlink, role.Open?);
      } else {
        var b := s.links.counts[sub.session].budget;
        if b >= |s.links.budgets| || s.links.budgets[b] == 0 {
          DeniedGood(limits, s, sub, None, FlowLimit, sub.downlink, role.Open?);
        } else {
          AcquireKeeps(limits, s, b, sub.downlink);
          InvalidFrame(s, Acquire(s, b), sub);
          InstalledGood(limits, Acquire(s, b), sub, Some(b), now);
        }
      }
    } else {
      InstalledGood(limits, s, sub, None, now);
    }
  }

  lemma FailKeeps(
    limits: Limits, s: Registry, key: FlowKey, code: FlowErrorCode, d: Option<Stream>, abort: bool, hand: Option<nat>,
    now: int, hint: FlowKey)
    requires limits.Valid() && Within(limits, s, hand) && InHand(s, d) && code != InternalError
    ensures var t := if abort then RejectSetup(limits, s, key, code, now, hint) else s;
            Inv(limits, Release(WriteResult(t, d, code), hand))
  {
    var t := if abort then RejectSetup(limits, s, key, code, now, hint) else s;
    if abort {
      RejectKeeps(limits, s, key, code, now, hint, hand, d);
    }
    hide Within, InHand, RejectSetup;
    WriteKeeps(limits, t, hand, d, code);
    ReleaseKeeps(limits, WriteResult(t, d, code), hand);
  }

  /** One submission, whatever its role, kind and carriers: the invariant is kept, no `expect` fails, no
      internal error arises, and a pair that comes out is coherent. */
  lemma SubmitKeeps(limits: Limits, s: Registry, sub: Submission, now: int, hint: FlowKey)
    requires limits.Valid() && Inv(limits, s) && sub.header.Valid() && NewDownlink(s, sub)
    ensures var (t, outcome) := Submit(limits, s, sub, now, hint);
            && Inv(limits, t)
            && outcome != Panicked && outcome != Rejected(InternalError)
            && (outcome.Paired? ==> Coherent(t, outcome.flow) && outcome.flow.key == sub.Key())
  {
    PrepareGood(limits, s, sub, now);
    hide Prepare, Within, InHand, NewDownlink, Coherent;
    match Prepare(limits, s, sub, now)
    case Waits(_, _) =>
    case Completes(_, _) =>
    case Fails(s1, code, downlink, abort, hand) =>
      hide RejectSetup, WriteResult, Release;
      FailKeeps(limits, s1, sub.Key(), code, downlink, abort, hand, now, hint);
  }
}
