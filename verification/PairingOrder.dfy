/** OPEN and ATTACH may come in either order; a late ATTACH learns how its OPEN failed. */
module PairingOrder {
  import opened Wrappers
  import opened Flow
  import opened Counting
  import opened Links
  import opened Pairing
  import opened PairingInvariant
  import opened PairingSteps
  import opened PairingSubmit
  import opened PairingRuns

  /** The permit a submission needs, named by its budget. */
  function Needs(s: Registry, sub: Submission): Option<nat> {
    if sub.via.Udp? && !sub.header.role.Attach? && sub.session in s.links.counts
    then Some(s.links.counts[sub.session].budget) else None
  }

  predicate HasPermit(s: Registry, sub: Submission) {
    Needs(s, sub).Some? ==> Needs(s, sub).value < |s.links.budgets| && s.links.budgets[Needs(s, sub).value] > 0
  }

  function Spend(links: LinkTable, permit: Option<nat>): LinkTable {
    if permit.Some? && permit.value < |links.budgets| && links.budgets[permit.value] > 0
    then links.(budgets := links.budgets[permit.value := links.budgets[permit.value] - 1]) else links
  }

  /** The state in which a valid half meets its flow. */
  function Primed(s: Registry, sub: Submission, now: int): Registry {
    s.(history := s.history + {sub}, rejections := Live(s.rejections, now), links := Spend(s.links, Needs(s, sub)))
  }

  /** A half of a split flow that nothing stands in the way of. */
  ghost predicate Admissible(s: Registry, sub: Submission, now: int) {
    && Splittable(s, sub) && Invalid(s, sub).None? && HasPermit(s, sub) && sub.Key() !in Live(s.rejections, now)
  }

  lemma LiveTwice(m: map<FlowKey, Tombstone>, now: int)
    ensures Live(Live(m, now), now) == Live(m, now)
  {
  }

  lemma PruneMissing(s: Registry, key: FlowKey, consume: bool, now: int)
    requires key !in Live(s.rejections, now)
    ensures TerminalRejection(s, key, consume, now) == (s.(rejections := Live(s.rejections, now)), None)
  {
    MinusAbsent(Live(s.rejections, now), key);
  }

  lemma StaleFree(s: Registry, kind: FlowKind, key: FlowKey)
    requires key in Pend(s, kind) ==>
               && EntryOk(kind, key, Pend(s, kind)[key], s.claims, s.timers, |s.links.budgets|)
               && Fresh(Pend(s, kind)[key], Current(s.links, key.session))
    ensures ClearStale(s, kind, key) == s
  {
    if key in Pend(s, kind) {
      ClearStaleKeepsHalf(s, kind, key);
    }
  }

  lemma InstallJoins(limits: Limits, s: Registry, sub: Submission, permit: Option<nat>, now: int)
    requires LinkCurrent(s.links, sub.session, sub.generation) && sub.Key() !in Live(s.rejections, now)
    requires sub.Key() in Pend(s, sub.via) ==>
               && EntryOk(sub.via, sub.Key(), Pend(s, sub.via)[sub.Key()], s.claims, s.timers, |s.links.budgets|)
               && Fresh(Pend(s, sub.via)[sub.Key()], Current(s.links, sub.session))
    ensures Install(limits, s, sub, permit, now) == Join(limits, s.(rejections := Live(s.rejections, now)), sub, permit)
  {
    StaleFree(s, sub.via, sub.Key());
    PruneMissing(s, sub.Key(), sub.header.role.Attach?, now);
    hide ClearStale, TerminalRejection, Join, EntryOk, Fresh;
  }

  lemma PrepareJoins(limits: Limits, s: Registry, sub: Submission, now: int)
    requires Admissible(s, sub, now)
    requires sub.Key() in Pend(s, sub.via) ==>
               && EntryOk(sub.via, sub.Key(), Pend(s, sub.via)[sub.Key()], s.claims, s.timers, |s.links.budgets|)
               && Fresh(Pend(s, sub.via)[sub.Key()], Current(s.links, sub.session))
    ensures Prepare(limits, s, sub, now) == Join(limits, Primed(s, sub, now), sub, Needs(s, sub))
  {
    hide Join, EntryOk, Fresh, Live, Install;
    var key := sub.Key();
    var s0 := s.(history := s.history + {sub});
    InvalidFrame(s, s0, sub);
    LiveTwice(s.rejections, now);
    hide Invalid;
    if sub.via.Udp? && sub.header.role.Open? {
      PruneMissing(s0, key, false, now);
      hide TerminalRejection;
      var s1 := s0.(rejections := Live(s.rejections, now));
      var s2 := s1.(links := Spend(s.links, Needs(s, sub)));
      InstallJoins(limits, s2, sub, Needs(s, sub), now);
      assert Prepare(limits, s, sub, now) == Install(limits, s2, sub, Needs(s, sub), now);
    } else {
      hide TerminalRejection;
      InstallJoins(limits, s0, sub, None, now);
      assert Prepare(limits, s, sub, now) == Install(limits, s0, sub, None, now);
    }
  }

  /** The first half of a fresh flow waits. */
  lemma FirstWaits(limits: Limits, s: Registry, sub: Submission, now: int, hint: FlowKey)
    requires Admissible(s, sub, now) && sub.Key() !in s.claims && sub.Key() !in s.tcp && sub.Key() !in s.udp
    requires |Inactive(s.claims, sub.session)| < limits.maxPending
    ensures Submit(limits, s, sub, now, hint)
         == (StartWaiting(Primed(s, sub, now), sub, Needs(s, sub)), Waiting(s.nextEpoch + 1))
  {
    hide Prepare, Join, Live, StartWaiting, Inactive;
    PrepareJoins(limits, s, sub, now);
    var t := Primed(s, sub, now);
    SplittableFrame(s, t, sub);
    assert RightPermit(sub, Needs(s, sub));
    hide Splittable, Invalid;
    JoinNew(limits, t, sub, Needs(s, sub));
  }

  /** The second half of a waiting flow completes it. */
  lemma SecondPairs(limits: Limits, s: Registry, sub: Submission, now: int, hint: FlowKey, q: Pending)
    requires Admissible(s, sub, now) && Completing(s, sub, q)
    ensures var key, p, t := sub.Key(), Joined(q, sub, Needs(s, sub)), Primed(s, sub, now);
            && Whole(p)
            && Submit(limits, s, sub, now, hint) ==
               (StartRunning(t, sub.via, key, RunningClaim(s.claims[key], p),
                 FlowLease(key, s.claims[key].token, p.permit),
                             s.nextEpoch, p.downlink.value),
                Paired(FlowOf(key, p)))
  {
    PrepareJoins(limits, s, sub, now);
    var t := Primed(s, sub, now);
    SplittableFrame(s, t, sub);
    assert RightPermit(sub, Needs(s, sub));
    assert Completing(t, sub, q);
    hide Splittable, Invalid, Prepare, Live, EntryOk, Completing;
    JoinPair(limits, t, sub, Needs(s, sub), q);
    hide Join, Finish;
  }

  /** An OPEN and an ATTACH of the same new flow, both free to enter `s`, whenever they come. */
  ghost predicate MatchingHalves(limits: Limits, s: Registry, open: Submission, attach: Submission, first: int) {
    && open.header.role.Open? && attach.header.role.Attach?
    && open.via == attach.via && open.Key() == attach.Key() && open.Meta() == attach.Meta()
    && Admissible(s, open, first) && Admissible(s, attach, first)
    && open.Key() !in s.claims && open.Key() !in s.tcp && open.Key() !in s.udp
    && |Inactive(s.claims, open.session)| < limits.maxPending
  }

  /** The flow made of both halves, and the registry that runs it. */
  function BothHalves(s: Registry, open: Submission, attach: Submission): Pending {
    Pending(s.nextEpoch + 1, open.Meta(), Current(s.links, open.session), open.target, open.uplink, attach.downlink,
            attach.liveness, Needs(s, open), Some(open.path), Some(attach.path), open.generation, attach.generation)
  }

  function PairedState(s: Registry, open: Submission, attach: Submission, first: int, second: int): Registry
    requires attach.downlink.Some?
  {
    var key, e, p := open.Key(), s.nextEpoch, BothHalves(s, open, attach);
    s.(links := Spend(s.links, Needs(s, open)),
       claims := s.claims[key := FlowClaim(e + 1, open.Meta(), open.target, true, e, Generations(p))],
       leases := s.leases[e + 1 := FlowLease(key, e, Needs(s, open))],
       nextEpoch := e + 2,
       timers := s.timers + {Timer(open.via, key, e + 1)},
       handed := s.handed + {attach.downlink.value},
       rejections := Live(Live(s.rejections, first), second),
       history := s.history + {open, attach})
  }

  /** The waiting half is ready for the other one. */
  lemma FirstIsReady(limits: Limits, s: Registry, a: Submission, b: Submission, first: int, second: int)
    requires MatchingHalves(limits, s, a, b, first) || MatchingHalves(limits, s, b, a, first)
    ensures var s1 := StartWaiting(Primed(s, a, first), a, Needs(s, a));
            var q := FirstHalf(a, Needs(s, a), Current(s.links, a.session), s.nextEpoch + 1);
            Admissible(s1, b, second) && Needs(s1, b) == Needs(s, b) && Completing(s1, b, q)
  {
    var t := Primed(s, a, first);
    var s1 := StartWaiting(t, a, Needs(s, a));
    hide StartWaiting, EntryOk, Inactive;
    StartFields(t, a, Needs(s, a));
    SplittableFrame(s, t, a);
    FirstHalfOk(t, a, Needs(s, a), s1.claims, s1.timers);
    var q := FirstHalf(a, Needs(s, a), Current(s.links, a.session), s.nextEpoch + 1);
    assert Current(t.links, a.session) == Current(s.links, a.session);
    HalfFresh(s, a);
    hide FirstHalf;
    SplittableFrame(s, s1, b);
    InvalidFrame(s, s1, b);
    hide Splittable, Invalid, Fresh;
    assert b.Key() !in Live(s1.rejections, second);
    assert Admissible(s1, b, second);
  }

  lemma HalfFresh(s: Registry, a: Submission)
    requires Splittable(s, a)
    ensures var q := FirstHalf(a, Needs(s, a), Current(s.links, a.session), s.nextEpoch + 1);
            && Fresh(q, Current(s.links, a.session)) && q.metadata == a.Meta()
            && q.uplink == (if a.header.role.Open? then a.uplink else None)
            && q.downlink == (if a.header.role.Open? then None else a.downlink)
  {
  }

  lemma JoinedEither(s: Registry, open: Submission, attach: Submission)
    requires Splittable(s, open) && Splittable(s, attach) && open.header.role.Open? && attach.header.role.Attach?
    requires open.Meta() == attach.Meta() && open.session == attach.session
    ensures var current, e, n := Current(s.links, open.session), s.nextEpoch + 1, Needs(s, open);
            && Joined(FirstHalf(open, n, current, e), attach, None) == BothHalves(s, open, attach)
            && Joined(FirstHalf(attach, None, current, e), open, n) == BothHalves(s, open, attach)
            && Needs(s, attach) == None
            && Whole(BothHalves(s, open, attach))
  {
  }

  /** Only the OPEN spends a permit. */
  lemma SpendOnce(s: Registry, a: Submission, b: Submission)
    requires a.header.role.Open? && b.header.role.Attach?
    ensures Spend(Spend(s.links, Needs(s, a)), Needs(s, b)) == Spend(s.links, Needs(s, a))
    ensures Spend(Spend(s.links, Needs(s, b)), Needs(s, a)) == Spend(s.links, Needs(s, a))
  {
  }

  /** Running the flow from the waiting state leaves exactly the paired state. */
  lemma RunFromWaiting(limits: Limits, s: Registry, a: Submission, b: Submission, first: int, second: int)
    requires MatchingHalves(limits, s, a, b, first) || MatchingHalves(limits, s, b, a, first)
    ensures var open, attach := if a.header.role.Open? then a else b, if a.header.role.Open? then b else a;
            var s1 := StartWaiting(Primed(s, a, first), a, Needs(s, a));
            var key, p := open.Key(), BothHalves(s, open, attach);
            && attach.downlink.Some? && key in s1.claims
            && StartRunning(Primed(s1, b, second), b.via, key, RunningClaim(s1.claims[key], p),
                            FlowLease(key, s1.claims[key].token, p.permit), s1.nextEpoch, attach.downlink.value)
               == PairedState(s, open, attach, first, second)
  {
    var open, attach := if a.header.role.Open? then a else b, if a.header.role.Open? then b else a;
    var key, p := open.Key(), BothHalves(s, open, attach);
    var t := Primed(s, a, first);
    var s1 := StartWaiting(t, a, Needs(s, a));
    hide StartWaiting, Inactive;
    StartFields(t, a, Needs(s, a));
    SpendOnce(s, open, attach);
    var c := RunningClaim(s1.claims[key], p);
    assert c == FlowClaim(s.nextEpoch + 1, open.Meta(), open.target, true, s.nextEpoch, Generations(p));
    var q := FirstHalf(a, Needs(s, a), Current(t.links, key.session), s.nextEpoch + 1);
    var u := Primed(s1, b, second);
    var l := FlowLease(key, s1.claims[key].token, p.permit);
    hide StartWaiting, Live, FirstHalf, FirstClaim, Admissible, Completing, Joined, Generations, Spend, Inactive,
      Current;
    InsertThenRemove(s.tcp, key, q);
    InsertThenRemove(s.udp, key, q);
    UpdateTwice(s.claims, key, s1.claims[key], c);
    assert s.history + {a} + {b} == s.history + {open, attach};
    RunFields(u, b.via, key, c, l, s1.nextEpoch, attach.downlink.value);
    hide StartRunning, RunningClaim;
  }

  lemma RunFields(s: Registry, kind: FlowKind, key: FlowKey, c: FlowClaim, l: FlowLease, nextEpoch: nat, d: Stream)
    ensures StartRunning(s, kind, key, c, l, nextEpoch, d)
         == s.(tcp := if kind.Tcp? then s.tcp - {key} else s.tcp, udp := if kind.Udp? then s.udp - {key} else s.udp,
               claims := s.claims[key := c], leases := s.leases[c.epoch := l], nextEpoch := nextEpoch,
               handed := s.handed + {d})
  {
  }

  lemma OneOrder(
    limits: Limits, s: Registry, a: Submission, b: Submission, first: int, second: int, h1: FlowKey, h2: FlowKey)
    requires MatchingHalves(limits, s, a, b, first) || MatchingHalves(limits, s, b, a, first)
    ensures var open, attach := if a.header.role.Open? then a else b, if a.header.role.Open? then b else a;
            && attach.downlink.Some? && Whole(BothHalves(s, open, attach))
            && Submit(limits, Submit(limits, s, a, first, h1).0, b, second, h2)
               == (PairedState(s, open, attach, first, second), Paired(FlowOf(open.Key(), BothHalves(s, open, attach))))
  {
    var open, attach := if a.header.role.Open? then a else b, if a.header.role.Open? then b else a;
    FirstWaits(limits, s, a, first, h1);
    FirstIsReady(limits, s, a, b, first, second);
    JoinedEither(s, open, attach);
    RunFromWaiting(limits, s, a, b, first, second);
    hide Submit, Admissible, Splittable, Completing, StartWaiting, StartRunning, Joined, FirstHalf, Primed;
    hide RunningClaim, BothHalves, PairedState, FlowOf, Live, Inactive;
    var s1 := Submit(limits, s, a, first, h1).0;
    var q := FirstHalf(a, Needs(s, a), Current(s.links, a.session), s.nextEpoch + 1);
    SecondPairs(limits, s1, b, second, h2, q);
  }

  /** Arrival order does not matter: with nothing in between, OPEN then ATTACH and ATTACH then OPEN hand out
      the same flow and leave the same registry, for TCP and for UDP. */
  lemma ArrivalOrderDoesNotMatter(
    limits: Limits, s: Registry, open: Submission, attach: Submission, first: int, second: int, h1: FlowKey,
    h2: FlowKey)
    requires MatchingHalves(limits, s, open, attach, first)
    ensures var one := Submit(limits, Submit(limits, s, open, first, h1).0, attach, second, h2);
            var other := Submit(limits, Submit(limits, s, attach, first, h1).0, open, second, h2);
            one == other && one.1.Paired?
  {
    hide Submit, PairedState, BothHalves, Admissible, Inactive;
    OneOrder(limits, s, open, attach, first, second, h1, h2);
    OneOrder(limits, s, attach, open, first, second, h1, h2);
  }

  // ---------------------------------------------------------------------------------------------
  // Tombstones reach the downlink.

  /** A tombstone answers the ATTACH that comes in time, with the code of the failed OPEN, and is used up. */
  lemma LateAttachLearnsTheCode(limits: Limits, s: Registry, attach: Submission, now: int, hint: FlowKey)
    requires Inv(limits, s) && attach.header.role.Attach? && Splittable(s, attach) && Invalid(s, attach).None?
    requires attach.Key() in Live(s.rejections, now)
    ensures var (t, outcome) := Submit(limits, s, attach, now, hint);
            var code := s.rejections[attach.Key()].code;
            && outcome == Outcome.Rejected(code)
            && t.answers == s.answers + [Answer(attach.downlink.value, code)]
            && t.rejections == Live(s.rejections, now) - {attach.Key()}
            && t.tcp == s.tcp && t.udp == s.udp && t.claims == s.claims
  {
    var key := attach.Key();
    var s0 := s.(history := s.history + {attach});
    BooksHold(limits, s, None);
    assert key !in s.claims by {
      hide EntriesOk, ClaimsOk, LeasesOk, DistinctClaims, QuotaOk;
    }
    HalfOpenInactive(limits, s, key);
    hide Within, Books, Live;
    InvalidFrame(s, s0, attach);
    StaleFree(s0, attach.via, key);
    hide ClearStale;
    var (s2, rejection) := TerminalRejection(s0, key, true, now);
    assert Install(limits, s0, attach, None, now) == Fails(s2, rejection.value, attach.downlink, false, None);
    hide Install, Invalid;
    assert Prepare(limits, s, attach, now) == Fails(s2, rejection.value, attach.downlink, false, None);
  }
}
