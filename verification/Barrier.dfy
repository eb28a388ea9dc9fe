/** The generation barrier, with the calls of the registry split into the sections that can interleave:
    installing a pair, activating it, taking a QUIC generation, swapping it in, cancelling the flows of the
    displaced one, and purging. Any number of calls may be between two of their steps at once. */
module Barrier {
  import opened Wrappers
  import opened Flow
  import opened Links
  import opened Pairing
  import opened PairingFrames
  import opened PairingRuns

  /** `inFlight` are pairs installed and not activated yet, `taken` generations not swapped in yet, `owed` the
      cancel passes still to run, `passed` the ones that ran. */
  datatype Split = Split(
    reg: Registry,
    inFlight: multiset<Completed>,
    taken: set<nat>,
    owed: multiset<(SessionId, nat)>,
    passed: set<(SessionId, nat)>)

  const START := Split(INITIAL, multiset{}, {}, multiset{}, {})

  datatype SplitStep =
    | Installs(sub: Submission, now: int, hint: FlowKey)
    | Activates(done: Completed)
    | Takes
    | Swaps(session: SessionId, generation: nat)
    | DropsGuard(session: SessionId, generation: nat)
    | Cancels(session: SessionId, generation: nat)
    | Calls(event: Event)

  ghost predicate CanStep(z: Split, step: SplitStep) {
    match step
    case Installs(_, _, _) => true
    case Activates(d) => d in z.inFlight
    case Takes => true
    case Swaps(_, g) => g in z.taken
    case DropsGuard(x, g) => g in z.reg.links.quicGuards && z.reg.links.quicGuards[g] == x
    case Cancels(x, g) => (x, g) in z.owed
    case Calls(_) => true
  }

  /** The calls that are one section already: everything but submitting and changing QUIC carriers. */
  predicate Whole(e: Event) {
    !e.Submits? && !e.RegistersQuic? && !e.DropsQuicGuard?
  }

  ghost function Do(limits: Limits, z: Split, step: SplitStep): Split {
    match step
    case Installs(sub, now, hint) =>
      (match Prepare(limits, z.reg, sub, now)
       case Completes(s, d) => z.(reg := s, inFlight := z.inFlight + multiset{d})
       case Waits(_, _) => z.(reg := Submit(limits, z.reg, sub, now, hint).0)
       case Fails(_, _, _, _, _) => z.(reg := Submit(limits, z.reg, sub, now, hint).0))
    case Activates(d) => z.(reg := Finish(z.reg, d).0, inFlight := z.inFlight - multiset{d})
    case Takes =>
      z.(reg := z.reg.(links := TakeGeneration(z.reg.links)), taken := z.taken + {z.reg.links.nextGeneration})
    case Swaps(x, g) =>
      var (links, previous) := SwapIn(z.reg.links, x, limits.maxUdpFlows, g);
      z.(reg := z.reg.(links := links), taken := z.taken - {g},
         owed := if previous.Some? then z.owed + multiset{(x, previous.value)} else z.owed)
    case DropsGuard(x, g) =>
      z.(reg := z.reg.(links := DropQuicLink(z.reg.links, x, g)), owed := z.owed + multiset{(x, g)})
    case Cancels(x, g) =>
      z.(reg := CancelPass(z.reg, x, g), owed := z.owed - multiset{(x, g)}, passed := z.passed + {(x, g)})
    case Calls(e) => if Whole(e) then z.(reg := Step(limits, z.reg, e)) else z
  }

  // ---------------------------------------------------------------------------------------------
  // The barrier.

  /** A running flow that nothing has told to stop. */
  predicate Runs(s: Registry, k: FlowKey) {
    k in s.claims && s.claims[k].active && s.claims[k].token !in s.cancelled
  }

  predicate Owns(s: Registry, k: FlowKey, g: nat) {
    k in s.claims && g in s.claims[k].generations
  }

  ghost predicate GenerationsOk(l: LinkTable) {
    && (forall x :: Current(l, x).Some? ==> Current(l, x).value < l.nextGeneration)
    && (forall g :: g in l.quicGuards ==> g < l.nextGeneration)
  }

  /** Generations with a cancel pass, outstanding or done, never are current again. */
  ghost predicate Displaced(l: LinkTable, owed: multiset<(SessionId, nat)>, passed: set<(SessionId, nat)>) {
    forall x, g :: (x, g) in owed || (x, g) in passed ==> g < l.nextGeneration && Current(l, x) != Some(g)
  }

  /** A generation that waits to be swapped in has never been current. */
  ghost predicate Unused(
    l: LinkTable, taken: set<nat>, owed: multiset<(SessionId, nat)>, passed: set<(SessionId, nat)>)
  {
    forall g :: g in taken ==>
      && g < l.nextGeneration && g !in l.quicGuards
      && forall x: SessionId :: Current(l, x) != Some(g) && (x, g) !in owed && (x, g) !in passed
  }

  /** What a running flow owns is current or about to be cancelled. */
  ghost predicate Guarded(s: Registry, owed: multiset<(SessionId, nat)>) {
    forall k, g: nat :: Runs(s, k) && Owns(s, k, g) ==> Current(s.links, k.session) == Some(g) || (k.session, g) in owed
  }

  /** Once a cancel pass has run, no running flow owns its generation. */
  ghost predicate Cleared(s: Registry, passed: set<(SessionId, nat)>) {
    forall k, g: nat :: Runs(s, k) && Owns(s, k, g) ==> (k.session, g) !in passed
  }

  ghost predicate Barred(z: Split) {
    && TokensOk(z.reg.claims, z.reg.nextEpoch)
    && GenerationsOk(z.reg.links)
    && Displaced(z.reg.links, z.owed, z.passed)
    && Unused(z.reg.links, z.taken, z.owed, z.passed)
    && Guarded(z.reg, z.owed)
    && Cleared(z.reg, z.passed)
  }

  ghost predicate SameGenerations(l: LinkTable, r: LinkTable) {
    && (forall x :: Current(l, x) == Current(r, x))
    && l.quicGuards == r.quicGuards && l.nextGeneration == r.nextGeneration
  }

  /** No flow starts, none is told to go on, and the generations stay. */
  ghost predicate Mild(s: Registry, t: Registry) {
    && RunningKept(s.claims, t.claims)
    && (TokensOk(s.claims, s.nextEpoch) ==> TokensOk(t.claims, t.nextEpoch))
    && s.cancelled <= t.cancelled
    && SameGenerations(s.links, t.links)
  }

  lemma TameIsMild(s: Registry, t: Registry)
    requires Tame(s, t)
    ensures Mild(s, t)
  {
    hide TokensOk;
    assert s.links.counts == Core(s.links).counts == t.links.counts;
  }

  lemma MildKeeps(z: Split, t: Registry)
    requires Barred(z) && Mild(z.reg, t)
    ensures Barred(z.(reg := t))
  {
    hide TokensOk;
    forall k, g: nat | Runs(t, k) && Owns(t, k, g)
      ensures Runs(z.reg, k) && Owns(z.reg, k, g)
    {
    }
  }

  lemma CloseIsMild(s: Registry, key: FlowKey)
    ensures Mild(s, CancelUdp(s, key))
  {
    var s1 := DropEntry(s, Udp, key);
    TameDropEntry(s, Udp, key);
    hide DropEntry;
    if key in s1.claims && !s1.claims[key].active {
      TameAbandon(s1, key, s1.claims[key].epoch);
      TameThen(s, s1, CancelUdp(s, key));
      TameIsMild(s, CancelUdp(s, key));
    } else {
      TameIsMild(s, s1);
    }
  }

  lemma TcpLinksKeepGenerations(l: LinkTable, x: SessionId, maxUdpFlows: nat)
    ensures SameGenerations(l, RegisterTcpLink(l, x, maxUdpFlows))
    ensures SameGenerations(l, DropTcpLink(l, x))
  {
  }

  lemma LinksAreMild(s: Registry, l: LinkTable)
    requires SameGenerations(s.links, l)
    ensures Mild(s, s.(links := l))
  {
  }

  lemma WholeIsMild(limits: Limits, s: Registry, e: Event)
    requires Whole(e)
    ensures Mild(s, Step(limits, s, e))
  {
    hide Mild, Tame, RejectSetup, Timeout, CancelUdp, DropLease, RejectAll, RegisterTcpLink, DropTcpLink, CancelAll;
    match e
    case RejectsSetup(key, code, now, hint) =>
      TameReject(limits, s, key, code, now, hint);
      TameIsMild(s, Step(limits, s, e));
    case TimerFires(timer, now, hint) =>
      TameTimeout(limits, s, timer, now, hint);
      TameIsMild(s, Step(limits, s, e));
    case ClosesUdp(key) => CloseIsMild(s, key);
    case DropsLease(epoch) =>
      TameDropLease(s, epoch);
      TameIsMild(s, Step(limits, s, e));
    case RegistersTcp(x) =>
      TcpLinksKeepGenerations(s.links, x, limits.maxUdpFlows);
      LinksAreMild(s, RegisterTcpLink(s.links, x, limits.maxUdpFlows));
    case DropsTcpGuard(x) =>
      TcpLinksKeepGenerations(s.links, x, limits.maxUdpFlows);
      LinksAreMild(s, DropTcpLink(s.links, x));
    case Purges(x, g, now, hints) =>
      TameRejectAll(limits, s, Stale(s, x, g), now, hints);
      TameIsMild(s, Step(limits, s, e));
    case CancelsAll => CancelAllIsMild(s);
  }

  lemma CancelAllIsMild(s: Registry)
    ensures Mild(s, CancelAll(s))
  {
    hide Refunded, AllTokens;
    assert forall x :: Current(CancelAll(s).links, x) == Current(s.links, x);
  }

  /** Activation compares generations and makes the claim active in one step, so what it starts is current. */
  lemma ActivatedIsCurrent(s: Registry, d: Completed)
    requires TokensOk(s.claims, s.nextEpoch) && ActivateClaim(s, d.key, d.epoch, d.generations).Activated?
    ensures var t := Finish(s, d).0;
            && TokensOk(t.claims, t.nextEpoch) && t.links == s.links && t.cancelled == s.cancelled
            && (forall k, g: nat :: Runs(t, k) && Owns(t, k, g) ==>
                  Current(t.links, k.session) == Some(g) || (Runs(s, k) && Owns(s, k, g)))
  {
    var t := Finish(s, d).0;
    var c := s.claims[d.key].(epoch := d.epoch, active := true, generations := d.generations);
    assert t.claims == s.claims[d.key := c] && t.nextEpoch == s.nextEpoch;
    assert forall g :: g in d.generations ==> Current(s.links, d.key.session) == Some(g);
    hide Finish, ActivateClaim, Current;
  }

  lemma ActivationKeeps(z: Split, d: Completed)
    requires Barred(z)
    ensures Barred(z.(reg := Finish(z.reg, d).0))
  {
    var t := Finish(z.reg, d).0;
    hide Finish, TokensOk;
    if ActivateClaim(z.reg, d.key, d.epoch, d.generations).Refused? {
      TameRefusal(z.reg, d);
      TameIsMild(z.reg, t);
      MildKeeps(z, t);
    } else {
      ActivatedIsCurrent(z.reg, d);
      hide ActivateClaim, Runs, Owns;
    }
  }

  /** New links that displace a generation only with its cancel pass owed. */
  lemma NewLinksKeep(z: Split, links: LinkTable, taken: set<nat>, owed: multiset<(SessionId, nat)>)
    requires Barred(z) && GenerationsOk(links) && Displaced(links, owed, z.passed)
             && Unused(links, taken, owed, z.passed)
    requires forall k :: k in z.owed ==> k in owed
    requires forall y: SessionId :: Current(z.reg.links, y).Some? && Current(links, y) != Current(z.reg.links, y) ==>
               (y, Current(z.reg.links, y).value) in owed
    ensures Barred(z.(reg := z.reg.(links := links), taken := taken, owed := owed))
  {
    hide TokensOk, GenerationsOk, Displaced, Unused, Current;
    var t := z.reg.(links := links);
    assert forall k, g: nat :: Runs(t, k) && Owns(t, k, g) ==> Runs(z.reg, k) && Owns(z.reg, k, g);
    hide Runs, Owns;
  }

  lemma TakeKeeps(z: Split)
    requires Barred(z)
    ensures Barred(z.(reg := z.reg.(links := TakeGeneration(z.reg.links)),
                      taken := z.taken + {z.reg.links.nextGeneration}))
  {
    var l, r := z.reg.links, TakeGeneration(z.reg.links);
    assert forall y: SessionId :: Current(r, y) == Current(l, y);
    hide TokensOk, Guarded, Cleared, Current;
    NewLinksKeep(z, r, z.taken + {l.nextGeneration}, z.owed);
  }

  lemma SwapCurrent(l: LinkTable, x: SessionId, maxUdpFlows: nat, g: nat)
    ensures var (r, previous) := SwapIn(l, x, maxUdpFlows, g);
            && previous == Current(l, x) && r.nextGeneration == l.nextGeneration
            && (forall y :: Current(r, y) == if y == x then Some(g) else Current(l, y))
            && r.quicGuards == l.quicGuards[g := x]
  {
  }

  lemma SwapKeeps(z: Split, x: SessionId, maxUdpFlows: nat, g: nat)
    requires Barred(z) && g in z.taken
    ensures var (links, previous) := SwapIn(z.reg.links, x, maxUdpFlows, g);
            Barred(z.(reg := z.reg.(links := links), taken := z.taken - {g},
                      owed := if previous.Some? then z.owed + multiset{(x, previous.value)} else z.owed))
  {
    var (links, previous) := SwapIn(z.reg.links, x, maxUdpFlows, g);
    SwapCurrent(z.reg.links, x, maxUdpFlows, g);
    hide TokensOk, Guarded, Cleared, SwapIn, Current;
    NewLinksKeep(z, links, z.taken - {g}, if previous.Some? then z.owed + multiset{(x, previous.value)} else z.owed);
  }

  lemma DropCurrent(l: LinkTable, x: SessionId, g: nat)
    ensures var r := DropQuicLink(l, x, g);
            && r.nextGeneration == l.nextGeneration && r.quicGuards == l.quicGuards - {g}
            && (forall y :: Current(r, y) == if Current(l, y) == Some(g) && y == x then None else Current(l, y))
  {
  }

  lemma GuardDropKeeps(z: Split, x: SessionId, g: nat)
    requires Barred(z) && g in z.reg.links.quicGuards
    ensures Barred(z.(reg := z.reg.(links := DropQuicLink(z.reg.links, x, g)), owed := z.owed + multiset{(x, g)}))
  {
    DropCurrent(z.reg.links, x, g);
    hide TokensOk, Guarded, Cleared, DropQuicLink, Current;
    NewLinksKeep(z, DropQuicLink(z.reg.links, x, g), z.taken, z.owed + multiset{(x, g)});
  }

  lemma PassKeeps(z: Split, x: SessionId, g: nat)
    requires Barred(z) && (x, g) in z.owed
    ensures Barred(z.(reg := CancelPass(z.reg, x, g), owed := z.owed - multiset{(x, g)}, passed := z.passed + {(x, g)}))
  {
    hide TokensOk;
    var t := CancelPass(z.reg, x, g);
    forall k, h: nat | Runs(t, k) && Owns(t, k, h)
      ensures Runs(z.reg, k) && Owns(z.reg, k, h) && (k.session, h) != (x, g)
    {
      assert !OwnedBy(k, z.reg.claims[k], x, g);
    }
  }

  lemma StepBarred(limits: Limits, z: Split, step: SplitStep)
    requires Barred(z) && CanStep(z, step)
    ensures Barred(Do(limits, z, step)) && z.passed <= Do(limits, z, step).passed
  {
    hide Barred, Tame, Mild, Prepare, Submit, Finish, SwapIn, DropQuicLink, CancelPass, Step;
    match step
    case Installs(sub, now, hint) =>
      if Prepare(limits, z.reg, sub, now).Completes? {
        TamePrepare(limits, z.reg, sub, now);
      } else {
        TameSubmit(limits, z.reg, sub, now, hint);
      }
      var z0 := z.(reg := z.reg.(history := z.reg.history + {sub}));
      var t := Do(limits, z, step);
      RecordsAside(z, z0.reg.history, z.inFlight);
      TameIsMild(z0.reg, t.reg);
      MildKeeps(z0, t.reg);
      RecordsAside(z0.(reg := t.reg), t.reg.history, t.inFlight);
    case Activates(d) =>
      ActivationKeeps(z, d);
      RecordsAside(z.(reg := Finish(z.reg, d).0), Finish(z.reg, d).0.history, z.inFlight - multiset{d});
    case Takes => TakeKeeps(z);
    case Swaps(x, g) => SwapKeeps(z, x, limits.maxUdpFlows, g);
    case DropsGuard(x, g) => GuardDropKeeps(z, x, g);
    case Cancels(x, g) => PassKeeps(z, x, g);
    case Calls(e) =>
      if Whole(e) {
        WholeIsMild(limits, z.reg, e);
        MildKeeps(z, Step(limits, z.reg, e));
      }
  }

  lemma RecordsAside(z: Split, history: set<Submission>, inFlight: multiset<Completed>)
    requires Barred(z)
    ensures Barred(z.(reg := z.reg.(history := history), inFlight := inFlight))
  {
    hide TokensOk, GenerationsOk, Displaced, Unused;
  }

  // ---------------------------------------------------------------------------------------------
  // Runs of the split registry.

  ghost function DoAll(limits: Limits, z: Split, steps: seq<SplitStep>): Split
    decreases |steps|
  {
    if steps == [] then z else DoAll(limits, Do(limits, z, steps[0]), steps[1..])
  }

  ghost predicate CanDoAll(limits: Limits, z: Split, steps: seq<SplitStep>)
    decreases |steps|
  {
    steps == [] || (CanStep(z, steps[0]) && CanDoAll(limits, Do(limits, z, steps[0]), steps[1..]))
  }

  lemma {:induction false} AllBarred(limits: Limits, z: Split, steps: seq<SplitStep>)
    requires Barred(z) && CanDoAll(limits, z, steps)
    ensures Barred(DoAll(limits, z, steps)) && z.passed <= DoAll(limits, z, steps).passed
    decreases |steps|
  {
    hide Barred, Do, CanStep;
    if steps != [] {
      StepBarred(limits, z, steps[0]);
      AllBarred(limits, Do(limits, z, steps[0]), steps[1..]);
    }
  }

  /** The generation barrier: however the sections of any number of calls interleave, a running flow owns
      only generations that are current or whose cancel pass is outstanding, and none whose pass has run. */
  lemma GenerationBarrier(limits: Limits, steps: seq<SplitStep>)
    requires CanDoAll(limits, START, steps)
    ensures var z := DoAll(limits, START, steps);
            && Guarded(z.reg, z.owed)
            && Cleared(z.reg, z.passed)
            && Displaced(z.reg.links, z.owed, z.passed)
  {
    AllBarred(limits, START, steps);
  }

  /** A pass stays done: nothing that follows lets a running flow own that generation again. */
  lemma PassedForGood(limits: Limits, steps: seq<SplitStep>, more: seq<SplitStep>, x: SessionId, g: nat, k: FlowKey)
    requires CanDoAll(limits, START, steps)
    requires (x, g) in DoAll(limits, START, steps).passed
    requires CanDoAll(limits, DoAll(limits, START, steps), more)
    requires k.session == x
    ensures var s := DoAll(limits, DoAll(limits, START, steps), more).reg;
            Runs(s, k) ==> !Owns(s, k, g)
  {
    AllBarred(limits, START, steps);
    AllBarred(limits, DoAll(limits, START, steps), more);
  }

  lemma WholeStops(limits: Limits, s: Registry, e: Event)
    requires Whole(e)
    ensures e != CancelsAll && !e.ClosesUdp? ==> Step(limits, s, e).cancelled == s.cancelled
    ensures e.ClosesUdp? ==> Step(limits, s, e).cancelled
                             <= s.cancelled + (if e.key in s.claims then {s.claims[e.key].token} else {})
  {
    hide RejectSetup, Timeout, DropEntry, DropLease, RejectAll, RegisterTcpLink, DropTcpLink, CancelAll;
    match e
    case RejectsSetup(key, code, now, hint) => TameReject(limits, s, key, code, now, hint);
    case TimerFires(timer, now, hint) => TameTimeout(limits, s, timer, now, hint);
    case ClosesUdp(key) => TameDropEntry(s, Udp, key);
    case DropsLease(epoch) => TameDropLease(s, epoch);
    case RegistersTcp(x) =>
    case DropsTcpGuard(x) =>
    case Purges(x, g, now, hints) => TameRejectAll(limits, s, Stale(s, x, g), now, hints);
    case CancelsAll =>
  }

  /** Only its own CLOSE, the cancel pass of a generation it owns or shutdown stop a running flow: a late
      guard drop for g never cancels a flow built on other carriers. */
  lemma OnlyOwnersAreStopped(limits: Limits, z: Split, step: SplitStep, k: FlowKey)
    requires Barred(z) && CanStep(z, step)
    requires Runs(z.reg, k) && z.reg.claims[k].token in Do(limits, z, step).reg.cancelled
    ensures || step == Calls(CancelsAll)
            || step == Calls(ClosesUdp(k))
            || (step.Cancels? && step.session == k.session && Owns(z.reg, k, step.generation))
  {
    hide Prepare, Submit, Finish, SwapIn, DropQuicLink, Step, Unused, GenerationsOk, Displaced, Guarded, Cleared;
    match step
    case Installs(sub, now, hint) =>
      if Prepare(limits, z.reg, sub, now).Completes? {
        TamePrepare(limits, z.reg, sub, now);
      } else {
        TameSubmit(limits, z.reg, sub, now, hint);
      }
    case Activates(d) =>
      if ActivateClaim(z.reg, d.key, d.epoch, d.generations).Refused? {
        TameRefusal(z.reg, d);
      } else {
        ActivatedIsCurrent(z.reg, d);
      }
    case Takes =>
    case Swaps(_, _) =>
    case DropsGuard(_, _) =>
    case Cancels(x, g) =>
    case Calls(e) =>
      if Whole(e) {
        WholeStops(limits, z.reg, e);
      }
  }

  // ---------------------------------------------------------------------------------------------
  // Whole calls are runs of sections.

  /** The sections one call goes through when nothing comes between them. */
  ghost function Sections(limits: Limits, s: Registry, e: Event): seq<SplitStep> {
    match e
    case Submits(sub, now, hint) =>
      var p := Prepare(limits, s, sub, now);
      [Installs(sub, now, hint)] + (if p.Completes? then [Activates(p.done)] else [])
    case RegistersQuic(x, now, hints) =>
      var previous := Current(s.links, x);
      [Takes, Swaps(x, s.links.nextGeneration)]
        + (if previous.Some? then [Cancels(x, previous.value), Calls(Purges(x, previous.value, now, hints))] else [])
    case DropsQuicGuard(x, g) => [DropsGuard(x, g), Cancels(x, g)]
    case _ => [Calls(e)]
  }

  /** Every call is its sections in a row, and leaves no pair in flight and no cancel pass owed. */
  lemma CallIsItsSections(limits: Limits, z: Split, e: Event)
    requires Enabled(z.reg, e)
    ensures var t := DoAll(limits, z, Sections(limits, z.reg, e));
            && CanDoAll(limits, z, Sections(limits, z.reg, e))
            && t.reg == Step(limits, z.reg, e) && t.inFlight == z.inFlight && t.owed == z.owed
  {
    match e
    case Submits(sub, now, hint) => SubmitSections(limits, z, sub, now, hint);
    case RegistersQuic(x, now, hints) => RegisterSections(limits, z, x, now, hints);
    case DropsQuicGuard(x, g) => DropSections(limits, z, x, g);
    case _ =>
      hide Step;
      ThenOne(limits, z, Calls(e));
  }

  lemma DropSections(limits: Limits, z: Split, x: SessionId, g: nat)
    requires g in z.reg.links.quicGuards && z.reg.links.quicGuards[g] == x
    ensures var e := DropsQuicGuard(x, g);
            var t := DoAll(limits, z, Sections(limits, z.reg, e));
            && CanDoAll(limits, z, Sections(limits, z.reg, e))
            && t.reg == Step(limits, z.reg, e) && t.inFlight == z.inFlight && t.owed == z.owed
  {
    hide Finish, Prepare, Submit, SwapQuic, RejectAll, DoAll, CanDoAll;
    ThenTwo(limits, z, DropsGuard(x, g), Cancels(x, g));
  }

  lemma ThenOne(limits: Limits, z: Split, step: SplitStep)
    ensures DoAll(limits, z, [step]) == Do(limits, z, step)
    ensures CanDoAll(limits, z, [step]) == CanStep(z, step)
  {
    hide Do, CanStep;
    assert [step][1..] == [];
  }

  lemma ThenTwo(limits: Limits, z: Split, a: SplitStep, b: SplitStep)
    ensures DoAll(limits, z, [a, b]) == Do(limits, Do(limits, z, a), b)
    ensures CanDoAll(limits, z, [a, b]) == (CanStep(z, a) && CanStep(Do(limits, z, a), b))
  {
    hide Do, CanStep;
    assert [a, b][1..] == [b];
    ThenOne(limits, Do(limits, z, a), b);
  }

  lemma ThenThree(limits: Limits, z: Split, a: SplitStep, b: SplitStep, c: SplitStep)
    ensures DoAll(limits, z, [a, b, c]) == Do(limits, Do(limits, Do(limits, z, a), b), c)
    ensures CanDoAll(limits, z, [a, b, c])
         == (CanStep(z, a) && CanStep(Do(limits, z, a), b) && CanStep(Do(limits, Do(limits, z, a), b), c))
  {
    hide Do, CanStep;
    assert [a, b, c][1..] == [b, c];
    ThenTwo(limits, Do(limits, z, a), b, c);
  }

  lemma SubmitSections(limits: Limits, z: Split, sub: Submission, now: int, hint: FlowKey)
    ensures var e := Submits(sub, now, hint);
            var t := DoAll(limits, z, Sections(limits, z.reg, e));
            && CanDoAll(limits, z, Sections(limits, z.reg, e))
            && t.reg == Submit(limits, z.reg, sub, now, hint).0 && t.inFlight == z.inFlight && t.owed == z.owed
  {
    hide Prepare, Finish, Step;
    var first := Installs(sub, now, hint);
    if Prepare(limits, z.reg, sub, now).Completes? {
      var d := Prepare(limits, z.reg, sub, now).done;
      ThenTwo(limits, z, first, Activates(d));
    } else {
      ThenOne(limits, z, first);
    }
  }

  lemma ThenFour(limits: Limits, z: Split, a: SplitStep, b: SplitStep, c: SplitStep, d: SplitStep)
    ensures DoAll(limits, z, [a, b, c, d]) == Do(limits, Do(limits, Do(limits, Do(limits, z, a), b), c), d)
    ensures CanDoAll(limits, z, [a, b, c, d])
         == (CanStep(z, a) && CanDoAll(limits, Do(limits, z, a), [b, c, d]))
  {
    hide Do, CanStep;
    assert [a, b, c, d][1..] == [b, c, d];
    ThenThree(limits, Do(limits, z, a), b, c, d);
  }

  /** Taking a generation and swapping it in at once. */
  lemma SwapSections(limits: Limits, z: Split, x: SessionId)
    ensures var g, previous := z.reg.links.nextGeneration, Current(z.reg.links, x);
            var z1 := Do(limits, z, Takes);
            var z2 := Do(limits, z1, Swaps(x, g));
            && CanStep(z, Takes) && CanStep(z1, Swaps(x, g))
            && SwapQuic(z.reg.links, x, limits.maxUdpFlows).1 == previous
            && z2.reg == z.reg.(links := SwapQuic(z.reg.links, x, limits.maxUdpFlows).0)
            && z2.inFlight == z.inFlight
            && z2.owed == if previous.Some? then z.owed + multiset{(x, previous.value)} else z.owed
  {
    SwapCurrent(TakeGeneration(z.reg.links), x, limits.maxUdpFlows, z.reg.links.nextGeneration);
    assert Current(TakeGeneration(z.reg.links), x) == Current(z.reg.links, x);
    hide SwapIn, Current, Prepare, Submit, Finish, Step;
  }

  /** A cancel pass and the purge after it. */
  lemma PurgeSections(limits: Limits, z: Split, x: SessionId, g: nat, now: int, hints: seq<Hint>)
    requires (x, g) in z.owed
    ensures var purge := Calls(Purges(x, g, now, hints));
            var z1 := Do(limits, z, Cancels(x, g));
            var z2 := Do(limits, z1, purge);
            && CanStep(z, Cancels(x, g)) && CanStep(z1, purge)
            && z2.reg == Purge(limits, CancelPass(z.reg, x, g), x, g, now, hints)
            && z2.inFlight == z.inFlight && z2.owed == z.owed - multiset{(x, g)}
  {
    hide Submit, Finish, Prepare, SwapIn, Purge, CancelPass;
  }

  lemma RegisterSections(limits: Limits, z: Split, x: SessionId, now: int, hints: seq<Hint>)
    ensures var e := RegistersQuic(x, now, hints);
            var t := DoAll(limits, z, Sections(limits, z.reg, e));
            && CanDoAll(limits, z, Sections(limits, z.reg, e))
            && t.reg == RegisterQuic(limits, z.reg, x, now, hints) && t.inFlight == z.inFlight && t.owed == z.owed
  {
    hide Do, CanStep, DoAll, CanDoAll, SwapQuic, Purge, CancelPass, Current;
    var previous, swap := Current(z.reg.links, x), Swaps(x, z.reg.links.nextGeneration);
    SwapSections(limits, z, x);
    if previous.None? {
      assert [Takes, swap] + [] == [Takes, swap];
      ThenTwo(limits, z, Takes, swap);
    } else {
      var g := previous.value;
      var z2 := Do(limits, Do(limits, z, Takes), swap);
      var purge := Calls(Purges(x, g, now, hints));
      PurgeSections(limits, z2, x, g, now, hints);
      assert [Takes, swap] + [Cancels(x, g), purge] == [Takes, swap, Cancels(x, g), purge];
      ThenFour(limits, z, Takes, swap, Cancels(x, g), purge);
      ThenThree(limits, Do(limits, z, Takes), swap, Cancels(x, g), purge);
    }
  }

  /** Between whole calls nothing is owed, so every running flow owns current generations only. */
  lemma {:induction false} RunningFlowsAreCurrent(limits: Limits, run: seq<Event>) returns (z: Split)
    requires LegalRun(limits, run)
    ensures Barred(z) && z.reg == After(limits, run) && z.owed == multiset{}
    ensures forall k, g: nat :: Runs(After(limits, run), k) && Owns(After(limits, run), k, g) ==>
              Current(After(limits, run).links, k.session) == Some(g)
  {
    hide Do, Step, CanStep, Enabled, Sections;
    if run == [] {
      z := START;
    } else {
      var before := RunningFlowsAreCurrent(limits, run[..|run| - 1]);
      var e := run[|run| - 1];
      CallIsItsSections(limits, before, e);
      AllBarred(limits, before, Sections(limits, before.reg, e));
      z := DoAll(limits, before, Sections(limits, before.reg, e));
    }
  }
}
