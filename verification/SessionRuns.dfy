/** Every run of a session: READY gating, where packets come from, and the byte budget. */
module SessionRuns {
  import opened Wrappers
  import opened Counting
  import opened Datagram
  import opened Reassembly
  import opened ReassemblyRuns
  import opened DatagramSession

  // ---------------------------------------------------------------------------------------------
  // Queues and their units.

  lemma {:induction false} UnitsTail(q: Queue)
    requires q != []
    ensures UnitsOf(q) == q[0].units + UnitsOf(q[1..])
  {
    var n := |q| - 1;
    if n > 0 {
      UnitsTail(q[..n]);
      assert q[..n][1..] == q[1..][..n - 1];
    }
  }

  lemma QueueChange(queues: map<nat, Queue>, i: nat, q: Queue)
    requires i in queues
    ensures Queued(queues[i := q]) + UnitsOf(queues[i]) == Queued(queues) + UnitsOf(q)
  {
    SumRemove(queues, i, QueueUnits());
    SumRemove(queues[i := q], i, QueueUnits());
    assert queues[i := q] - {i} == queues - {i};
  }

  lemma QueueGone(queues: map<nat, Queue>, i: nat)
    requires i in queues
    ensures Queued(queues - {i}) + UnitsOf(queues[i]) == Queued(queues)
  {
    SumRemove(queues, i, QueueUnits());
  }

  lemma QueueNew(queues: map<nat, Queue>, i: nat)
    requires i !in queues
    ensures Queued(queues[i := []]) == Queued(queues)
  {
    SumInsert(queues, i, [], QueueUnits());
  }

  // ---------------------------------------------------------------------------------------------
  // One step of the reassembler.

  lemma OwnedAfter(
    cfg: Config, r: Reassembler, trace: seq<Event>, flows: Flows, ready: set<nat>, acked: map<nat, nat>, e: Event)
    requires Valid(cfg, r) && Valid(cfg, New(cfg.maxBytes)) && r == After(cfg, New(cfg.maxBytes), trace)
    requires SlotsOwned(cfg, r.slots, trace, flows, ready, acked)
    requires e.Pushes? ==>
               e.flow in flows && flows[e.flow] in ready && flows[e.flow] in acked && acked[flows[e.flow]] <= |trace|
    ensures SlotsOwned(cfg, Step(cfg, r, e).slots, trace + [e], flows, ready, acked)
  {
    hide Valid, Opened, Step, After;
    forall k | k in Step(cfg, r, e).slots
      ensures k.flow in flows && flows[k.flow] in ready && flows[k.flow] in acked
              && acked[flows[k.flow]] <= Opened(cfg, trace + [e], k)
    {
      SlotAfter(cfg, r, trace, e, k);
    }
  }

  lemma DoKeeps(cfg: Config, s: Session, e: Event, frame: Option<Frame>, hand: nat, left: nat)
    requires Within(cfg, s, hand) && (e.Pushes? ==> Open(s, e.flow) && frame == Some(Piece(e.flow, e.f)))
    requires Valid(cfg, s.reassembler) && Conserved(cfg, Step(cfg, s.reassembler, e), s.queues, left)
    ensures Within(cfg, Do(cfg, s, e, frame), left)
  {
    hide Valid, SlotsOwned, QueuesOk, Conserved, Step, After;
    OwnedAfter(cfg, s.reassembler, s.trace, s.flows, s.ready, s.acked, e);
    TracedLonger(cfg, s.reassembler, s.trace, s.log, e, frame);
    QueuesLonger(s.queues, s.trace, s.log, s.flowOf, s.written, s.acked, e, frame);
    hide Traced;
  }

  /** The budget changes by other hands. */
  lemma BudgetKeeps(cfg: Config, s: Session, free: nat, frame: Option<Frame>, hand: nat, left: nat)
    requires Within(cfg, s, hand) && free + left == s.reassembler.free + hand
    ensures Valid(cfg, s.reassembler) && Within(cfg, Do(cfg, s, Budgets(free), frame), left)
  {
    TracedValid(cfg, s.reassembler, s.trace, s.log);
    assert Step(cfg, s.reassembler, Budgets(free)) == s.reassembler.(free := free);
    assert Conserved(cfg, s.reassembler, s.queues, hand);
    hide Valid, Within, Total, Queued, Step;
    DoKeeps(cfg, s, Budgets(free), frame, hand, left);
  }

  /** A change of the budget alone. */
  lemma BudgetDone(cfg: Config, s: Session, free: nat, frame: Option<Frame>)
    requires Valid(cfg, s.reassembler)
    ensures Do(cfg, s, Budgets(free), frame)
         == s.(reassembler := s.reassembler.(free := free), trace := s.trace + [Budgets(free)], log := s.log + [frame])
  {
    hide Valid;
  }

  // ---------------------------------------------------------------------------------------------
  // Each action.

  lemma InstallKeeps(cfg: Config, s: Session, flow: nat)
    requires Inv(cfg, s)
    ensures Inv(cfg, Install(s, flow))
  {
    hide Valid, Traced, QueuesOk, Queued, Total, Instances, Opened;
    if !s.closed && flow !in s.flows {
      var i := |s.flowOf|;
      var t := Install(s, flow);
      NewInstance(s.flows, s.flowOf, s.queues.Keys, flow);
      UpdateKeys(s.queues, i, []);
      QueueNew(s.queues, i);
      QueuesGrow(s.queues, s.trace, s.log, s.flowOf, s.written, s.acked, t.flowOf, s.written, s.acked);
      EmptyQueue(s.queues, s.trace, s.log, t.flowOf, s.written, s.acked, i);
    }
  }

  lemma NewInstance(flows: Flows, flowOf: map<nat, nat>, receivers: set<nat>, flow: nat)
    requires Instances(flows, flowOf, receivers, false) && flow !in flows
    ensures var i := |flowOf|;
            && i !in flowOf && i !in receivers
            && Instances(flows[flow := i], flowOf[i := flow], receivers + {i}, false)
  {
    var i := |flowOf|;
    MapSize(flowOf, i, flow);
    MinusAbsent(flowOf, i);
  }

  lemma FreshInstance(cfg: Config, s: Session)
    requires Inv(cfg, s)
    ensures |s.flowOf| !in s.flowOf
  {
    hide Traced, Conserved, QueuesOk, SlotsOwned, Ordered;
  }

  lemma BudgetAside(cfg: Config, r: Reassembler, free: nat)
    requires Valid(cfg, r)
    ensures Valid(cfg, r.(free := free))
  {
  }

  lemma EmptyQueue(
    queues: map<nat, Queue>, trace: seq<Event>, log: seq<Option<Frame>>, flowOf: map<nat, nat>, written: set<nat>,
    acked: map<nat, nat>, i: nat)
    requires QueuesOk(queues, trace, log, flowOf, written, acked)
    ensures QueuesOk(queues[i := []], trace, log, flowOf, written, acked)
  {
    hide PacketOk;
  }

  lemma RemoveStep(cfg: Config, r: Reassembler, flow: nat)
    requires Valid(cfg, r)
    ensures Step(cfg, r, RemovesFlow(flow)) == RemoveFlow(r, flow)
    ensures forall k :: k in RemoveFlow(r, flow).slots ==> k.flow != flow
    ensures RemoveFlow(r, flow).free + Total(RemoveFlow(r, flow).slots) == r.free + Total(r.slots)
  {
    RemoveFlowKeeps(cfg, r, flow);
    hide Valid, Total;
  }

  lemma RemoveOwned(
    cfg: Config, r: Reassembler, trace: seq<Event>, flows: Flows, flowOf: map<nat, nat>, receivers: set<nat>,
    closed: bool, ready: set<nat>, acked: map<nat, nat>, flow: nat)
    requires Valid(cfg, r) && Valid(cfg, New(cfg.maxBytes)) && r == After(cfg, New(cfg.maxBytes), trace)
    requires SlotsOwned(cfg, r.slots, trace, flows, ready, acked) && Instances(flows, flowOf, receivers, closed)
    ensures SlotsOwned(cfg, RemoveFlow(r, flow).slots, trace + [RemovesFlow(flow)], flows - {flow},
                       if flow in flows then ready - {flows[flow]} else ready, acked)
  {
    hide Valid, Opened, Step, After, RemoveFlow, Total;
    RemoveStep(cfg, r, flow);
    OwnedAfter(cfg, r, trace, flows, ready, acked, RemovesFlow(flow));
  }

  lemma RemoveMarks(s: Session, flow: nat)
    requires Instances(s.flows, s.flowOf, s.queues.Keys, s.closed)
    requires Ordered(s.ready, s.written, s.acked, s.flowOf, |s.trace|)
    ensures Instances(s.flows - {flow}, s.flowOf, s.queues.Keys, s.closed)
    ensures Ordered(s.ready, s.written, s.acked, s.flowOf, |s.trace| + 1)
    ensures flow in s.flows ==> Ordered(s.ready - {s.flows[flow]}, s.written, s.acked, s.flowOf, |s.trace| + 1)
  {
  }

  lemma RemoveKeeps(cfg: Config, s: Session, flow: nat)
    requires Inv(cfg, s)
    ensures Valid(cfg, s.reassembler) && Inv(cfg, Remove(cfg, s, flow))
  {
    hide Valid, SlotsOwned, QueuesOk, Total, Queued, RemoveFlow, Step, After;
    TracedValid(cfg, s.reassembler, s.trace, s.log);
    var e := RemovesFlow(flow);
    RemoveStep(cfg, s.reassembler, flow);
    RemoveOwned(cfg, s.reassembler, s.trace, s.flows, s.flowOf, s.queues.Keys, s.closed, s.ready, s.acked, flow);
    TracedLonger(cfg, s.reassembler, s.trace, s.log, e, None);
    hide Traced, Instances, Ordered;
    QueuesLonger(s.queues, s.trace, s.log, s.flowOf, s.written, s.acked, e, None);
    RemoveMarks(s, flow);
  }

  lemma CloseStep(cfg: Config, r: Reassembler, trace: seq<Event>, ready: set<nat>, acked: map<nat, nat>)
    requires Valid(cfg, r)
    ensures var t := Step(cfg, r, Clears);
            t.free + Total(t.slots) == r.free + Total(r.slots)
              && SlotsOwned(cfg, t.slots, trace + [Clears], map[], ready, acked)
  {
    ClearKeeps(cfg, r);
  }

  lemma CloseKeeps(cfg: Config, s: Session)
    requires Inv(cfg, s)
    ensures Valid(cfg, s.reassembler) && Inv(cfg, CloseAll(cfg, s))
  {
    hide Valid, SlotsOwned, QueuesOk, Total, Queued, Step, After, Clear;
    TracedValid(cfg, s.reassembler, s.trace, s.log);
    if !s.closed {
      TracedLonger(cfg, s.reassembler, s.trace, s.log, Clears, None);
      QueuesLonger(s.queues, s.trace, s.log, s.flowOf, s.written, s.acked, Clears, None);
      CloseStep(cfg, s.reassembler, s.trace, s.ready - s.flows.Values, s.acked);
      hide Traced;
    }
  }

  lemma MarkKeeps(cfg: Config, s: Session, a: Action)
    requires Inv(cfg, s) && Enabled(s, a) && (a.Acknowledges? || a.WritesReady? || a.Activates?)
    ensures Valid(cfg, s.reassembler) && Inv(cfg, Act(cfg, s, a))
  {
    hide Valid, Traced, QueuesOk, Conserved, Opened, Instances;
    TracedValid(cfg, s.reassembler, s.trace, s.log);
    var t := Act(cfg, s, a);
    match a
    case Acknowledges(i) =>
      QueuesGrow(s.queues, s.trace, s.log, s.flowOf, s.written, s.acked, s.flowOf, t.written, t.acked);
    case WritesReady(i) =>
      QueuesGrow(s.queues, s.trace, s.log, s.flowOf, s.written, s.acked, s.flowOf, t.written, t.acked);
    case Activates(i) =>
  }

  lemma AppendQueue(
    queues: map<nat, Queue>, trace: seq<Event>, log: seq<Option<Frame>>, flowOf: map<nat, nat>, written: set<nat>,
    acked: map<nat, nat>, i: nat, p: Packet)
    requires QueuesOk(queues, trace, log, flowOf, written, acked) && i in queues && |queues[i]| < QUEUE_SLOTS
    requires PacketOk(trace, log, flowOf, written, acked, i, p)
    ensures QueuesOk(queues[i := queues[i] + [p]], trace, log, flowOf, written, acked)
    ensures Queued(queues[i := queues[i] + [p]]) == Queued(queues) + p.units
  {
    hide PacketOk;
    var q := queues[i] + [p];
    assert q[..|q| - 1] == queues[i];
    assert QueueOk(queues[i], trace, log, flowOf, written, acked, i);
    QueueChange(queues, i, q);
  }

  lemma EnqueueKeeps(cfg: Config, s: Session, i: nat, p: Packet)
    requires Within(cfg, s, p.units) && PacketOk(s.trace, s.log, s.flowOf, s.written, s.acked, i, p)
    ensures Valid(cfg, s.reassembler) && Inv(cfg, Enqueue(cfg, s, i, p))
  {
    hide Valid, Traced, SlotsOwned, QueuesOk, Total, Queued, PacketOk, Instances, Ordered, Do;
    TracedValid(cfg, s.reassembler, s.trace, s.log);
    if i in s.queues && |s.queues[i]| < QUEUE_SLOTS {
      AppendQueue(s.queues, s.trace, s.log, s.flowOf, s.written, s.acked, i, p);
      UpdateKeys(s.queues, i, s.queues[i] + [p]);
    } else {
      BudgetKeeps(cfg, s, s.reassembler.free + p.units, None, p.units, 0);
    }
  }

  lemma WholeFrame(trace: seq<Event>, log: seq<Option<Frame>>, flow: nat, p: Packet)
    requires p.since == |log|
    ensures Genuine(trace, log + [Some(Data(flow, p.payload))], flow, p)
  {
  }

  lemma DataKeeps(cfg: Config, s: Session, flow: nat, payload: Bytes)
    requires Inv(cfg, s)
    ensures Valid(cfg, s.reassembler) && Inv(cfg, HandleData(cfg, s, flow, payload))
  {
    hide Valid, SlotsOwned, QueuesOk, Conserved, Step, After, Enqueue;
    TracedValid(cfg, s.reassembler, s.trace, s.log);
    var free, units := s.reassembler.free, Units(|payload|);
    var frame := Some(Data(flow, payload));
    if Open(s, flow) && units <= free {
      BudgetKeeps(cfg, s, free - units, frame, 0, units);
      var s1 := Do(cfg, s, Budgets(free - units), frame);
      var p := Packet(payload, units, |s.trace|);
      WholeFrame(s.trace + [Budgets(free - units)], s.log, flow, p);
      hide Traced, Genuine;
      EnqueueKeeps(cfg, s1, s.flows[flow], p);
    } else {
      BudgetKeeps(cfg, s, free, frame, 0, 0);
    }
  }

  lemma CompletedPacket(
    cfg: Config, r: Reassembler, trace: seq<Event>, log: seq<Option<Frame>>, flows: Flows, flowOf: map<nat, nat>,
    ready: set<nat>, written: set<nat>, acked: map<nat, nat>, e: Event, k: SlotKey)
    requires Valid(cfg, r) && Valid(cfg, New(cfg.maxBytes)) && r == After(cfg, New(cfg.maxBytes), trace)
    requires SlotsOwned(cfg, r.slots, trace, flows, ready, acked) && Ordered(ready, written, acked, flowOf, |trace|)
    requires forall f :: f in flows ==> flows[f] in flowOf && flowOf[flows[f]] == f
    requires e.For(k) && Push(cfg, r, e.flow, e.f, e.now, e.hint).1.Complete?
    ensures var o := Push(cfg, r, e.flow, e.f, e.now, e.hint).1;
            && k.flow in flows
            && PacketOk(trace + [e], log, flowOf, written, acked, flows[k.flow],
                        Packet(o.payload, o.reservation, Opened(cfg, trace, k)))
  {
    PushKeeps(cfg, r, e.flow, e.f, e.now, e.hint);
    CompletesFrom(cfg, r, e, k);
    var o := Push(cfg, r, e.flow, e.f, e.now, e.hint).1;
    var at, parts := CompletePacketsAreSound(cfg, New(cfg.maxBytes), trace, e, k);
    assert MadeFrom(trace + [e], Opened(cfg, trace, k), SlotKey(k.flow, k.packetId), e.f.count, |o.payload|,
                    o.payload, at, parts);
    hide Valid, Push, After, OpenedAt, MadeFrom, Opened;
  }

  lemma PushConserves(cfg: Config, r: Reassembler, queues: map<nat, Queue>, e: Event)
    requires Valid(cfg, r) && Conserved(cfg, r, queues, 0) && e.Pushes?
    ensures Conserved(cfg, Step(cfg, r, e), queues, Share(Push(cfg, r, e.flow, e.f, e.now, e.hint).1))
  {
    PushKeeps(cfg, r, e.flow, e.f, e.now, e.hint);
    hide Valid, Push, Total, Queued;
  }

  /** A fragment of a flow that is open, and the packet it may complete. */
  lemma FragmentKeeps(cfg: Config, s: Session, flow: nat, f: Fragment, now: int, hint: SlotKey)
    requires Inv(cfg, s)
    ensures Valid(cfg, s.reassembler) && Inv(cfg, HandleFragment(cfg, s, flow, f, now, hint))
  {
    TracedValid(cfg, s.reassembler, s.trace, s.log);
    hide Valid, SlotsOwned, QueuesOk, Conserved, Push, Opened, Step, After;
    var frame := Some(Piece(flow, f));
    if Open(s, flow) {
      var e := Pushes(flow, f, now, hint);
      var o := Push(cfg, s.reassembler, flow, f, now, hint).1;
      PushConserves(cfg, s.reassembler, s.queues, e);
      DoKeeps(cfg, s, e, frame, 0, Share(o));
      if o.Complete? {
        var k := SlotKey(flow, f.packetId);
        var s1 := Do(cfg, s, e, frame);
        CompletedPacket(cfg, s.reassembler, s.trace, s1.log, s.flows, s.flowOf, s.ready, s.written, s.acked, e, k);
        hide Traced, Instances, Ordered, PacketOk;
        EnqueueKeeps(cfg, s1, s.flows[flow], Packet(o.payload, o.reservation, Opened(cfg, s.trace, k)));
      }
    } else {
      BudgetKeeps(cfg, s, s.reassembler.free, frame, 0, 0);
    }
  }

  lemma TailQueue(
    queues: map<nat, Queue>, trace: seq<Event>, log: seq<Option<Frame>>, flowOf: map<nat, nat>, written: set<nat>,
    acked: map<nat, nat>, i: nat)
    requires QueuesOk(queues, trace, log, flowOf, written, acked) && i in queues && queues[i] != []
    ensures QueuesOk(queues[i := queues[i][1..]], trace, log, flowOf, written, acked)
    ensures Queued(queues[i := queues[i][1..]]) + queues[i][0].units == Queued(queues)
  {
    hide PacketOk;
    assert QueueOk(queues[i], trace, log, flowOf, written, acked, i);
    UnitsTail(queues[i]);
    QueueChange(queues, i, queues[i][1..]);
  }

  lemma ReceiveKeeps(cfg: Config, s: Session, i: nat)
    requires Inv(cfg, s)
    ensures Valid(cfg, s.reassembler) && Inv(cfg, Act(cfg, s, Receives(i)))
  {
    hide Valid, Traced, SlotsOwned, QueuesOk, Total, Queued, Instances, Ordered, Do;
    TracedValid(cfg, s.reassembler, s.trace, s.log);
    if i in s.queues && s.queues[i] != [] {
      var q := s.queues[i];
      TailQueue(s.queues, s.trace, s.log, s.flowOf, s.written, s.acked, i);
      UpdateKeys(s.queues, i, q[1..]);
      var s1 := s.(queues := s.queues[i := q[1..]]);
      BudgetKeeps(cfg, s1, s.reassembler.free + q[0].units, None, q[0].units, 0);
    }
  }

  lemma RemoveQueues(cfg: Config, s: Session, flow: nat)
    requires Valid(cfg, s.reassembler)
    ensures Remove(cfg, s, flow).queues == s.queues
  {
    hide Valid, Step;
  }

  lemma DropQueue(s: Session, i: nat)
    requires Instances(s.flows, s.flowOf, s.queues.Keys, s.closed)
    requires QueuesOk(s.queues, s.trace, s.log, s.flowOf, s.written, s.acked)
    ensures Instances(s.flows, s.flowOf, (s.queues - {i}).Keys, s.closed)
    ensures QueuesOk(s.queues - {i}, s.trace, s.log, s.flowOf, s.written, s.acked)
  {
    hide QueueOk;
  }

  lemma DropReceiverKeeps(cfg: Config, s: Session, i: nat)
    requires Inv(cfg, s)
    ensures Valid(cfg, s.reassembler) && Inv(cfg, DropReceiver(cfg, s, i))
  {
    hide Valid, Traced, SlotsOwned, QueuesOk, Total, Queued, Instances, Ordered, Do;
    TracedValid(cfg, s.reassembler, s.trace, s.log);
    if i in s.queues && i in s.flowOf {
      RemoveKeeps(cfg, s, s.flowOf[i]);
      var s1 := Remove(cfg, s, s.flowOf[i]);
      RemoveQueues(cfg, s, s.flowOf[i]);
      hide Remove;
      var units := UnitsOf(s.queues[i]);
      QueueGone(s1.queues, i);
      DropQueue(s1, i);
      BudgetKeeps(cfg, s1.(queues := s1.queues - {i}), s1.reassembler.free + units, None, units, 0);
    }
  }

  lemma TickKeeps(cfg: Config, s: Session, now: int)
    requires Inv(cfg, s)
    ensures Valid(cfg, s.reassembler) && Inv(cfg, Do(cfg, s, Ticks(now), None))
  {
    TracedValid(cfg, s.reassembler, s.trace, s.log);
    TickConserves(cfg, s.reassembler, s.queues, now);
    hide Valid, Expire, Conserved, Step;
    DoKeeps(cfg, s, Ticks(now), None, 0, 0);
  }

  lemma TickConserves(cfg: Config, r: Reassembler, queues: map<nat, Queue>, now: int)
    requires Valid(cfg, r) && Conserved(cfg, r, queues, 0)
    ensures Conserved(cfg, Step(cfg, r, Ticks(now)), queues, 0)
  {
    ExpireKeeps(cfg, r, now);
    hide Valid, Expire, Total, Queued;
  }

  lemma ActKeeps(cfg: Config, s: Session, a: Action)
    requires Inv(cfg, s) && Enabled(s, a)
    ensures Valid(cfg, s.reassembler) && Inv(cfg, Act(cfg, s, a))
  {
    TracedValid(cfg, s.reassembler, s.trace, s.log);
    hide Valid, Within, Install, Remove, DropReceiver, CloseAll, HandleData, HandleFragment, Do;
    match a
    case Installs(flow) => InstallKeeps(cfg, s, flow);
    case Removes(flow) => RemoveKeeps(cfg, s, flow);
    case DropsReceiver(i) => DropReceiverKeeps(cfg, s, i);
    case Closes => CloseKeeps(cfg, s);
    case Acknowledges(_) => MarkKeeps(cfg, s, a);
    case WritesReady(_) => MarkKeeps(cfg, s, a);
    case Activates(_) => MarkKeeps(cfg, s, a);
    case Consumes(frame, now, hint) =>
      match frame {
        case Data(flow, payload) => DataKeeps(cfg, s, flow, payload);
        case Piece(flow, f) => FragmentKeeps(cfg, s, flow, f, now, hint);
        case Close(flow) => RemoveKeeps(cfg, s, flow);
      }
    case Expires(now) => TickKeeps(cfg, s, now);
    case Receives(i) => ReceiveKeeps(cfg, s, i);
  }

  // ---------------------------------------------------------------------------------------------
  // Runs.

  /** A run of enabled actions leads from `s` to `t`. */
  ghost predicate Leads(cfg: Config, s: Session, run: seq<Action>, t: Session)
    decreases |run|
  {
    if run == [] then s == t
    else
      exists mid :: Leads(cfg, s, run[..|run| - 1], mid) && Valid(cfg, mid.reassembler)
                    && Enabled(mid, run[|run| - 1]) && t == Act(cfg, mid, run[|run| - 1])
  }

  lemma LeadsNowhere(cfg: Config, s: Session)
    ensures Leads(cfg, s, [], s)
  {
  }

  lemma LeadsOn(cfg: Config, s: Session, run: seq<Action>, mid: Session, a: Action)
    requires Leads(cfg, s, run, mid) && Valid(cfg, mid.reassembler) && Enabled(mid, a)
    ensures Leads(cfg, s, run + [a], Act(cfg, mid, a))
  {
    assert (run + [a])[..|run|] == run && (run + [a])[|run|] == a;
    hide Valid, Act, Enabled;
  }

  lemma {:induction false} LeadsKeeps(cfg: Config, s: Session, run: seq<Action>, t: Session)
    requires Inv(cfg, s) && Leads(cfg, s, run, t)
    ensures Inv(cfg, t)
    decreases |run|
  {
    hide Within, Act, Valid;
    if run != [] {
      var mid :| Leads(cfg, s, run[..|run| - 1], mid) && Valid(cfg, mid.reassembler)
                 && Enabled(mid, run[|run| - 1]) && t == Act(cfg, mid, run[|run| - 1]);
      LeadsKeeps(cfg, s, run[..|run| - 1], mid);
      ActKeeps(cfg, mid, run[|run| - 1]);
    }
  }

  ghost predicate Reaches(cfg: Config, run: seq<Action>, s: Session) {
    Leads(cfg, Start(cfg), run, s)
  }

  lemma StartInv(cfg: Config)
    ensures Inv(cfg, Start(cfg))
  {
    NewValid(cfg, cfg.maxBytes);
    NothingTotal();
    assert Queued(map[]) == 0;
  }

  lemma RunKeepsInvariant(cfg: Config, run: seq<Action>, s: Session)
    requires Reaches(cfg, run, s)
    ensures Inv(cfg, s)
  {
    StartInv(cfg);
    hide Within;
    LeadsKeeps(cfg, Start(cfg), run, s);
  }

  lemma QueueHolds(
    queues: map<nat, Queue>, trace: seq<Event>, log: seq<Option<Frame>>, flowOf: map<nat, nat>, written: set<nat>,
    acked: map<nat, nat>, i: nat, n: nat)
    requires QueuesOk(queues, trace, log, flowOf, written, acked) && i in queues && n < |queues[i]|
    ensures PacketOk(trace, log, flowOf, written, acked, i, queues[i][n])
  {
    hide PacketOk;
    assert QueueOk(queues[i], trace, log, flowOf, written, acked, i);
  }

  lemma OwnersAreOpen(cfg: Config, s: Session)
    requires SlotsOwned(cfg, s.reassembler.slots, s.trace, s.flows, s.ready, s.acked)
    ensures forall k :: k in s.reassembler.slots ==> Open(s, k.flow)
  {
    hide Opened;
  }

  /** READY gating: whatever has been done, a packet waits only at an instance whose READY was written, it
      was made from DATAGRAMs of that flow consumed after the acknowledgement of the instance's drain, and
      every partial packet belongs to an installed, ready flow. */
  lemma ReadyGating(cfg: Config, run: seq<Action>, s: Session, i: nat, n: nat)
    requires Reaches(cfg, run, s)
    ensures i in s.queues && n < |s.queues[i]| ==>
              var p := s.queues[i][n];
              && i in s.written && i in s.acked && i in s.flowOf && s.acked[i] <= p.since
              && Genuine(s.trace, s.log, s.flowOf[i], p)
    ensures forall k :: k in s.reassembler.slots ==> Open(s, k.flow)
    ensures forall j :: j in s.ready ==> j in s.written
  {
    hide Reaches, Traced, Conserved, Instances, QueuesOk, SlotsOwned;
    RunKeepsInvariant(cfg, run, s);
    OwnersAreOpen(cfg, s);
    hide Within, Genuine;
    if i in s.queues && n < |s.queues[i]| {
      QueueHolds(s.queues, s.trace, s.log, s.flowOf, s.written, s.acked, i, n);
    }
  }

  /** Byte conservation: free budget, slot reservations and queued packets always add up. */
  lemma BudgetIsConserved(cfg: Config, run: seq<Action>, s: Session)
    requires Reaches(cfg, run, s)
    ensures s.reassembler.free + Total(s.reassembler.slots) + Queued(s.queues) == cfg.maxBytes
    ensures s.reassembler.reserved == Total(s.reassembler.slots) && |s.reassembler.slots| <= cfg.maxSlots
    ensures forall i, n :: i in s.queues && 0 <= n < |s.queues[i]| ==>
            s.queues[i][n].units == Units(|s.queues[i][n].payload|) > 0
  {
    RunKeepsInvariant(cfg, run, s);
    hide Reaches, SlotsOwned, Instances, Ordered;
    TracedValid(cfg, s.reassembler, s.trace, s.log);
    hide Traced, Genuine;
    forall i, n | i in s.queues && 0 <= n < |s.queues[i]|
      ensures s.queues[i][n].units == Units(|s.queues[i][n].payload|) > 0
    {
      QueueHolds(s.queues, s.trace, s.log, s.flowOf, s.written, s.acked, i, n);
    }
  }

  /** A closed session has neither flows nor partial packets. */
  lemma ClosedIsEmpty(cfg: Config, run: seq<Action>, s: Session)
    requires Reaches(cfg, run, s) && s.closed
    ensures s.flows == map[] && s.reassembler.slots == map[]
  {
    RunKeepsInvariant(cfg, run, s);
    hide Reaches, Traced, QueuesOk, Conserved, Ordered, Opened;
    assert forall k :: k !in s.reassembler.slots;
  }

  /** And it stays closed. */
  lemma ClosedStaysClosed(cfg: Config, s: Session, a: Action)
    requires Valid(cfg, s.reassembler) && s.closed
    ensures Act(cfg, s, a).closed
  {
    hide Valid, Step, Push, Opened;
  }

  // ---------------------------------------------------------------------------------------------
  // Receivers give up their flow id, not their instance.

  /** Every instance but `i` that has a route keeps it, with its READY flag and its partial packets. */
  ghost predicate OthersKept(s: Session, t: Session, i: nat) {
    forall f :: f in s.flows && s.flows[f] != i ==>
      && f in t.flows && t.flows[f] == s.flows[f] && (s.flows[f] in t.ready <==> s.flows[f] in s.ready)
      && forall k :: k in s.reassembler.slots && k.flow == f ==>
           k in t.reassembler.slots && t.reassembler.slots[k] == s.reassembler.slots[k]
  }

  /** Dropping a receiver leaves the routes, flags and partial packets of all other instances alone exactly when
      its flow id is not in use again. It never touches another instance's queue. */
  lemma DropTakesOnlyItsOwn(cfg: Config, s: Session, i: nat)
    requires Valid(cfg, s.reassembler) && i in s.queues && i in s.flowOf
    ensures OthersKept(s, DropReceiver(cfg, s, i), i) <==> (s.flowOf[i] in s.flows ==> s.flows[s.flowOf[i]] == i)
    ensures DropReceiver(cfg, s, i).queues == s.queues - {i}
  {
    DropFields(cfg, s, i);
    hide Valid, DropReceiver;
  }

  lemma DropFields(cfg: Config, s: Session, i: nat)
    requires Valid(cfg, s.reassembler) && i in s.queues && i in s.flowOf
    ensures var t, flow := DropReceiver(cfg, s, i), s.flowOf[i];
            && t.flows == s.flows - {flow} && t.queues == s.queues - {i}
            && t.ready == (if flow in s.flows then s.ready - {s.flows[flow]} else s.ready)
            && forall k :: k in s.reassembler.slots && k.flow != flow ==>
                 k in t.reassembler.slots && t.reassembler.slots[k] == s.reassembler.slots[k]
  {
    RemoveStep(cfg, s.reassembler, s.flowOf[i]);
    RemoveFlowKeeps(cfg, s.reassembler, s.flowOf[i]);
    hide Valid, RemoveFlow, Total;
  }

  lemma InvIsValid(cfg: Config, s: Session)
    requires Inv(cfg, s)
    ensures Valid(cfg, s.reassembler)
  {
    TracedValid(cfg, s.reassembler, s.trace, s.log);
  }

  lemma ActIs(cfg: Config, s: Session, flow: nat, i: nat)
    requires Valid(cfg, s.reassembler)
    ensures Act(cfg, s, Installs(flow)) == Install(s, flow)
    ensures Act(cfg, s, Removes(flow)) == Remove(cfg, s, flow)
    ensures Act(cfg, s, DropsReceiver(i)) == DropReceiver(cfg, s, i)
  {
    hide Valid, Install, Remove, DropReceiver;
  }

  lemma FirstInstall(s: Session)
    requires s.flows == map[] && !s.closed
    ensures Install(s, 1).flows.Keys == {1} && !Install(s, 1).closed && Install(s, 1).flows - {1} == map[]
  {
  }

  lemma Reinstalled(s0: Session, s2: Session)
    requires s0.flows == map[] && s0.flowOf == map[] && s0.queues == map[] && !s0.closed
    requires s2.flows == map[] && s2.flowOf == Install(s0, 1).flowOf && s2.queues == Install(s0, 1).queues && !s2.closed
    ensures 1 in Install(s0, 1).flows
    ensures var s := Install(s2, 1);
            && s.flows == map[1 := 1] && s.flowOf == map[0 := 1, 1 := 1] && s.queues == map[0 := [], 1 := []]
  {
    var empty: map<nat, nat> := map[];
    MapSize(empty, 0, 1);
    assert |empty| == 0 && empty - {0} == map[];
    assert Install(s0, 1).flowOf == map[0 := 1];
  }

  lemma RemoveFields(cfg: Config, s: Session, flow: nat)
    requires Valid(cfg, s.reassembler)
    ensures var t := Remove(cfg, s, flow);
            t.flows == s.flows - {flow} && t.flowOf == s.flowOf && t.queues == s.queues && t.closed == s.closed
  {
    hide Valid, Step;
  }

  lemma LeadsThree(cfg: Config, s: Session, a: Action, b: Action, c: Action)
    requires Inv(cfg, s) && Valid(cfg, s.reassembler) && Enabled(s, a)
    requires forall t: Session :: Enabled(t, b) && Enabled(t, c)
    ensures var s1 := Act(cfg, s, a);
            && Valid(cfg, s1.reassembler)
            && var s2 := Act(cfg, s1, b);
            && Valid(cfg, s2.reassembler) && Inv(cfg, Act(cfg, s2, c))
            && Leads(cfg, s, [a, b, c], Act(cfg, s2, c))
  {
    hide Act, Within, Valid, Leads;
    assert [] + [a] == [a] && [a] + [b] == [a, b] && [a, b] + [c] == [a, b, c];
    ActKeeps(cfg, s, a);
    var s1 := Act(cfg, s, a);
    ActKeeps(cfg, s1, b);
    ActKeeps(cfg, Act(cfg, s1, b), c);
    LeadsNowhere(cfg, s);
    LeadsOn(cfg, s, [], s, a);
    LeadsOn(cfg, s, [a], s1, b);
    LeadsOn(cfg, s, [a, b], Act(cfg, s1, b), c);
  }

  /** A flow installed again after a CLOSE loses its route when the receiver of its first life goes. */
  lemma LateDropTakesNewRoute(cfg: Config) returns (s: Session)
    ensures Reaches(cfg, [Installs(1), Removes(1), Installs(1)], s)
    ensures Valid(cfg, s.reassembler) && s.flows == map[1 := 1]
    ensures var t := Act(cfg, s, DropsReceiver(0)); t.flows == map[] && 1 in t.queues
  {
    hide Within, Valid, Leads, Act, Remove, DropReceiver, Install;
    var s0 := Start(cfg);
    StartInv(cfg);
    InvIsValid(cfg, s0);
    LeadsThree(cfg, s0, Installs(1), Removes(1), Installs(1));
    ActIs(cfg, s0, 1, 0);
    var s1 := Install(s0, 1);
    ActIs(cfg, s1, 1, 0);
    var s2 := Remove(cfg, s1, 1);
    ActIs(cfg, s2, 1, 0);
    RemoveFields(cfg, s1, 1);
    FirstInstall(s0);
    Reinstalled(s0, s2);
    s := Install(s2, 1);
    InvIsValid(cfg, s);
    ActIs(cfg, s, 1, 0);
    DropFields(cfg, s, 0);
  }
}
