/** The vector's QUIC session as the object it is: routes, queues, reassembler and budget changed in place. */
module VectorSession {
  import opened Wrappers
  import opened Counting
  import opened Datagram
  import opened Reassembly
  import opened ReassemblyRuns
  import opened DatagramSession
  import opened SessionRuns
  import opened VectorRoutes
  import opened SessionDelivery
  import D = DatagramReassembler
  import R = Reassembly

  /** `sender` names the instance whose receiver the route sends to. */
  datatype Route = Route(sender: nat, ready: bool)

  type Routes = map<nat, Route>

  function FlowsOf(routes: Routes): map<nat, nat> {
    map f | f in routes :: routes[f].sender
  }

  function ReadyOf(routes: Routes): set<nat> {
    set f | f in routes && routes[f].ready :: routes[f].sender
  }

  /** What the datagram loop meets next. */
  datatype Wake = Ticked(now: int) | Arrived(data: Bytes, now: int) | Stopped

  datatype Sent = Taken | Full | Closed

  class QuicSession {
    const budget: D.Budget
    const reassembler: D.DatagramReassembler
    var routes: Routes
    var flowOf: map<nat, nat>
    var queues: map<nat, Queue>
    ghost var trace: seq<Event>
    ghost var log: seq<Option<Frame>>
    ghost var acked: map<nat, nat>
    ghost var written: set<nat>

    ghost function View(): Session
      reads this, reassembler, budget, reassembler.budget
    {
      Session(FlowsOf(routes), flowOf, ReadyOf(routes), queues, false, reassembler.View(), trace, log, acked, written)
    }

    ghost function Cfg(): Config
    {
      reassembler.config
    }

    ghost predicate Valid()
      reads this, reassembler, budget, reassembler.budget
    {
      reassembler.budget == budget && Inv(Cfg(), View())
    }

    constructor (config: Config)
      ensures Valid() && fresh(reassembler) && fresh(budget) && View() == Start(config) && Cfg() == config
    {
      var b := new D.Budget(config.maxBytes);
      var r := new D.DatagramReassembler(config, b);
      budget, reassembler := b, r;
      routes, flowOf, queues := map[], map[], map[];
      trace, log, acked, written := [], [], map[], {};
      new;
      StartInv(config);
    }

    ghost method Record(e: Event, frame: Option<Frame>)
      modifies this`trace, this`log
      ensures trace == old(trace) + [e] && log == old(log) + [frame]
    {
      trace, log := trace + [e], log + [frame];
    }

    method RegisterUdp(flow: nat) returns (receiver: Option<nat>)
      requires Valid()
      modifies this
      ensures Valid() && View() == Turn(Cfg(), old(View()), Registers(flow))
      ensures receiver.Some? <==> flow !in old(routes)
      ensures receiver.Some? ==>
                receiver.value !in old(flowOf) && flow in routes && routes[flow] == Route(receiver.value, false)
    {
      hide Within;
      TurnKeeps(Cfg(), View(), Registers(flow));
      if flow in routes {
        return None;
      }
      var i := |flowOf|;
      FreshInstance(Cfg(), View());
      RouteAdded(routes, flow, i);
      routes, flowOf, queues := routes[flow := Route(i, false)], flowOf[i := flow], queues[i := []];
      return Some(i);
    }

    method ActivateUdp(flow: nat) returns (ok: bool)
      requires Valid()
      modifies this
      ensures Valid() && View() == Turn(Cfg(), old(View()), MarksReady(flow))
      ensures ok <==> flow in old(routes)
      ensures ok ==> flow in routes && routes[flow].ready
    {
      hide Within;
      TurnKeeps(Cfg(), View(), MarksReady(flow));
      if flow !in routes {
        return false;
      }
      var i := routes[flow].sender;
      RouteReadied(routes, flow);
      routes := routes[flow := routes[flow].(ready := true)];
      acked := if i in acked then acked else acked[i := |trace|];
      written := written + {i};
      return true;
    }

    method RemoveUdp(flow: nat)
      requires Valid()
      modifies this, reassembler, budget
      ensures Valid() && View() == Turn(Cfg(), old(View()), Forgets(flow))
      ensures Vanished(View(), flow)
    {
      hide Within, RemoveFlow, R.Valid, Total;
      TurnKeeps(Cfg(), View(), Forgets(flow));
      InvIsValid(Cfg(), View());
      DistinctSenders(Cfg(), View(), routes);
      RouteRemoved(routes, flow);
      routes := routes - {flow};
      reassembler.RemoveFlow(flow);
      Record(RemovesFlow(flow), None);
      NoRouteNoSlots(Cfg(), View(), flow);
    }

    method ClearUdp()
      requires Valid()
      modifies this, reassembler, budget
      ensures Valid() && View() == Turn(Cfg(), old(View()), Resets)
      ensures routes == map[] && reassembler.slots == map[]
    {
      hide Within, Clear, R.Valid;
      TurnKeeps(Cfg(), View(), Resets);
      InvIsValid(Cfg(), View());
      RoutesGone(routes);
      routes := map[];
      reassembler.Clear();
      Record(Event.Clears, None);
    }

    /** `try_send`; a packet that is not taken gives its units back. */
    method TrySend(i: nat, p: Packet) returns (sent: Sent)
      requires reassembler.budget == budget && R.Valid(Cfg(), View().reassembler)
      modifies this`queues, this`trace, this`log, budget
      ensures View() == Enqueue(Cfg(), old(View()), i, p)
      ensures sent.Closed? <==> i !in old(queues)
      ensures sent.Taken? <==> i in old(queues) && |old(queues)[i]| < QUEUE_SLOTS
    {
      hide R.Valid;
      if i in queues && |queues[i]| < QUEUE_SLOTS {
        queues := queues[i := queues[i] + [p]];
        return Taken;
      }
      budget.free := budget.free + p.units;
      Record(Budgets(budget.free), None);
      return if i in queues then Full else Closed;
    }

    /** A packet found the receiver gone: the route goes with all partial packets. */
    method Sweep(flow: nat, sent: Sent)
      requires Valid()
      modifies this`routes, this`trace, this`log, reassembler, budget
      ensures Valid() && View() == Swept(Cfg(), old(View()), flow, sent.Closed?)
    {
      hide Within, RemoveFlow, R.Valid, Total;
      SweptKeeps(Cfg(), View(), flow, sent.Closed?);
      InvIsValid(Cfg(), View());
      if sent.Closed? {
        DistinctSenders(Cfg(), View(), routes);
        RouteRemoved(routes, flow);
        routes := routes - {flow};
        reassembler.RemoveFlow(flow);
        Record(RemovesFlow(flow), None);
      }
    }

    method ReceiveData(flow: nat, payload: Bytes)
      requires Valid()
      modifies this, reassembler, budget
      ensures Valid() && View() == VectorRoutes.ReceiveData(Cfg(), old(View()), flow, payload)
      ensures flow in old(routes) ==>
                (Vanished(View(), flow) <==> Deserted(old(View()), flow) && Units(|payload|) <= old(budget.free))
      ensures queues == if Deliverable(old(View()), flow) && Units(|payload|) <= old(budget.free)
                        then WithPacket(old(View()), flow, Packet(payload, Units(|payload|), |old(trace)|))
                        else old(queues)
    {
      hide Within, R.Valid, Enqueue, Swept, Vanished, Units, Deliverable, WithPacket, Do;
      VectorDataDelivers(Cfg(), View(), flow, payload, 0, SlotKey(0, 0));
      if flow in routes {
        DataSweepsIff(Cfg(), View(), flow, payload, 0, SlotKey(0, 0));
      }
      DataKeeps(Cfg(), View(), flow, payload);
      ghost var frame := Some(Data(flow, payload));
      BudgetDone(Cfg(), View(), budget.free, frame);
      DistinctSenders(Cfg(), View(), routes);
      OpenRoute(View(), routes, flow);
      if flow !in routes || !routes[flow].ready {
        Record(Budgets(budget.free), frame);
        NotSwept(Cfg(), View(), flow);
        return;
      }
      ghost var since := |trace|;
      var ok := budget.TryAcquire(|payload|);
      BudgetDone(Cfg(), old(View()), budget.free, frame);
      Record(Budgets(budget.free), frame);
      if !ok {
        NotSwept(Cfg(), View(), flow);
        return;
      }
      assert R.Valid(Cfg(), View().reassembler) by { BudgetAside(Cfg(), old(View().reassembler), budget.free); }
      var sent := TrySend(routes[flow].sender, Packet(payload, Units(|payload|), since));
      Sweep(flow, sent);
    }

    method ReceiveFragment(flow: nat, f: Fragment, now: int) returns (ghost hint: SlotKey)
      requires Valid()
      modifies this, reassembler, budget
      ensures Valid() && View() == VectorRoutes.ReceiveFragment(Cfg(), old(View()), flow, f, now, hint)
      ensures R.Valid(Cfg(), old(View().reassembler))
      ensures var o := Push(Cfg(), old(View().reassembler), flow, f, now, hint).1;
              queues == if Deliverable(old(View()), flow) && o.Complete?
                        then WithPacket(old(View()), flow, Packet(o.payload, o.reservation,
                                          Opened(Cfg(), old(trace), SlotKey(flow, f.packetId))))
                        else old(queues)
    {
      hide Within, R.Valid, Enqueue, Swept, Push, Opened, Deliverable, WithPacket;
      hint := SlotKey(flow, f.packetId);
      ghost var frame := Some(Piece(flow, f));
      InvIsValid(Cfg(), View());
      DistinctSenders(Cfg(), View(), routes);
      OpenRoute(View(), routes, flow);
      if flow !in routes || !routes[flow].ready {
        FragmentKeeps(Cfg(), View(), flow, f, now, hint);
        VectorFragmentDelivers(Cfg(), View(), flow, f, now, hint);
        Record(Budgets(budget.free), frame);
        NotSwept(Cfg(), View(), flow);
        return;
      }
      ghost var since := Opened(Cfg(), trace, SlotKey(flow, f.packetId));
      var outcome;
      outcome, hint := reassembler.Push(flow, f, now);
      FragmentKeeps(Cfg(), old(View()), flow, f, now, hint);
      VectorFragmentDelivers(Cfg(), old(View()), flow, f, now, hint);
      Record(Pushes(flow, f, now, hint), frame);
      if outcome.Complete? {
        var sent := TrySend(routes[flow].sender, Packet(outcome.payload, outcome.reservation, since));
        Sweep(flow, sent);
      } else {
        NotSwept(Cfg(), View(), flow);
      }
    }

    method Recv(instance: nat) returns (payload: Option<Bytes>)
      requires Valid()
      modifies this`queues, this`trace, this`log, budget
      ensures Valid() && View() == Turn(Cfg(), old(View()), Delivers(instance))
      ensures payload == if instance in old(queues) && old(queues)[instance] != []
                         then Some(old(queues)[instance][0].payload) else None
    {
      hide Within, R.Valid;
      InvIsValid(Cfg(), View());
      TurnKeeps(Cfg(), View(), Delivers(instance));
      if instance !in queues || queues[instance] == [] {
        return None;
      }
      var p := queues[instance][0];
      queues := queues[instance := queues[instance][1..]];
      budget.free := budget.free + p.units;
      Record(Budgets(budget.free), None);
      return Some(p.payload);
    }

    /** The receiver goes; its packets give their units back. */
    method DropReceiver(instance: nat)
      requires Valid()
      modifies this`queues, this`trace, this`log, budget
      ensures Valid() && View() == Turn(Cfg(), old(View()), Abandons(instance))
    {
      hide Within, R.Valid;
      InvIsValid(Cfg(), View());
      TurnKeeps(Cfg(), View(), Abandons(instance));
      if instance in queues {
        var units := UnitsOf(queues[instance]);
        queues := queues - {instance};
        budget.free := budget.free + units;
        Record(Budgets(budget.free), None);
      }
    }

    method Cleanup(now: int)
      requires Valid()
      modifies this`trace, this`log, reassembler, budget
      ensures Valid() && View() == Turn(Cfg(), old(View()), Cleans(now))
    {
      hide Within, R.Valid, R.Expire, Push;
      InvIsValid(Cfg(), View());
      TurnKeeps(Cfg(), View(), Cleans(now));
      var removed := reassembler.Expire(now);
      Record(Ticks(now), None);
    }

    method Dispatch(frame: Frame, now: int) returns (ghost hint: SlotKey)
      requires Valid()
      modifies this, reassembler, budget
      ensures Valid() && View() == Turn(Cfg(), old(View()), Reads(frame, now, hint))
    {
      hide Within, R.Valid, VectorRoutes.ReceiveData, VectorRoutes.ReceiveFragment, Remove, Vanished, Deserted;
      InvIsValid(Cfg(), View());
      hint := SlotKey(0, 0);
      match frame {
        case Data(flow, payload) => ReceiveData(flow, payload);
        case Piece(flow, f) => hint := ReceiveFragment(flow, f, now);
        case Close(flow) => RemoveUdp(flow);
      }
    }

    /** One turn of the loop; what does not decode is dropped. */
    method HandleWake(wake: Wake) returns (ghost done: seq<Call>)
      requires Valid() && !wake.Stopped?
      modifies this, reassembler, budget
      ensures Valid() && Answers(done, wake) && View() == Replay(Cfg(), old(View()), done)
    {
      hide Within, R.Valid, Decode, Turn, Replay;
      ReplayNone(Cfg(), View());
      match wake {
        case Ticked(now) =>
          Cleanup(now);
          done := [Cleans(now)];
        case Arrived(data, now) =>
          var decoded := Decode(data);
          if decoded.None? {
            return [];
          }
          ghost var hint := Dispatch(decoded.value, now);
          done := [Reads(decoded.value, now, hint)];
      }
      ReplayOne(Cfg(), old(View()), done[0]);
    }

    /** The datagram loop: handles whatever comes until shutdown, a broken connection or the end, then drops every
        route and partial packet. */
    method DatagramLoop(wakes: seq<Wake>) returns (ghost done: seq<seq<Call>>)
      requires Valid()
      modifies this, reassembler, budget
      ensures Valid() && routes == map[] && reassembler.slots == map[]
      ensures |done| <= |wakes| && (|done| < |wakes| ==> wakes[|done|].Stopped?)
      ensures forall j :: 0 <= j < |done| ==> !wakes[j].Stopped? && Answers(done[j], wakes[j])
      ensures View() == Replay(Cfg(), old(View()), Flat(done) + [Resets])
    {
      hide Within, R.Valid, Answers, Turn, Replay, Flat;
      ReplayNone(Cfg(), View());
      FlatNone();
      done := [];
      var i := 0;
      while i < |wakes| && !wakes[i].Stopped?
        invariant Valid() && 0 <= i == |done| <= |wakes|
        invariant forall j :: 0 <= j < |done| ==> !wakes[j].Stopped? && Answers(done[j], wakes[j])
        invariant View() == Replay(Cfg(), old(View()), Flat(done))
        decreases |wakes| - i
      {
        ghost var before := View();
        ghost var step := HandleWake(wakes[i]);
        ReplayTogether(Cfg(), old(View()), Flat(done), step);
        FlatNext(done, step);
        done := done + [step];
        i := i + 1;
      }
      ClearUdp();
      ReplayNext(Cfg(), old(View()), Flat(done), Resets);
    }
  }

  /** The calls that answer one wake-up. */
  ghost predicate Answers(done: seq<Call>, wake: Wake) {
    match wake
    case Ticked(now) => done == [Cleans(now)]
    case Arrived(data, now) =>
      (match Decode(data)
       case None => done == []
       case Some(frame) => |done| == 1 && done[0].Reads? && done[0].frame == frame && done[0].now == now)
    case Stopped => false
  }

  ghost function Flat(done: seq<seq<Call>>): seq<Call> {
    if done == [] then [] else Flat(done[..|done| - 1]) + done[|done| - 1]
  }

  lemma FlatNone()
    ensures Flat([]) == []
  {
  }

  lemma FlatNext(done: seq<seq<Call>>, step: seq<Call>)
    ensures Flat(done + [step]) == Flat(done) + step
  {
    assert (done + [step])[..|done|] == done;
  }

  lemma ReplayNone(cfg: Config, s: Session)
    requires Inv(cfg, s)
    ensures Replay(cfg, s, []) == s
  {
    hide Within, Turn;
  }

  lemma ReplayNext(cfg: Config, s: Session, calls: seq<Call>, c: Call)
    requires Inv(cfg, s)
    ensures Replay(cfg, s, calls + [c]) == Turn(cfg, Replay(cfg, s, calls), c)
  {
    hide Within, Turn;
    assert (calls + [c])[..|calls|] == calls;
  }

  lemma ReplayOne(cfg: Config, s: Session, c: Call)
    requires Inv(cfg, s)
    ensures Replay(cfg, s, [c]) == Turn(cfg, s, c)
  {
    hide Within, Turn;
    ReplayNone(cfg, s);
    ReplayNext(cfg, s, [], c);
    assert [] + [c] == [c];
  }

  lemma {:induction false} ReplayTogether(cfg: Config, s: Session, calls: seq<Call>, more: seq<Call>)
    requires Inv(cfg, s)
    ensures Replay(cfg, s, calls + more) == Replay(cfg, Replay(cfg, s, calls), more)
  {
    hide Within, Turn, Replay;
    if more == [] {
      ReplayNone(cfg, Replay(cfg, s, calls));
      assert calls + more == calls;
    } else {
      var init, c := more[..|more| - 1], more[|more| - 1];
      ReplayTogether(cfg, s, calls, init);
      ReplayNext(cfg, s, calls + init, c);
      ReplayNext(cfg, Replay(cfg, s, calls), init, c);
      Snoc(more);
      assert calls + more == calls + init + [c];
    }
  }

  lemma OpenRoute(s: Session, routes: Routes, flow: nat)
    requires s.flows == FlowsOf(routes) && s.ready == ReadyOf(routes) && Distinct(routes)
    ensures Open(s, flow) <==> flow in routes && routes[flow].ready
  {
  }

  lemma NotSwept(cfg: Config, s: Session, flow: nat)
    requires Inv(cfg, s)
    ensures Swept(cfg, s, flow, false) == s
  {
    hide Within;
  }

  lemma RouteAdded(routes: Routes, flow: nat, i: nat)
    requires flow !in routes
    ensures var more := routes[flow := Route(i, false)];
            FlowsOf(more) == FlowsOf(routes)[flow := i] && ReadyOf(more) == ReadyOf(routes)
  {
    var more := routes[flow := Route(i, false)];
    assert forall f :: f in more && more[f].ready <==> f in routes && routes[f].ready;
  }

  lemma RouteReadied(routes: Routes, flow: nat)
    requires flow in routes
    ensures var more := routes[flow := routes[flow].(ready := true)];
            FlowsOf(more) == FlowsOf(routes) && ReadyOf(more) == ReadyOf(routes) + {routes[flow].sender}
  {
    var more := routes[flow := routes[flow].(ready := true)];
    assert forall f :: f in routes && routes[f].ready ==>
             f in more && more[f].ready && more[f].sender == routes[f].sender;
    assert more[flow].ready && more[flow].sender == routes[flow].sender;
  }

  ghost predicate Distinct(routes: Routes) {
    forall f, g :: f in routes && g in routes && routes[f].sender == routes[g].sender ==> f == g
  }

  lemma DistinctSenders(cfg: Config, s: Session, routes: Routes)
    requires Inv(cfg, s) && s.flows == FlowsOf(routes)
    ensures Distinct(routes)
  {
    hide Traced, Conserved, QueuesOk, SlotsOwned, Ordered;
    forall f, g | f in routes && g in routes && routes[f].sender == routes[g].sender
      ensures f == g
    {
      assert s.flows[f] == s.flows[g];
    }
  }

  lemma RouteRemoved(routes: Routes, flow: nat)
    requires Distinct(routes)
    ensures var less := routes - {flow};
            && FlowsOf(less) == FlowsOf(routes) - {flow}
            && ReadyOf(less) == if flow in FlowsOf(routes) then ReadyOf(routes) - {FlowsOf(routes)[flow]}
               else ReadyOf(routes)
  {
    var less := routes - {flow};
    forall f | f in routes && routes[f].ready && f != flow
      ensures routes[f].sender in ReadyOf(less)
    {
      assert f in less && less[f] == routes[f];
    }
  }

  lemma RoutesGone(routes: Routes)
    ensures FlowsOf(map[]) == map[] && ReadyOf(map[]) == ReadyOf(routes) - FlowsOf(routes).Values
  {
    forall i | i in ReadyOf(routes)
      ensures i in FlowsOf(routes).Values
    {
      var f :| f in routes && routes[f].ready && routes[f].sender == i;
      assert FlowsOf(routes)[f] == i;
    }
  }
}
