/** The session as the object it is: flow map, reassembler, queues and budget changed in place. */
module PortalSession {
  import opened Wrappers
  import opened Counting
  import opened Datagram
  import opened Reassembly
  import opened ReassemblyRuns
  import opened DatagramSession
  import opened SessionRuns
  import opened SessionDelivery
  import D = DatagramReassembler
  import R = Reassembly
  import Flow

  /** One look at the connection's DATAGRAM queue during a drain. `stop` says that shutdown or the deadline
      was seen after handling `data`. */
  datatype Poll = Arrived(data: Bytes, now: int, stop: bool) | Broken | Pending

  /** The one setup result a downlink gets. */
  datatype SetupResult = Ready | Reject(code: Flow.FlowErrorCode)

  /** What the setup of a relay meets: cancellation before dialling, while dialling and before READY, whether
      the target was reached, the drain, and whether the result could be written in time. */
  datatype Fate = Fate(
    cancelledEarly: bool, dialed: bool, cancelledAtDial: bool, polls: seq<Poll>, cancelledLate: bool, wrote: bool)

  /** The drain sees the queue empty before anything stops or breaks it. */
  predicate Drains(polls: seq<Poll>) {
    exists i :: 0 <= i < |polls| && polls[i].Pending? && forall j :: 0 <= j < i ==> polls[j].Arrived? && !polls[j].stop
  }

  /** The result each fate leads to. */
  function Verdict(fate: Fate): SetupResult {
    if fate.cancelledEarly then Reject(Flow.SessionReplaced)
    else if !fate.dialed && fate.cancelledAtDial then Reject(Flow.SessionReplaced)
    else if !fate.dialed then Reject(Flow.DialFailed)
    else if !Drains(fate.polls) then Reject(Flow.InternalError)
    else if fate.cancelledLate then Reject(Flow.SessionReplaced)
    else Ready
  }

  class PortalSession {
    const budget: D.Budget
    const reassembler: D.DatagramReassembler
    var udpFlows: map<nat, nat>
    var flowOf: map<nat, nat>
    var ready: set<nat>
    var queues: map<nat, Queue>
    var closed: bool
    ghost var trace: seq<Event>
    ghost var log: seq<Option<Frame>>
    ghost var acked: map<nat, nat>
    ghost var written: set<nat>

    ghost function View(): Session
      reads this, reassembler, budget, reassembler.budget
    {
      Session(udpFlows, flowOf, ready, queues, closed, reassembler.View(), trace, log, acked, written)
    }

    ghost function Cfg(): Config
    {
      reassembler.config
    }

    ghost predicate Valid()
      reads this, reassembler, budget, reassembler.budget
    {
      reassembler.budget == budget && Inv(Cfg(), View())
    }

    constructor (config: Config)
      ensures Valid() && fresh(reassembler) && fresh(budget) && View() == Start(config) && Cfg() == config
    {
      var b := new D.Budget(config.maxBytes);
      var r := new D.DatagramReassembler(config, b);
      budget, reassembler := b, r;
      udpFlows, flowOf, ready, queues, closed := map[], map[], {}, map[], false;
      trace, log, acked, written := [], [], map[], {};
      new;
      StartInv(config);
    }

    /** Records a step of the reassembler or its budget. */
    ghost method Record(e: Event, frame: Option<Frame>)
      modifies this`trace, this`log
      ensures trace == old(trace) + [e] && log == old(log) + [frame]
    {
      trace, log := trace + [e], log + [frame];
    }

    method InstallUdpUplink(flow: nat) returns (instance: Option<nat>)
      requires Valid()
      modifies this
      ensures Valid() && View() == Install(old(View()), flow)
      ensures instance.Some? <==> !old(closed) && flow !in old(udpFlows)
      ensures instance.Some? ==> flow in udpFlows && udpFlows[flow] == instance.value && instance.value !in old(flowOf)
    {
      hide Within;
      InstallKeeps(Cfg(), View(), flow);
      if closed || flow in udpFlows {
        return None;
      }
      var i := |flowOf|;
      FreshInstance(Cfg(), View());
      udpFlows, flowOf, queues := udpFlows[flow := i], flowOf[i := flow], queues[i := []];
      return Some(i);
    }

    method RemoveUdpUplink(flow: nat)
      requires Valid()
      modifies this, reassembler, budget
      ensures Valid() && R.Valid(Cfg(), old(View().reassembler)) && View() == Remove(Cfg(), old(View()), flow)
    {
      hide Within, RemoveFlow, R.Valid, Total;
      RemoveKeeps(Cfg(), View(), flow);
      if flow in udpFlows {
        ready := ready - {udpFlows[flow]};
      }
      udpFlows := udpFlows - {flow};
      reassembler.RemoveFlow(flow);
      Record(RemovesFlow(flow), None);
    }

    method Close()
      requires Valid()
      modifies this, reassembler, budget
      ensures Valid() && R.Valid(Cfg(), old(View().reassembler)) && View() == CloseAll(Cfg(), old(View()))
      ensures closed && udpFlows == map[] && reassembler.slots == map[] && queues == old(queues)
    {
      hide Within, Clear, R.Valid;
      CloseKeeps(Cfg(), View());
      CloseEmpties(Cfg(), View());
      if closed {
        return;
      }
      closed := true;
      ready := ready - udpFlows.Values;
      udpFlows := map[];
      reassembler.Clear();
      Record(Clears, None);
    }

    method Enqueue(i: nat, p: Packet)
      requires reassembler.budget == budget && R.Valid(Cfg(), View().reassembler)
      modifies this, budget
      ensures View() == DatagramSession.Enqueue(Cfg(), old(View()), i, p)
    {
      hide R.Valid;
      if i in queues && |queues[i]| < QUEUE_SLOTS {
        queues := queues[i := queues[i] + [p]];
      } else {
        budget.free := budget.free + p.units;
        Record(Budgets(budget.free), None);
      }
    }

    method HandleUnfragmentedUdp(flow: nat, payload: Bytes)
      requires Valid()
      modifies this, budget
      ensures Valid() && R.Valid(Cfg(), old(View().reassembler))
      ensures View() == HandleData(Cfg(), old(View()), flow, payload)
      ensures queues == if Deliverable(old(View()), flow) && Units(|payload|) <= old(budget.free)
                        then WithPacket(old(View()), flow, Packet(payload, Units(|payload|), |old(trace)|))
                        else old(queues)
    {
      hide Within, R.Valid, DatagramSession.Enqueue, Deliverable, WithPacket, Units, Do;
      DataKeeps(Cfg(), View(), flow, payload);
      DataDelivers(Cfg(), View(), flow, payload);
      ghost var frame := Some(Data(flow, payload));
      BudgetDone(Cfg(), View(), budget.free, frame);
      if flow !in udpFlows || udpFlows[flow] !in ready {
        Record(Budgets(budget.free), frame);
        return;
      }
      ghost var since := |trace|;
      var ok := budget.TryAcquire(|payload|);
      BudgetDone(Cfg(), old(View()), budget.free, frame);
      Record(Budgets(budget.free), frame);
      assert R.Valid(Cfg(), View().reassembler) by { BudgetAside(Cfg(), old(View().reassembler), budget.free); }
      if ok {
        Enqueue(udpFlows[flow], Packet(payload, Units(|payload|), since));
      }
    }

    method HandleUdpFragment(flow: nat, f: Fragment, now: int) returns (ghost hint: SlotKey)
      requires Valid()
      modifies this, reassembler, budget
      ensures Valid() && R.Valid(Cfg(), old(View().reassembler))
      ensures View() == HandleFragment(Cfg(), old(View()), flow, f, now, hint)
      ensures var o := Push(Cfg(), old(View().reassembler), flow, f, now, hint).1;
              queues == if Deliverable(old(View()), flow) && o.Complete?
                        then WithPacket(old(View()), flow, Packet(o.payload, o.reservation,
                                          Opened(Cfg(), old(trace), SlotKey(flow, f.packetId))))
                        else old(queues)
    {
      hide Within, R.Valid, DatagramSession.Enqueue, Push, Opened, Deliverable, WithPacket;
      hint := SlotKey(flow, f.packetId);
      ghost var frame := Some(Piece(flow, f));
      InvIsValid(Cfg(), View());
      if flow !in udpFlows || udpFlows[flow] !in ready {
        FragmentKeeps(Cfg(), View(), flow, f, now, hint);
        FragmentDelivers(Cfg(), View(), flow, f, now, hint);
        NotOpen(View(), flow);
        Record(Budgets(budget.free), frame);
        return;
      }
      ghost var since := Opened(Cfg(), trace, SlotKey(flow, f.packetId));
      var outcome;
      outcome, hint := reassembler.Push(flow, f, now);
      FragmentKeeps(Cfg(), old(View()), flow, f, now, hint);
      FragmentDelivers(Cfg(), old(View()), flow, f, now, hint);
      Record(Pushes(flow, f, now, hint), frame);
      if outcome.Complete? {
        Enqueue(udpFlows[flow], Packet(outcome.payload, outcome.reservation, since));
      }
    }

    /** Decodes one DATAGRAM and dispatches it; what does not decode is dropped. */
    method HandleDatagram(data: Bytes, now: int) returns (ghost done: seq<Action>)
      requires Valid()
      modifies this, reassembler, budget
      ensures Valid() && Leads(Cfg(), old(View()), done, View())
      ensures match Decode(data)
              case None => done == []
              case Some(frame) => |done| == 1 && done[0].Consumes? && done[0].frame == frame
    {
      hide Within, R.Valid, Remove, HandleData, HandleFragment, Install, CloseAll, DatagramSession.DropReceiver, Do;
      hide Leads, Decode, Encode;
      InvIsValid(Cfg(), View());
      LeadsNowhere(Cfg(), View());
      var decoded := Decode(data);
      if decoded.None? {
        return [];
      }
      EncodeInvertsDecode(data);
      ghost var hint := SlotKey(0, 0);
      match decoded.value {
        case Data(flow, payload) => HandleUnfragmentedUdp(flow, payload);
        case Piece(flow, f) => hint := HandleUdpFragment(flow, f, now);
        case Close(flow) => RemoveUdpUplink(flow);
      }
      done := [Consumes(decoded.value, now, hint)];
      LeadsOn(Cfg(), old(View()), [], old(View()), done[0]);
      assert [] + done == done;
    }

    /** `commit_udp_ready`: handles every DATAGRAM that is already there while the flow still refuses DATA,
        and acknowledges only when it has seen the queue empty. */
    method CommitUdpReady(instance: nat, polls: seq<Poll>)
      returns (ok: bool, ghost done: seq<Action>, ghost drained: nat)
      requires Valid() && instance in flowOf && instance !in acked
      modifies this, reassembler, budget
      ensures Valid() && Leads(Cfg(), old(View()), done, View())
      ensures drained <= |polls| && forall j :: 0 <= j < drained ==> polls[j].Arrived?
      ensures Frames(polls[..drained]) == ConsumedBy(done)
      ensures ok ==> drained < |polls| && polls[drained].Pending? && instance in acked && acked[instance] == |trace|
      ensures !ok ==> acked == old(acked)
      ensures ok <==> Drains(polls)
      ensures written == old(written) && ready <= old(ready)
    {
      hide Within, R.Valid, Leads, Act, Decode, Frames, ConsumedBy;
      LeadsNowhere(Cfg(), View());
      NoFrames();
      done, drained := [], 0;
      for i := 0 to |polls|
        invariant Valid() && Leads(Cfg(), old(View()), done, View())
        invariant drained == i && forall j :: 0 <= j < i ==> polls[j].Arrived? && !polls[j].stop
        invariant Frames(polls[..i]) == ConsumedBy(done)
        invariant acked == old(acked) && written == old(written) && ready <= old(ready) && instance in flowOf
      {
        match polls[i] {
          case Arrived(data, now, stop) =>
            ghost var before := View();
            ghost var step := HandleDatagram(data, now);
            Together(Cfg(), old(View()), done, before, step, View());
            FramesNext(polls, i, done, step);
            MarksStay(Cfg(), before, step, View());
            done := done + step;
            drained := i + 1;
            if stop {
              return false, done, drained;
            }
          case Broken =>
            return false, done, drained;
          case Pending =>
            ghost var before := View();
            acked := acked[instance := |trace|];
            InvIsValid(Cfg(), before);
            assert View() == Act(Cfg(), before, Acknowledges(instance)) by { AckIs(Cfg(), before, instance); }
            LeadsOn(Cfg(), old(View()), done, before, Acknowledges(instance));
            ActKeeps(Cfg(), before, Acknowledges(instance));
            ConsumedAck(done, instance);
            return true, done + [Acknowledges(instance)], drained;
        }
      }
      return false, done, drained;
    }

    /** READY is on the wire; the route opens in the same breath. */
    method CommitAndActivate(instance: nat)
      requires Valid() && instance in acked
      modifies this
      ensures Valid() && R.Valid(Cfg(), old(View().reassembler))
      ensures View() == old(View()).(written := old(written) + {instance}, ready := old(ready) + {instance})
    {
      hide Within, R.Valid;
      ActKeeps(Cfg(), View(), WritesReady(instance));
      written := written + {instance};
      ActKeeps(Cfg(), View(), Activates(instance));
      ready := ready + {instance};
    }

    /** The setup of `relay_paired_udp` for a QUIC uplink: exactly one result is begun on the downlink, and the
        route opens only when that result is READY, written after an acknowledged drain. */
    method SetUpRelay(instance: nat, fate: Fate) returns (verdicts: seq<SetupResult>, started: bool)
      requires Valid() && instance in flowOf && instance !in acked
      modifies this, reassembler, budget
      ensures Valid() && |verdicts| == 1
      ensures started <==> verdicts == [SetupResult.Ready] && fate.wrote
      ensures instance in ready <==> started
      ensures verdicts[0] == Verdict(fate)
      ensures started ==>
                && instance in written && instance in acked
                && exists i :: 0 <= i < |fate.polls| && fate.polls[i].Pending?
    {
      hide Within, R.Valid, Leads;
      NotReadyYet(Cfg(), View(), instance);
      if fate.cancelledEarly {
        return [Reject(Flow.SessionReplaced)], false;
      }
      if !fate.dialed {
        return [Reject(if fate.cancelledAtDial then Flow.SessionReplaced else Flow.DialFailed)], false;
      }
      var drained;
      ghost var done, n;
      drained, done, n := CommitUdpReady(instance, fate.polls);
      if !drained {
        return [Reject(Flow.InternalError)], false;
      }
      if fate.cancelledLate {
        return [Reject(Flow.SessionReplaced)], false;
      }
      if !fate.wrote {
        return [SetupResult.Ready], false;
      }
      CommitAndActivate(instance);
      return [SetupResult.Ready], true;
    }

    method Recv(instance: nat) returns (payload: Option<Bytes>)
      requires Valid()
      modifies this, budget
      ensures Valid() && R.Valid(Cfg(), old(View().reassembler))
      ensures View() == Act(Cfg(), old(View()), Receives(instance))
      ensures payload == if instance in old(queues) && old(queues)[instance] != []
                         then Some(old(queues)[instance][0].payload) else None
    {
      hide Within, R.Valid;
      ReceiveKeeps(Cfg(), View(), instance);
      if instance !in queues || queues[instance] == [] {
        return None;
      }
      var p := queues[instance][0];
      queues := queues[instance := queues[instance][1..]];
      budget.free := budget.free + p.units;
      Record(Budgets(budget.free), None);
      return Some(p.payload);
    }

    method DropReceiver(instance: nat)
      requires Valid()
      modifies this, reassembler, budget
      ensures Valid() && R.Valid(Cfg(), old(View().reassembler))
      ensures View() == DatagramSession.DropReceiver(Cfg(), old(View()), instance)
    {
      hide Within, R.Valid, Remove;
      DropReceiverKeeps(Cfg(), View(), instance);
      if instance in queues && instance in flowOf {
        RemoveQueues(Cfg(), View(), flowOf[instance]);
        RemoveUdpUplink(flowOf[instance]);
        var units := UnitsOf(queues[instance]);
        queues := queues - {instance};
        budget.free := budget.free + units;
        Record(Budgets(budget.free), None);
      }
    }

    method Expire(now: int)
      requires Valid()
      modifies this, reassembler, budget
      ensures Valid() && R.Valid(Cfg(), old(View().reassembler))
      ensures View() == Act(Cfg(), old(View()), Expires(now))
    {
      hide Within, R.Valid, R.Expire;
      TickKeeps(Cfg(), View(), now);
      var removed := reassembler.Expire(now);
      Record(Ticks(now), None);
    }
  }

  lemma NotOpen(s: Session, flow: nat)
    requires !Open(s, flow)
    ensures !Deliverable(s, flow)
  {
  }

  /** One run after another. */
  lemma {:induction false} Together(
    cfg: Config, s: Session, first: seq<Action>, mid: Session, more: seq<Action>, t: Session)
    requires Leads(cfg, s, first, mid) && Leads(cfg, mid, more, t)
    ensures Leads(cfg, s, first + more, t)
    decreases |more|
  {
    hide R.Valid, Act, Enabled;
    if more == [] {
      assert first + more == first;
    } else {
      var n := |more| - 1;
      var u :| Leads(cfg, mid, more[..n], u) && R.Valid(cfg, u.reassembler) && Enabled(u, more[n])
          && t == Act(cfg, u, more[n]);
      Together(cfg, s, first, mid, more[..n], u);
      LeadsOn(cfg, s, first + more[..n], u, more[n]);
      Snoc(more);
      assert first + more == (first + more[..n]) + [more[n]];
    }
  }

  /** The frames in a series of polls that decode. */
  ghost function Frames(polls: seq<Poll>): seq<Frame> {
    if polls == [] then []
    else
      var last := polls[|polls| - 1];
      Frames(polls[..|polls| - 1])
      + if last.Arrived? && Decode(last.data).Some? then [Decode(last.data).value] else []
  }

  ghost function ConsumedBy(done: seq<Action>): seq<Frame> {
    if done == [] then []
    else
      var last := done[|done| - 1];
      ConsumedBy(done[..|done| - 1]) + if last.Consumes? then [last.frame] else []
  }

  lemma NoFrames()
    ensures Frames([]) == ConsumedBy([])
  {
  }

  lemma FramesNext(polls: seq<Poll>, i: nat, done: seq<Action>, step: seq<Action>)
    requires i < |polls| && polls[i].Arrived? && Frames(polls[..i]) == ConsumedBy(done)
    requires match Decode(polls[i].data)
             case None => step == []
             case Some(frame) => |step| == 1 && step[0].Consumes? && step[0].frame == frame
    ensures Frames(polls[..i + 1]) == ConsumedBy(done + step)
  {
    hide Decode;
    assert polls[..i + 1][..i] == polls[..i];
    if step == [] {
      assert done + step == done;
    } else {
      assert (done + step)[..|done|] == done && (done + step)[|done|] == step[0];
    }
  }

  lemma ConsumedAck(done: seq<Action>, instance: nat)
    ensures ConsumedBy(done + [Acknowledges(instance)]) == ConsumedBy(done)
  {
    assert (done + [Acknowledges(instance)])[..|done|] == done;
  }

  lemma AckIs(cfg: Config, s: Session, instance: nat)
    requires R.Valid(cfg, s.reassembler)
    ensures Act(cfg, s, Acknowledges(instance)) == s.(acked := s.acked[instance := |s.trace|])
  {
  }

  /** No instance made, nothing acknowledged or written, no flag raised. */
  ghost predicate SameMarks(s: Session, t: Session) {
    t.acked == s.acked && t.flowOf == s.flowOf && t.written == s.written && t.ready <= s.ready
  }

  lemma ConsumeMarks(cfg: Config, s: Session, a: Action)
    requires R.Valid(cfg, s.reassembler) && a.Consumes?
    ensures SameMarks(s, Act(cfg, s, a))
  {
    hide R.Valid, HandleData, HandleFragment, Do;
    match a.frame
    case Data(flow, payload) => DataMarks(cfg, s, flow, payload);
    case Piece(flow, f) => FragmentMarks(cfg, s, flow, f, a.now, a.hint);
    case Close(flow) => RemoveMarks(cfg, s, flow);
  }

  lemma RemoveMarks(cfg: Config, s: Session, flow: nat)
    requires R.Valid(cfg, s.reassembler)
    ensures SameMarks(s, Remove(cfg, s, flow))
  {
    hide R.Valid, Step;
  }

  lemma DataMarks(cfg: Config, s: Session, flow: nat, payload: Bytes)
    requires R.Valid(cfg, s.reassembler)
    ensures SameMarks(s, HandleData(cfg, s, flow, payload))
  {
    hide R.Valid, Step, DatagramSession.Enqueue;
    var units := Units(|payload|);
    if Open(s, flow) && units <= s.reassembler.free {
      var s1 := Do(cfg, s, Budgets(s.reassembler.free - units), Some(Data(flow, payload)));
      EnqueueMarks(cfg, s1, s.flows[flow], Packet(payload, units, |s.trace|));
    }
  }

  lemma FragmentMarks(cfg: Config, s: Session, flow: nat, f: Fragment, now: int, hint: SlotKey)
    requires R.Valid(cfg, s.reassembler)
    ensures SameMarks(s, HandleFragment(cfg, s, flow, f, now, hint))
  {
    assert SlotsOk(s.reassembler.slots);
    hide R.Valid, SlotsOk, Step, Push, Opened, DatagramSession.Enqueue;
    var s1 := Do(cfg, s, Pushes(flow, f, now, hint), Some(Piece(flow, f)));
    var o := Push(cfg, s.reassembler, flow, f, now, hint).1;
    if Open(s, flow) && o.Complete? {
      EnqueueMarks(cfg, s1, s.flows[flow],
                   Packet(o.payload, o.reservation, Opened(cfg, s.trace, SlotKey(flow, f.packetId))));
    }
  }

  lemma EnqueueMarks(cfg: Config, s: Session, i: nat, p: Packet)
    requires R.Valid(cfg, s.reassembler)
    ensures SameMarks(s, DatagramSession.Enqueue(cfg, s, i, p))
  {
    hide R.Valid, Step;
  }

  lemma MarksStay(cfg: Config, s: Session, step: seq<Action>, t: Session)
    requires Leads(cfg, s, step, t) && (step == [] || (|step| == 1 && step[0].Consumes?))
    ensures SameMarks(s, t)
  {
    hide R.Valid, Act, Enabled;
    if step != [] {
      var mid :| Leads(cfg, s, step[..0], mid) && R.Valid(cfg, mid.reassembler)
                 && Enabled(mid, step[0]) && t == Act(cfg, mid, step[0]);
      ConsumeMarks(cfg, mid, step[0]);
    }
  }

  lemma NotReadyYet(cfg: Config, s: Session, i: nat)
    requires Inv(cfg, s) && i !in s.acked
    ensures i !in s.written && i !in s.ready
  {
  }
}
