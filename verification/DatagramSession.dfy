/** The DATAGRAM side of one authenticated session: the flow map and its READY flags beside the reassembler,
    the packet queues and the byte budget they share (src/portal/conn/session_datagram.rs,
    src/portal/conn/session.rs, src/portal/conn/relay_uot.rs). */
module DatagramSession {
  import opened Wrappers
  import opened Counting
  import opened Datagram
  import opened Reassembly
  import opened ReassemblyRuns

  const QUEUE_SLOTS := 64

  /** A queued packet and its budget share. `since` is the position in the trace of the first event that
      contributed to it. */
  datatype Packet = Packet(payload: Bytes, units: nat, ghost since: nat)

  type Queue = seq<Packet>

  /** Each installation of a flow is an instance with a READY flag and a queue of its own; `queues` has the
      instances whose receiver is alive. `trace` is every step of the reassembler and its budget, `log` the
      DATAGRAM behind it, `acked` the length of the trace when an instance's drain was acknowledged,
      and `written` the instances whose READY went out. */
  datatype Session = Session(
    flows: map<nat, nat>,
    flowOf: map<nat, nat>,
    ready: set<nat>,
    queues: map<nat, Queue>,
    closed: bool,
    reassembler: Reassembler,
    trace: seq<Event>,
    log: seq<Option<Frame>>,
    acked: map<nat, nat>,
    written: set<nat>)

  function Start(cfg: Config): Session {
    Session(map[], map[], {}, map[], false, New(cfg.maxBytes), [], [], map[], {})
  }

  // ---------------------------------------------------------------------------------------------
  // Steps.

  /** One step of the reassembler or its budget. */
  ghost function Do(cfg: Config, s: Session, e: Event, frame: Option<Frame>): Session
    requires Valid(cfg, s.reassembler)
  {
    s.(reassembler := Step(cfg, s.reassembler, e), trace := s.trace + [e], log := s.log + [frame])
  }

  /** `install_udp_uplink`. */
  function Install(s: Session, flow: nat): Session {
    if s.closed || flow in s.flows then s
    else
      var i := |s.flowOf|;
      s.(flows := s.flows[flow := i], flowOf := s.flowOf[i := flow], queues := s.queues[i := []])
  }

  /** `remove_udp_uplink`. */
  ghost function Remove(cfg: Config, s: Session, flow: nat): Session
    requires Valid(cfg, s.reassembler)
  {
    var s1 := s.(flows := s.flows - {flow}, ready := if flow in s.flows then s.ready - {s.flows[flow]} else s.ready);
    Do(cfg, s1, RemovesFlow(flow), None)
  }

  /** Dropping a receiver removes its flow id from the session, then lets its queue go. */
  ghost function DropReceiver(cfg: Config, s: Session, i: nat): Session
    requires Valid(cfg, s.reassembler)
  {
    if i !in s.queues || i !in s.flowOf then s
    else
      var s1 := Remove(cfg, s, s.flowOf[i]);
      Do(cfg, s1.(queues := s1.queues - {i}), Budgets(s1.reassembler.free + UnitsOf(s.queues[i])), None)
  }

  ghost function CloseAll(cfg: Config, s: Session): Session
    requires Valid(cfg, s.reassembler)
  {
    if s.closed then s
    else Do(cfg, s.(closed := true, flows := map[], ready := s.ready - s.flows.Values), Clears, None)
  }

  /** `enqueue_udp`: a full queue or a receiver that is gone drops the packet. */
  ghost function Enqueue(cfg: Config, s: Session, i: nat, p: Packet): Session
    requires Valid(cfg, s.reassembler)
  {
    if i in s.queues && |s.queues[i]| < QUEUE_SLOTS then s.(queues := s.queues[i := s.queues[i] + [p]])
    else Do(cfg, s, Budgets(s.reassembler.free + p.units), None)
  }

  predicate Open(s: Session, flow: nat) {
    flow in s.flows && s.flows[flow] in s.ready
  }

  /** `handle_unfragmented_udp`. */
  ghost function HandleData(cfg: Config, s: Session, flow: nat, payload: Bytes): Session
    requires Valid(cfg, s.reassembler)
  {
    var free, units := s.reassembler.free, Units(|payload|);
    var frame := Some(Data(flow, payload));
    if Open(s, flow) && units <= free then
      Enqueue(cfg, Do(cfg, s, Budgets(free - units), frame), s.flows[flow], Packet(payload, units, |s.trace|))
    else Do(cfg, s, Budgets(free), frame)
  }

  /** `handle_udp_fragment`. */
  ghost function HandleFragment(cfg: Config, s: Session, flow: nat, f: Fragment, now: int, hint: SlotKey): Session
    requires Valid(cfg, s.reassembler)
  {
    var frame := Some(Piece(flow, f));
    if Open(s, flow) then
      var s1 := Do(cfg, s, Pushes(flow, f, now, hint), frame);
      var o := Push(cfg, s.reassembler, flow, f, now, hint).1;
      if o.Complete? then
        var since := Opened(cfg, s.trace, SlotKey(flow, f.packetId));
        Enqueue(cfg, s1, s.flows[flow], Packet(o.payload, o.reservation, since))
      else s1
    else Do(cfg, s, Budgets(s.reassembler.free), frame)
  }

  /** When the slot of `k` opened. */
  ghost function Opened(cfg: Config, trace: seq<Event>, k: SlotKey): nat {
    if Valid(cfg, New(cfg.maxBytes)) && k in OpenedAt(cfg, New(cfg.maxBytes), trace)
    then OpenedAt(cfg, New(cfg.maxBytes), trace)[k] else 0
  }

  /** One call or task step. `Consumes` is `handle_datagram`, in the read loop or in a drain. */
  datatype Action =
    | Installs(flow: nat)
    | Removes(flow: nat)
    | DropsReceiver(instance: nat)
    | Closes
    | Acknowledges(instance: nat)
    | WritesReady(instance: nat)
    | Activates(instance: nat)
    | Consumes(frame: Frame, now: int, hint: SlotKey)
    | Expires(now: int)
    | Receives(instance: nat)

  ghost function Act(cfg: Config, s: Session, a: Action): Session
    requires Valid(cfg, s.reassembler)
  {
    match a
    case Installs(flow) => Install(s, flow)
    case Removes(flow) => Remove(cfg, s, flow)
    case DropsReceiver(i) => DropReceiver(cfg, s, i)
    case Closes => CloseAll(cfg, s)
    case Acknowledges(i) => s.(acked := s.acked[i := |s.trace|])
    case WritesReady(i) => s.(written := s.written + {i})
    case Activates(i) => s.(ready := s.ready + {i})
    case Consumes(frame, now, hint) =>
      (match frame
       case Data(flow, payload) => HandleData(cfg, s, flow, payload)
       case Piece(flow, f) => HandleFragment(cfg, s, flow, f, now, hint)
       case Close(flow) => Remove(cfg, s, flow))
    case Expires(now) => Do(cfg, s, Ticks(now), None)
    case Receives(i) =>
      if i in s.queues && s.queues[i] != []
      then Do(cfg, s.(queues := s.queues[i := s.queues[i][1..]]),
              Budgets(s.reassembler.free + s.queues[i][0].units), None)
      else s
  }

  /** The order of `relay_paired_udp`: the drain of an instance is acknowledged once, READY is written after
      it, and the flag is raised after READY. Frames come out of the decoder. */
  predicate Enabled(s: Session, a: Action) {
    match a
    case Acknowledges(i) => i in s.flowOf && i !in s.acked
    case WritesReady(i) => i in s.acked
    case Activates(i) => i in s.written
    case Consumes(frame, _, _) => frame.Valid()
    case _ => true
  }

  // ---------------------------------------------------------------------------------------------
  // What every step keeps.

  function UnitsOf(q: Queue): nat {
    if q == [] then 0 else UnitsOf(q[..|q| - 1]) + q[|q| - 1].units
  }

  ghost function QueueUnits(): Queue -> nat {
    (q: Queue) => UnitsOf(q)
  }

  ghost function Queued(queues: map<nat, Queue>): nat {
    Sum(queues, QueueUnits())
  }

  /** Every unit of the budget is free, reserved by a slot, held by a queued packet, or in the hand of the
      running call. */
  ghost predicate Conserved(cfg: Config, r: Reassembler, queues: map<nat, Queue>, hand: nat) {
    r.free + Total(r.slots) + Queued(queues) + hand == cfg.maxBytes
  }

  /** The reassembler is what its trace makes of an empty one. */
  ghost predicate Traced(cfg: Config, r: Reassembler, trace: seq<Event>, log: seq<Option<Frame>>) {
    && Valid(cfg, New(cfg.maxBytes)) && r == After(cfg, New(cfg.maxBytes), trace)
    && |log| == |trace|
    && forall j :: 0 <= j < |trace| && trace[j].Pushes? ==> log[j] == Some(Piece(trace[j].flow, trace[j].f))
  }

  type Flows = map<nat, nat>

  /** Instances: each belongs to one flow, and each flow has at most one. */
  ghost predicate Instances(flows: Flows, flowOf: map<nat, nat>, receivers: set<nat>, closed: bool) {
    && (forall i :: i in flowOf <==> 0 <= i < |flowOf|)
    && (forall f :: f in flows ==> flows[f] in flowOf && flowOf[flows[f]] == f)
    && (forall i :: i in receivers ==> i in flowOf)
    && (closed ==> flows == map[])
  }

  /** READY comes after the drain, the flag after READY. */
  ghost predicate Ordered(ready: set<nat>, written: set<nat>, acked: map<nat, nat>, flowOf: map<nat, nat>, n: nat) {
    && (forall i :: i in ready ==> i in written)
    && (forall i :: i in written ==> i in acked)
    && (forall i :: i in acked ==> i in flowOf && acked[i] <= n)
  }

  /** Every slot belongs to an installed, ready flow and was opened after that flow's drain. */
  ghost predicate SlotsOwned(
    cfg: Config, slots: Slots, trace: seq<Event>, flows: Flows, ready: set<nat>, acked: map<nat, nat>)
  {
    forall k :: k in slots ==>
      k.flow in flows && flows[k.flow] in ready && flows[k.flow] in acked
        && acked[flows[k.flow]] <= Opened(cfg, trace, k)
  }

  /** The packet is one DATA frame of the flow, or made of fragments of one packet of the flow, all of them
      consumed at `since` or later. */
  ghost predicate Genuine(trace: seq<Event>, log: seq<Option<Frame>>, flow: nat, p: Packet) {
    || (p.since < |log| && log[p.since] == Some(Data(flow, p.payload)))
    || exists id, count, at, parts ::
         MadeFrom(trace, p.since, SlotKey(flow, id), count, |p.payload|, p.payload, at, parts)
  }

  /** A packet an instance may hold. */
  ghost predicate PacketOk(
    trace: seq<Event>, log: seq<Option<Frame>>, flowOf: map<nat, nat>, written: set<nat>, acked: map<nat, nat>, i: nat,
    p: Packet)
  {
    && i in flowOf && i in written && i in acked && acked[i] <= p.since
    && p.units == Units(|p.payload|)
    && Genuine(trace, log, flowOf[i], p)
  }

  ghost predicate QueueOk(
    q: Queue, trace: seq<Event>, log: seq<Option<Frame>>, flowOf: map<nat, nat>, written: set<nat>,
    acked: map<nat, nat>, i: nat)
  {
    |q| <= QUEUE_SLOTS && forall n :: 0 <= n < |q| ==> PacketOk(trace, log, flowOf, written, acked, i, q[n])
  }

  ghost predicate QueuesOk(
    queues: map<nat, Queue>, trace: seq<Event>, log: seq<Option<Frame>>, flowOf: map<nat, nat>, written: set<nat>,
    acked: map<nat, nat>)
  {
    forall i :: i in queues ==> QueueOk(queues[i], trace, log, flowOf, written, acked, i)
  }

  /** The invariant inside a call that holds `hand` units. */
  ghost predicate Within(cfg: Config, s: Session, hand: nat) {
    && Traced(cfg, s.reassembler, s.trace, s.log)
    && Instances(s.flows, s.flowOf, s.queues.Keys, s.closed)
    && Ordered(s.ready, s.written, s.acked, s.flowOf, |s.trace|)
    && SlotsOwned(cfg, s.reassembler.slots, s.trace, s.flows, s.ready, s.acked)
    && QueuesOk(s.queues, s.trace, s.log, s.flowOf, s.written, s.acked)
    && Conserved(cfg, s.reassembler, s.queues, hand)
  }

  ghost predicate Inv(cfg: Config, s: Session) {
    Within(cfg, s, 0)
  }

  // ---------------------------------------------------------------------------------------------
  // Traces only grow.

  lemma TracedValid(cfg: Config, r: Reassembler, trace: seq<Event>, log: seq<Option<Frame>>)
    requires Traced(cfg, r, trace, log)
    ensures Valid(cfg, r)
  {
    hide Valid, After;
  }

  lemma TraceStep(cfg: Config, r: Reassembler, trace: seq<Event>, e: Event)
    requires Valid(cfg, r) && Valid(cfg, New(cfg.maxBytes)) && r == After(cfg, New(cfg.maxBytes), trace)
    ensures After(cfg, New(cfg.maxBytes), trace + [e]) == Step(cfg, r, e)
  {
    hide Valid, Step;
    var t := trace + [e];
    assert t[..|trace|] == trace && t[|trace|] == e;
  }

  lemma TracedLonger(
    cfg: Config, r: Reassembler, trace: seq<Event>, log: seq<Option<Frame>>, e: Event, frame: Option<Frame>)
    requires Valid(cfg, r) && Traced(cfg, r, trace, log) && (e.Pushes? ==> frame == Some(Piece(e.flow, e.f)))
    ensures Traced(cfg, Step(cfg, r, e), trace + [e], log + [frame])
  {
    TraceStep(cfg, r, trace, e);
    hide Valid, Step, After;
  }

  lemma MadeFromLonger(
    trace: seq<Event>, e: Event, start: nat, k: SlotKey, count: nat, totalLen: nat, payload: Bytes, at: seq<nat>,
    parts: seq<Bytes>)
    requires MadeFrom(trace, start, k, count, totalLen, payload, at, parts)
    ensures MadeFrom(trace + [e], start, k, count, totalLen, payload, at, parts)
  {
    hide Brings, Joined;
    assert forall i :: 0 <= i < |trace| ==> (trace + [e])[i] == trace[i];
  }

  lemma GenuineLonger(trace: seq<Event>, log: seq<Option<Frame>>, e: Event, frame: Option<Frame>, flow: nat, p: Packet)
    requires Genuine(trace, log, flow, p)
    ensures Genuine(trace + [e], log + [frame], flow, p)
  {
    if p.since < |log| && log[p.since] == Some(Data(flow, p.payload)) {
      assert (log + [frame])[p.since] == log[p.since];
    } else {
      var id, count, at, parts :| MadeFrom(trace, p.since, SlotKey(flow, id), count, |p.payload|, p.payload, at, parts);
      MadeFromLonger(trace, e, p.since, SlotKey(flow, id), count, |p.payload|, p.payload, at, parts);
    }
  }

  lemma QueuesLonger(
    queues: map<nat, Queue>, trace: seq<Event>, log: seq<Option<Frame>>, flowOf: map<nat, nat>, written: set<nat>,
    acked: map<nat, nat>, e: Event, frame: Option<Frame>)
    requires QueuesOk(queues, trace, log, flowOf, written, acked)
    ensures QueuesOk(queues, trace + [e], log + [frame], flowOf, written, acked)
  {
    hide Genuine;
    forall i, n | i in queues && 0 <= n < |queues[i]|
      ensures PacketOk(trace + [e], log + [frame], flowOf, written, acked, i, queues[i][n])
    {
      assert QueueOk(queues[i], trace, log, flowOf, written, acked, i);
      assert PacketOk(trace, log, flowOf, written, acked, i, queues[i][n]);
      GenuineLonger(trace, log, e, frame, flowOf[i], queues[i][n]);
    }
  }

  /** Flows and marks may be added without hurting any queue. */
  lemma QueuesGrow(
    queues: map<nat, Queue>, trace: seq<Event>, log: seq<Option<Frame>>, flowOf: map<nat, nat>, written: set<nat>,
    acked: map<nat, nat>, flowOf': map<nat, nat>, written': set<nat>, acked': map<nat, nat>)
    requires QueuesOk(queues, trace, log, flowOf, written, acked)
    requires written <= written' && (forall i :: i in flowOf ==> i in flowOf' && flowOf'[i] == flowOf[i])
    requires forall i :: i in acked ==> i in acked' && acked'[i] == acked[i]
    ensures QueuesOk(queues, trace, log, flowOf', written', acked')
  {
    hide Genuine;
    forall i, n | i in queues && 0 <= n < |queues[i]|
      ensures PacketOk(trace, log, flowOf', written', acked', i, queues[i][n])
    {
      assert QueueOk(queues[i], trace, log, flowOf, written, acked, i);
    }
  }

  /** A slot that is there after a step was there before, opened when it was, or is opened by the step. */
  lemma SlotAfter(cfg: Config, r: Reassembler, trace: seq<Event>, e: Event, k: SlotKey)
    requires Valid(cfg, r) && Valid(cfg, New(cfg.maxBytes)) && r == After(cfg, New(cfg.maxBytes), trace)
    requires k in Step(cfg, r, e).slots
    ensures || (k in r.slots && Opened(cfg, trace + [e], k) == Opened(cfg, trace, k))
            || (e.For(k) && Opened(cfg, trace + [e], k) == |trace|)
  {
    TraceStep(cfg, r, trace, e);
    var t := trace + [e];
    assert t[..|trace|] == trace && t[|trace|] == e;
    hide Valid, Step;
    OpenedStep(cfg, New(cfg.maxBytes), t, k);
    hide After, OpenedAt;
  }
}
