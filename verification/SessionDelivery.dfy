/** What a session delivers: which packet reaches which queue, and what every other call does to queues, routes
    and partial packets. */
module SessionDelivery {
  import opened Wrappers
  import opened Counting
  import opened Datagram
  import opened Reassembly
  import opened ReassemblyRuns
  import opened SlotLifetime
  import opened FragmentRoundTrip
  import opened DatagramSession
  import opened SessionRuns
  import opened VectorRoutes
  import R = ReassemblyRuns

  /** A packet for the flow has somewhere to go: the route is open, its receiver alive and its queue not full. */
  predicate Deliverable(s: Session, flow: nat) {
    Open(s, flow) && s.flows[flow] in s.queues && |s.queues[s.flows[flow]]| < QUEUE_SLOTS
  }

  function WithPacket(s: Session, flow: nat, p: Packet): map<nat, Queue>
    requires Deliverable(s, flow)
  {
    s.queues[s.flows[flow] := s.queues[s.flows[flow]] + [p]]
  }

  /** A DATA frame is queued, whole and behind what waits, exactly when it is deliverable and the budget has room
      for it; it then costs its units. Otherwise no queue changes and no unit is lost. */
  lemma DataDelivers(cfg: Config, s: Session, flow: nat, payload: Bytes)
    requires Valid(cfg, s.reassembler)
    ensures var t, units := HandleData(cfg, s, flow, payload), Units(|payload|);
            if Deliverable(s, flow) && units <= s.reassembler.free then
              && t.queues == WithPacket(s, flow, Packet(payload, units, |s.trace|))
              && t.reassembler == s.reassembler.(free := s.reassembler.free - units)
            else t.queues == s.queues && t.reassembler == s.reassembler
  {
    hide Valid;
  }

  /** A fragment is pushed exactly when its flow is open; the packet it completes is queued exactly when it is
      deliverable, and gives its units back otherwise. */
  lemma FragmentDelivers(cfg: Config, s: Session, flow: nat, f: Fragment, now: int, hint: SlotKey)
    requires Valid(cfg, s.reassembler)
    ensures var t := HandleFragment(cfg, s, flow, f, now, hint);
            var (r, o) := Push(cfg, s.reassembler, flow, f, now, hint);
            if !Open(s, flow) then t.queues == s.queues && t.reassembler == s.reassembler
            else if o.Complete? && Deliverable(s, flow) then
              && t.queues == WithPacket(s, flow, Packet(o.payload, o.reservation,
                                                        Opened(cfg, s.trace, SlotKey(flow, f.packetId))))
              && t.reassembler == r
            else t.queues == s.queues && t.reassembler == r.(free := r.free + Share(o))
  {
    hide Valid, Push, Opened;
  }

  // ---------------------------------------------------------------------------------------------
  // The whole way of a fragmented packet.

  lemma {:induction false} AfterFrom(cfg: Config, r: Reassembler, run: seq<Event>, m: nat)
    requires Valid(cfg, r) && m <= |run|
    ensures R.After(cfg, r, run) == R.After(cfg, R.After(cfg, r, run[..m]), run[m..])
  {
    hide Valid, Step;
    if m == |run| {
      assert run[..m] == run && run[m..] == [];
    } else {
      var init := run[..|run| - 1];
      AfterFrom(cfg, r, init, m);
      TakeTake(run, |run| - 1, m);
      assert run[m..][..|run[m..]| - 1] == init[m..];
    }
  }

  /** Piece `i` of the plan is the last one missing and comes in time; everything the session pushed for this packet
      since position `m` of its trace was a piece of the plan, and nothing since has cost it its slot. */
  ghost predicate LastPieceDue(cfg: Config, s: Session, m: nat, p: Plan, i: nat, now: int, hint: SlotKey) {
    && p.Valid() && i < p.count && m <= |s.trace| && Valid(cfg, New(cfg.maxBytes))
    && var r, run := R.After(cfg, New(cfg.maxBytes), s.trace[..m]), s.trace[m..];
    && var e := Pushes(p.flow, p.Piece(i), now, hint);
    && KeyOf(p) !in r.slots && Honest(run + [e], p) && Survives(cfg, r, run, KeyOf(p))
    && Incomplete(run, p) && !Incomplete(run + [e], p)
    && (Since(run, KeyOf(p)).Some? ==> now - Since(run, KeyOf(p)).value <= cfg.ttl)
  }

  lemma LastPieceCompletes(cfg: Config, s: Session, m: nat, p: Plan, i: nat, now: int, hint: SlotKey)
    requires Inv(cfg, s) && LastPieceDue(cfg, s, m, p, i, now, hint)
    ensures Valid(cfg, s.reassembler)
    ensures var o := Push(cfg, s.reassembler, p.flow, p.Piece(i), now, hint).1;
            o.Complete? && o.payload == p.payload
  {
    hide Honest, Survives, Incomplete, Since, Valid, Plan.Valid, Plan.Piece, Push;
    InvIsValid(cfg, s);
    TraceIs(cfg, s);
    var r, run := R.After(cfg, New(cfg.maxBytes), s.trace[..m]), s.trace[m..];
    AfterFrom(cfg, New(cfg.maxBytes), s.trace, m);
    RoundTrip(cfg, r, run, Pushes(p.flow, p.Piece(i), now, hint), p);
  }

  /** Exactly one packet more, with this payload, behind what waits for the flow; no other queue changes. */
  ghost predicate Arrives(s: Session, t: Session, flow: nat, payload: Bytes)
    requires Deliverable(s, flow)
  {
    exists packet :: t.queues == WithPacket(s, flow, packet) && packet.payload == payload
  }

  /** The fragments of any plan, in any order and with duplicates, among whatever else the session does: when the
      last missing piece comes in time, exactly the original payload is queued for the receiver of its flow. */
  lemma FragmentsArrive(cfg: Config, s: Session, m: nat, p: Plan, i: nat, now: int, hint: SlotKey)
    requires Inv(cfg, s) && LastPieceDue(cfg, s, m, p, i, now, hint) && Deliverable(s, p.flow)
    ensures Valid(cfg, s.reassembler)
    ensures Arrives(s, HandleFragment(cfg, s, p.flow, p.Piece(i), now, hint), p.flow, p.payload)
    ensures Arrives(s, Turn(cfg, s, Reads(Piece(p.flow, p.Piece(i)), now, hint)), p.flow, p.payload)
  {
    LastPieceCompletes(cfg, s, m, p, i, now, hint);
    var f := p.Piece(i);
    hide LastPieceDue, Valid, Within, Plan.Piece, Push, Opened, HandleFragment, Turn;
    FragmentDelivers(cfg, s, p.flow, f, now, hint);
    VectorFragmentDelivers(cfg, s, p.flow, f, now, hint);
    var o := Push(cfg, s.reassembler, p.flow, f, now, hint).1;
    var packet := Packet(o.payload, o.reservation, Opened(cfg, s.trace, SlotKey(p.flow, f.packetId)));
    assert HandleFragment(cfg, s, p.flow, f, now, hint).queues == WithPacket(s, p.flow, packet);
    assert Turn(cfg, s, Reads(Piece(p.flow, f), now, hint)).queues == WithPacket(s, p.flow, packet);
  }

  lemma TraceIs(cfg: Config, s: Session)
    requires Inv(cfg, s) && Valid(cfg, New(cfg.maxBytes))
    ensures s.reassembler == R.After(cfg, New(cfg.maxBytes), s.trace)
  {
    hide Instances, Ordered, SlotsOwned, QueuesOk, Conserved, Valid;
  }

  // ---------------------------------------------------------------------------------------------
  // The vector.

  /** The vector queues a DATA frame under the same condition; the budget aside, nothing else can change a queue. */
  lemma VectorDataDelivers(cfg: Config, s: Session, flow: nat, payload: Bytes, now: int, hint: SlotKey)
    requires Inv(cfg, s)
    ensures var t, units := Turn(cfg, s, Reads(Data(flow, payload), now, hint)), Units(|payload|);
            if Deliverable(s, flow) && units <= s.reassembler.free
            then t.queues == WithPacket(s, flow, Packet(payload, units, |s.trace|)) else t.queues == s.queues
  {
    hide Valid, Within, HandleData, Remove, Units;
    InvIsValid(cfg, s);
    DataKeeps(cfg, s, flow, payload);
    DataDelivers(cfg, s, flow, payload);
    InvIsValid(cfg, HandleData(cfg, s, flow, payload));
    RemoveQueues(cfg, HandleData(cfg, s, flow, payload), flow);
  }

  lemma VectorFragmentDelivers(cfg: Config, s: Session, flow: nat, f: Fragment, now: int, hint: SlotKey)
    requires Inv(cfg, s)
    ensures Valid(cfg, s.reassembler)
    ensures var t := Turn(cfg, s, Reads(Piece(flow, f), now, hint));
            var o := Push(cfg, s.reassembler, flow, f, now, hint).1;
            if Deliverable(s, flow) && o.Complete?
            then t.queues == WithPacket(s, flow, Packet(o.payload, o.reservation,
                                                        Opened(cfg, s.trace, SlotKey(flow, f.packetId))))
            else t.queues == s.queues
  {
    hide Valid, Within, HandleFragment, Remove, Push, Opened;
    InvIsValid(cfg, s);
    FragmentKeeps(cfg, s, flow, f, now, hint);
    FragmentDelivers(cfg, s, flow, f, now, hint);
    InvIsValid(cfg, HandleFragment(cfg, s, flow, f, now, hint));
    RemoveQueues(cfg, HandleFragment(cfg, s, flow, f, now, hint), flow);
  }

  // ---------------------------------------------------------------------------------------------
  // Every other call.

  /** Receiving takes the packet that waited longest, gives its units back, and touches no other queue. */
  lemma ReceiveTakesFirst(cfg: Config, s: Session, i: nat)
    requires Valid(cfg, s.reassembler)
    ensures var t := Act(cfg, s, Receives(i));
            if i in s.queues && s.queues[i] != [] then
              && t.queues == s.queues[i := s.queues[i][1..]]
              && t.reassembler == s.reassembler.(free := s.reassembler.free + s.queues[i][0].units)
              && t.flows == s.flows && t.ready == s.ready
            else t == s
  {
    hide Valid;
  }

  /** A closed session is closed: no route, no raised flag among its routes, no partial packet. What was queued
      stays for its receiver. */
  lemma CloseEmpties(cfg: Config, s: Session)
    requires Inv(cfg, s)
    ensures Valid(cfg, s.reassembler)
    ensures var t := CloseAll(cfg, s);
            && t.closed && t.flows == map[] && t.reassembler.slots == map[] && t.queues == s.queues
            && (!s.closed ==> forall f :: f in s.flows ==> s.flows[f] !in t.ready)
  {
    hide Within, Valid, Total;
    InvIsValid(cfg, s);
    CloseKeeps(cfg, s);
    var t := CloseAll(cfg, s);
    ClosedSlots(cfg, t);
  }

  lemma ClosedSlots(cfg: Config, s: Session)
    requires Inv(cfg, s) && s.closed
    ensures s.flows == map[] && s.reassembler.slots == map[]
  {
    hide Traced, QueuesOk, Conserved, Ordered, Opened;
    assert forall k :: k !in s.reassembler.slots;
  }

  /** Removing a flow takes its route, its flag and its partial packets, and those of no other flow. */
  lemma RemoveTakesItsFlow(cfg: Config, s: Session, flow: nat)
    requires Valid(cfg, s.reassembler)
    ensures var t := Remove(cfg, s, flow);
            && t.flows == s.flows - {flow} && t.queues == s.queues && t.closed == s.closed
            && t.ready == (if flow in s.flows then s.ready - {s.flows[flow]} else s.ready)
            && (forall k :: k in t.reassembler.slots <==> k in s.reassembler.slots && k.flow != flow)
            && (forall k :: k in t.reassembler.slots ==> t.reassembler.slots[k] == s.reassembler.slots[k])
  {
    RemoveStep(cfg, s.reassembler, flow);
    hide Valid, Total;
  }

  /** A tick of the clean-up takes exactly the partial packets older than the TTL. */
  lemma TickTakesStale(cfg: Config, s: Session, now: int)
    requires Valid(cfg, s.reassembler)
    ensures var t := Act(cfg, s, Expires(now));
            && t.reassembler.slots == s.reassembler.slots - Stale(cfg.ttl, s.reassembler.slots, now)
            && t.queues == s.queues && t.flows == s.flows && t.ready == s.ready
  {
    TickIs(cfg, s, now);
    ExpireIsScan(cfg.ttl, s.reassembler, now);
    hide Valid, Expire, Stale, Act;
  }

  /** At the vector a receiver goes with its queue and its units; its route stays until a packet finds it gone. */
  lemma AbandonTakesQueue(cfg: Config, s: Session, i: nat)
    requires Inv(cfg, s)
    ensures var t := Turn(cfg, s, Abandons(i));
            && t.queues == s.queues - {i} && t.flows == s.flows && t.ready == s.ready
            && t.reassembler
               == s.reassembler.(free := s.reassembler.free + if i in s.queues then UnitsOf(s.queues[i]) else 0)
  {
    hide Within, Valid;
    InvIsValid(cfg, s);
    if i !in s.queues {
      MinusAbsent(s.queues, i);
    }
  }

  lemma VectorTickTakesStale(cfg: Config, s: Session, now: int)
    requires Inv(cfg, s)
    ensures var t := Turn(cfg, s, Cleans(now));
            && t.reassembler.slots == s.reassembler.slots - Stale(cfg.ttl, s.reassembler.slots, now)
            && t.queues == s.queues && t.flows == s.flows && t.ready == s.ready
  {
    hide Within, Valid, Stale, Act;
    InvIsValid(cfg, s);
    TickTakesStale(cfg, s, now);
    TickIs(cfg, s, now);
    hide Do;
  }

  lemma TickIs(cfg: Config, s: Session, now: int)
    requires Valid(cfg, s.reassembler)
    ensures Act(cfg, s, Expires(now)) == Do(cfg, s, Ticks(now), None)
  {
    hide Valid, Do;
  }
}
