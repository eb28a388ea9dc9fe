/** The DATAGRAM side of the vector's QUIC session as a function of its state (src/vector/session.rs). It keeps
    the state of the portal's session: a route is a flow with an instance, whose queue is there while its
    receiver is. Its flag is raised once READY was read, and a packet that finds the receiver gone takes the
    route away. `acked` and `written` both record the activation. */
module VectorRoutes {
  import opened Wrappers
  import opened Counting
  import opened Datagram
  import opened Reassembly
  import opened ReassemblyRuns
  import opened DatagramSession
  import opened SessionRuns

  /** `activate_udp`; without a route there is nothing to activate. */
  function Activate(s: Session, flow: nat): Session {
    if flow !in s.flows then s
    else
      var i := s.flows[flow];
      s.(acked := if i in s.acked then s.acked else s.acked[i := |s.trace|], written := s.written + {i},
         ready := s.ready + {i})
  }

  /** `clear_udp`. */
  ghost function ClearRoutes(cfg: Config, s: Session): Session
    requires Valid(cfg, s.reassembler)
  {
    Do(cfg, s.(flows := map[], ready := s.ready - s.flows.Values), Event.Clears, None)
  }

  /** A receiver goes with its queue; its route stays until a packet finds it gone. */
  ghost function Abandon(cfg: Config, s: Session, i: nat): Session
    requires Valid(cfg, s.reassembler)
  {
    if i !in s.queues then s
    else Do(cfg, s.(queues := s.queues - {i}), Budgets(s.reassembler.free + UnitsOf(s.queues[i])), None)
  }

  /** A packet of this flow would be handed to a receiver that is gone. */
  predicate Deserted(s: Session, flow: nat) {
    Open(s, flow) && s.flows[flow] !in s.queues
  }

  /** `receive_data`. */
  ghost function ReceiveData(cfg: Config, s: Session, flow: nat, payload: Bytes): Session
    requires Inv(cfg, s)
  {
    DataKeeps(cfg, s, flow, payload);
    Swept(cfg, HandleData(cfg, s, flow, payload), flow, Deserted(s, flow) && Units(|payload|) <= s.reassembler.free)
  }

  /** `receive_fragment`. */
  ghost function ReceiveFragment(cfg: Config, s: Session, flow: nat, f: Fragment, now: int, hint: SlotKey): Session
    requires Inv(cfg, s)
  {
    FragmentKeeps(cfg, s, flow, f, now, hint);
    Swept(cfg, HandleFragment(cfg, s, flow, f, now, hint), flow,
          Deserted(s, flow) && Finishes(cfg, s, flow, f, now, hint))
  }

  /** The fragment completes a packet. */
  ghost predicate Finishes(cfg: Config, s: Session, flow: nat, f: Fragment, now: int, hint: SlotKey)
    requires Inv(cfg, s)
  {
    InvIsValid(cfg, s);
    Push(cfg, s.reassembler, flow, f, now, hint).1.Complete?
  }

  /** The route is taken away if its receiver turned out to be gone. */
  ghost function Swept(cfg: Config, s: Session, flow: nat, gone: bool): Session
    requires Inv(cfg, s)
  {
    InvIsValid(cfg, s);
    if gone then Remove(cfg, s, flow) else s
  }

  /** One call or task step. `Reads` is a turn of the datagram loop that read a frame. */
  datatype Call =
    | Registers(flow: nat)
    | MarksReady(flow: nat)
    | Forgets(flow: nat)
    | Resets
    | Abandons(instance: nat)
    | Reads(frame: Frame, now: int, hint: SlotKey)
    | Cleans(now: int)
    | Delivers(instance: nat)

  ghost function Turn(cfg: Config, s: Session, c: Call): Session
    requires Inv(cfg, s)
  {
    InvIsValid(cfg, s);
    match c
    case Registers(flow) => Install(s, flow)
    case MarksReady(flow) => Activate(s, flow)
    case Forgets(flow) => Remove(cfg, s, flow)
    case Resets => ClearRoutes(cfg, s)
    case Abandons(i) => Abandon(cfg, s, i)
    case Reads(frame, now, hint) =>
      (match frame
       case Data(flow, payload) => ReceiveData(cfg, s, flow, payload)
       case Piece(flow, f) => ReceiveFragment(cfg, s, flow, f, now, hint)
       case Close(flow) => Remove(cfg, s, flow))
    case Cleans(now) => Do(cfg, s, Ticks(now), None)
    case Delivers(i) => Act(cfg, s, Receives(i))
  }

  // ---------------------------------------------------------------------------------------------
  // What every call keeps.

  lemma MarksAre(cfg: Config, s: Session, i: nat)
    requires Valid(cfg, s.reassembler)
    ensures Act(cfg, s, Acknowledges(i)) == s.(acked := s.acked[i := |s.trace|])
    ensures Act(cfg, s, WritesReady(i)) == s.(written := s.written + {i})
    ensures Act(cfg, s, Activates(i)) == s.(ready := s.ready + {i})
  {
    hide Valid, Install, Remove, DropReceiver, CloseAll, HandleData, HandleFragment, Do;
  }

  lemma RouteOf(s: Session, flow: nat)
    requires Instances(s.flows, s.flowOf, s.queues.Keys, s.closed) && flow in s.flows
    ensures s.flows[flow] in s.flowOf
  {
  }

  lemma ActivateKeeps(cfg: Config, s: Session, flow: nat)
    requires Inv(cfg, s)
    ensures Inv(cfg, Activate(s, flow))
  {
    hide Traced, Instances, Ordered, SlotsOwned, QueuesOk, Conserved, Act, Valid;
    if flow in s.flows {
      RouteOf(s, flow);
      hide Within;
      var i := s.flows[flow];
      InvIsValid(cfg, s);
      MarksAre(cfg, s, i);
      var s1 := if i in s.acked then s else Act(cfg, s, Acknowledges(i));
      if i !in s.acked {
        ActKeeps(cfg, s, Acknowledges(i));
      }
      MarksAre(cfg, s1, i);
      ActKeeps(cfg, s1, WritesReady(i));
      var s2 := Act(cfg, s1, WritesReady(i));
      MarksAre(cfg, s2, i);
      ActKeeps(cfg, s2, Activates(i));
    }
  }

  lemma ClearRoutesKeeps(cfg: Config, s: Session)
    requires Inv(cfg, s)
    ensures Valid(cfg, s.reassembler) && Inv(cfg, ClearRoutes(cfg, s))
    ensures ClearRoutes(cfg, s).reassembler.slots == map[]
  {
    hide Valid, SlotsOwned, QueuesOk, Total, Queued, After;
    TracedValid(cfg, s.reassembler, s.trace, s.log);
    TracedLonger(cfg, s.reassembler, s.trace, s.log, Event.Clears, None);
    QueuesLonger(s.queues, s.trace, s.log, s.flowOf, s.written, s.acked, Event.Clears, None);
    CloseStep(cfg, s.reassembler, s.trace, s.ready - s.flows.Values, s.acked);
    hide Traced;
  }

  lemma AbandonKeeps(cfg: Config, s: Session, i: nat)
    requires Inv(cfg, s)
    ensures Valid(cfg, s.reassembler) && Inv(cfg, Abandon(cfg, s, i))
  {
    hide Valid, Traced, SlotsOwned, QueuesOk, Total, Queued, Instances, Ordered, Do;
    TracedValid(cfg, s.reassembler, s.trace, s.log);
    if i in s.queues {
      var units := UnitsOf(s.queues[i]);
      QueueGone(s.queues, i);
      DropQueue(s, i);
      BudgetKeeps(cfg, s.(queues := s.queues - {i}), s.reassembler.free + units, None, units, 0);
    }
  }

  lemma SweptKeeps(cfg: Config, s: Session, flow: nat, gone: bool)
    requires Inv(cfg, s)
    ensures Inv(cfg, Swept(cfg, s, flow, gone))
  {
    hide Within, Valid, Remove;
    RemoveKeeps(cfg, s, flow);
  }

  lemma TurnKeeps(cfg: Config, s: Session, c: Call)
    requires Inv(cfg, s)
    ensures Inv(cfg, Turn(cfg, s, c))
  {
    hide Within, Valid, Install, Activate, Remove, ClearRoutes, Abandon, HandleData, HandleFragment, Swept, Do, Act;
    InvIsValid(cfg, s);
    match c
    case Registers(flow) => InstallKeeps(cfg, s, flow);
    case MarksReady(flow) => ActivateKeeps(cfg, s, flow);
    case Forgets(flow) => RemoveKeeps(cfg, s, flow);
    case Resets => ClearRoutesKeeps(cfg, s);
    case Abandons(i) => AbandonKeeps(cfg, s, i);
    case Reads(frame, now, hint) =>
      match frame {
        case Data(flow, payload) =>
          DataKeeps(cfg, s, flow, payload);
          SweptKeeps(cfg, HandleData(cfg, s, flow, payload), flow,
                     Deserted(s, flow) && Units(|payload|) <= s.reassembler.free);
        case Piece(flow, f) =>
          FragmentKeeps(cfg, s, flow, f, now, hint);
          SweptKeeps(cfg, HandleFragment(cfg, s, flow, f, now, hint), flow,
                     Deserted(s, flow) && Finishes(cfg, s, flow, f, now, hint));
        case Close(flow) => RemoveKeeps(cfg, s, flow);
      }
    case Cleans(now) => TickKeeps(cfg, s, now);
    case Delivers(i) => ReceiveKeeps(cfg, s, i);
  }

  // ---------------------------------------------------------------------------------------------
  // Runs.

  /** The session after a series of calls, in whatever order its tasks make them. */
  ghost function Replay(cfg: Config, s: Session, calls: seq<Call>): (t: Session)
    requires Inv(cfg, s)
    ensures Inv(cfg, t)
  {
    if calls == [] then s
    else
      var mid, c := Replay(cfg, s, calls[..|calls| - 1]), calls[|calls| - 1];
      TurnKeeps(cfg, mid, c);
      Turn(cfg, mid, c)
  }

  ghost function After(cfg: Config, calls: seq<Call>): (s: Session)
    ensures Inv(cfg, s)
  {
    StartInv(cfg);
    Replay(cfg, Start(cfg), calls)
  }

  /** READY gating at the vector: after every run, a packet waits only at an instance whose route was activated,
      it was made from DATAGRAMs of that flow consumed since then, and every partial packet belongs to a
      ready route. */
  lemma ReadyGating(cfg: Config, calls: seq<Call>, i: nat, n: nat)
    ensures var s := After(cfg, calls);
            && (i in s.queues && n < |s.queues[i]| ==>
                  && i in s.acked && i in s.flowOf && s.acked[i] <= s.queues[i][n].since
                  && Genuine(s.trace, s.log, s.flowOf[i], s.queues[i][n]))
            && forall k :: k in s.reassembler.slots ==> Open(s, k.flow)
  {
    hide Traced, Conserved, Instances, QueuesOk, SlotsOwned, After;
    var s := After(cfg, calls);
    OwnersAreOpen(cfg, s);
    hide Within, Genuine;
    if i in s.queues && n < |s.queues[i]| {
      QueueHolds(s.queues, s.trace, s.log, s.flowOf, s.written, s.acked, i, n);
    }
  }

  /** Free budget, slot reservations and queued packets always add up to what the session may hold. */
  lemma BudgetIsConserved(cfg: Config, calls: seq<Call>)
    ensures var s := After(cfg, calls);
            s.reassembler.free + Total(s.reassembler.slots) + Queued(s.queues) == cfg.maxBytes
  {
    hide Traced, Instances, QueuesOk, SlotsOwned, Ordered, After;
    assert Conserved(cfg, After(cfg, calls).reassembler, After(cfg, calls).queues, 0);
  }

  // ---------------------------------------------------------------------------------------------
  // What opens a route and what takes it away.

  /** The fields a frame leaves alone; nothing is queued for a receiver that is gone. */
  ghost predicate Undisturbed(s: Session, t: Session, flow: nat) {
    t.flows == s.flows && t.ready == s.ready && t.acked == s.acked && (Deserted(s, flow) ==> t.queues == s.queues)
  }

  lemma DataFields(cfg: Config, s: Session, flow: nat, payload: Bytes)
    requires Valid(cfg, s.reassembler)
    ensures Undisturbed(s, HandleData(cfg, s, flow, payload), flow)
  {
    hide Valid, Step, Units;
  }

  lemma FragmentFields(cfg: Config, s: Session, flow: nat, f: Fragment, now: int, hint: SlotKey)
    requires Valid(cfg, s.reassembler)
    ensures Undisturbed(s, HandleFragment(cfg, s, flow, f, now, hint), flow)
  {
    hide Valid, Step, Push, Opened;
  }

  /** What reading a frame may change, and that the route goes exactly when `gone`. */
  ghost predicate Sweeps(s: Session, t: Session, flow: nat, gone: bool) {
    && t.ready <= s.ready && t.acked == s.acked && t.flows == (if gone then s.flows - {flow} else s.flows)
    && (gone && Deserted(s, flow) ==> t.queues == s.queues)
  }

  lemma SweptFields(cfg: Config, s: Session, h: Session, flow: nat, gone: bool)
    requires Inv(cfg, h) && Undisturbed(s, h, flow)
    ensures Sweeps(s, Swept(cfg, h, flow, gone), flow, gone)
  {
    hide Valid, Within, Step;
    InvIsValid(cfg, h);
  }

  lemma DataSweeps(cfg: Config, s: Session, flow: nat, payload: Bytes, now: int, hint: SlotKey)
    requires Inv(cfg, s)
    ensures Sweeps(s, Turn(cfg, s, Reads(Data(flow, payload), now, hint)), flow,
                   Deserted(s, flow) && Units(|payload|) <= s.reassembler.free)
  {
    hide Valid, Within, HandleData, Swept, Sweeps, Undisturbed, Deserted, Units;
    InvIsValid(cfg, s);
    DataKeeps(cfg, s, flow, payload);
    DataFields(cfg, s, flow, payload);
    SweptFields(cfg, s, HandleData(cfg, s, flow, payload), flow,
                Deserted(s, flow) && Units(|payload|) <= s.reassembler.free);
  }

  lemma FragmentSweeps(cfg: Config, s: Session, flow: nat, f: Fragment, now: int, hint: SlotKey)
    requires Inv(cfg, s)
    ensures Sweeps(s, Turn(cfg, s, Reads(Piece(flow, f), now, hint)), flow,
                   Deserted(s, flow) && Finishes(cfg, s, flow, f, now, hint))
  {
    hide Valid, Within, HandleFragment, Swept, Sweeps, Undisturbed, Deserted, Finishes;
    InvIsValid(cfg, s);
    FragmentKeeps(cfg, s, flow, f, now, hint);
    FragmentFields(cfg, s, flow, f, now, hint);
    SweptFields(cfg, s, HandleFragment(cfg, s, flow, f, now, hint), flow,
                Deserted(s, flow) && Finishes(cfg, s, flow, f, now, hint));
  }

  lemma RemovedFields(cfg: Config, s: Session, flow: nat)
    requires Valid(cfg, s.reassembler)
    ensures Remove(cfg, s, flow).ready <= s.ready
  {
    hide Valid, Step;
  }

  /** A route becomes ready only when it is activated, and what it may receive dates from then. */
  lemma OnlyActivationOpens(cfg: Config, s: Session, c: Call, i: nat)
    requires Inv(cfg, s) && i in Turn(cfg, s, c).ready && i !in s.ready
    ensures c.MarksReady? && c.flow in s.flows && s.flows[c.flow] == i && i in s.flowOf && s.flowOf[i] == c.flow
    ensures var t := Turn(cfg, s, c);
            i in t.acked && t.acked[i] == if i in s.acked then s.acked[i] else |s.trace|
  {
    hide Valid, Within, Remove, ReceiveData, ReceiveFragment, Finishes, Units, Step;
    InvIsValid(cfg, s);
    match c
    case Reads(Data(flow, payload), now, hint) => DataSweeps(cfg, s, flow, payload, now, hint);
    case Reads(Piece(flow, f), now, hint) => FragmentSweeps(cfg, s, flow, f, now, hint);
    case Reads(Close(flow), _, _) => RemovedFields(cfg, s, flow);
    case Forgets(flow) => RemovedFields(cfg, s, flow);
    case MarksReady(flow) => BelongsTo(cfg, s, flow);
    case _ =>
  }

  lemma BelongsTo(cfg: Config, s: Session, flow: nat)
    requires Inv(cfg, s)
    ensures flow in s.flows ==> s.flows[flow] in s.flowOf && s.flowOf[s.flows[flow]] == flow
  {
    hide Traced, Conserved, QueuesOk, SlotsOwned, Ordered;
  }

  /** Nothing of the flow is left: no route, no partial packet. */
  ghost predicate Vanished(s: Session, flow: nat) {
    flow !in s.flows && forall k :: k in s.reassembler.slots ==> k.flow != flow
  }

  lemma NoRouteNoSlots(cfg: Config, s: Session, flow: nat)
    requires Inv(cfg, s) && flow !in s.flows
    ensures Vanished(s, flow)
  {
    hide Traced, Conserved, QueuesOk, Instances, Ordered, Opened;
  }

  /** A DATA frame takes a route away exactly when it gets as far as a receiver that is gone; then nothing of
      the flow is left, the packet is queued nowhere, and no other route is touched. */
  lemma DataSweepsIff(cfg: Config, s: Session, flow: nat, payload: Bytes, now: int, hint: SlotKey)
    requires Inv(cfg, s) && flow in s.flows
    ensures var t := Turn(cfg, s, Reads(Data(flow, payload), now, hint));
            && (Vanished(t, flow) <==> Deserted(s, flow) && Units(|payload|) <= s.reassembler.free)
            && t.flows - {flow} == s.flows - {flow} && (flow !in t.flows ==> t.queues == s.queues)
  {
    hide Valid, Within, Turn, Units;
    TurnKeeps(cfg, s, Reads(Data(flow, payload), now, hint));
    DataSweeps(cfg, s, flow, payload, now, hint);
    var t := Turn(cfg, s, Reads(Data(flow, payload), now, hint));
    if flow !in t.flows {
      NoRouteNoSlots(cfg, t, flow);
    }
  }

  /** A fragment does so exactly when it completes a packet for a receiver that is gone. */
  lemma FragmentSweepsIff(cfg: Config, s: Session, flow: nat, f: Fragment, now: int, hint: SlotKey)
    requires Inv(cfg, s) && flow in s.flows
    ensures var t := Turn(cfg, s, Reads(Piece(flow, f), now, hint));
            && (Vanished(t, flow) <==> Deserted(s, flow) && Finishes(cfg, s, flow, f, now, hint))
            && t.flows - {flow} == s.flows - {flow} && (flow !in t.flows ==> t.queues == s.queues)
  {
    hide Valid, Within, Turn, Finishes;
    TurnKeeps(cfg, s, Reads(Piece(flow, f), now, hint));
    FragmentSweeps(cfg, s, flow, f, now, hint);
    var t := Turn(cfg, s, Reads(Piece(flow, f), now, hint));
    if flow !in t.flows {
      NoRouteNoSlots(cfg, t, flow);
    }
  }
}
