/** Sending one UDP packet as DATAGRAMs, planned again when the limit shrinks (src/common/datagram.rs). */
module PacketSender {
  import opened Wrappers
  import opened Datagram
  import opened IdCycle

  // ---------------------------------------------------------------------------------------------
  // The sender.

  /** One fragment plan: the first `sent` frames went out, under the `number`-th identifier. */
  datatype Attempt = Attempt(number: nat, plan: Plan, sent: nat)

  datatype Result = Sent | DroppedTooLarge | Failed

  datatype Reply = Accepted | TooLarge | Broken

  function Tail<T>(s: seq<T>): seq<T> {
    if s == [] then [] else s[1..]
  }

  /** A connection with nothing left to say is broken. */
  function FirstReply(replies: seq<Reply>): Reply {
    if replies == [] then Broken else replies[0]
  }

  function FirstLimit(limits: seq<Option<nat>>): Option<nat> {
    if limits == [] then None else limits[0]
  }

  /** What stops `n` frames in a row, or `Accepted` when nothing does. */
  function Drive(replies: seq<Reply>, n: nat): Reply {
    if n == 0 then Accepted
    else if FirstReply(replies).Accepted? then Drive(Tail(replies), n - 1)
    else FirstReply(replies)
  }

  /** The replies left after that. */
  function Undriven(replies: seq<Reply>, n: nat): seq<Reply> {
    if n == 0 then replies
    else if FirstReply(replies).Accepted? then Undriven(Tail(replies), n - 1)
    else Tail(replies)
  }

  /** How many frames one round takes: one that fits, or a plan; none when the packet cannot be sent at all. */
  function FramesNeeded(limit: Option<nat>, flow: nat, payload: Bytes): Option<nat> {
    if limit.None? then None
    else if |payload| + HEADER_LEN <= limit.value then if flow == 0 then None else Some(1)
    else
      var plan := MakePlan(flow, 1, payload, limit.value);
      if plan.None? then None else Some(plan.value.count)
  }

  /** What the connection's limits and replies make of a packet in so many rounds. */
  function Fate(limits: seq<Option<nat>>, replies: seq<Reply>, flow: nat, payload: Bytes, rounds: nat): Result {
    if rounds == 0 then DroppedTooLarge
    else
      var n := FramesNeeded(FirstLimit(limits), flow, payload);
      if n.None? then Failed
      else
        match Drive(replies, n.value)
        case Accepted => Sent
        case TooLarge => Fate(Tail(limits), Undriven(replies, n.value), flow, payload, rounds - 1)
        case Broken => Failed
  }

  lemma FateUnfolds(limits: seq<Option<nat>>, replies: seq<Reply>, flow: nat, payload: Bytes, rounds: nat)
    ensures Fate(limits, replies, flow, payload, 0) == DroppedTooLarge
    ensures rounds > 0 ==>
              var n := FramesNeeded(FirstLimit(limits), flow, payload);
              Fate(limits, replies, flow, payload, rounds) ==
              if n.None? || Drive(replies, n.value).Broken? then Failed
              else if Drive(replies, n.value).Accepted? then Sent
              else Fate(Tail(limits), Undriven(replies, n.value), flow, payload, rounds - 1)
  {
  }

  lemma DriveNext(replies: seq<Reply>, n: nat)
    requires n > 0
    ensures FirstReply(replies).Accepted? ==>
              Drive(replies, n) == Drive(Tail(replies), n - 1) && Undriven(replies, n) == Undriven(Tail(replies), n - 1)
    ensures !FirstReply(replies).Accepted? ==>
              Drive(replies, n) == FirstReply(replies) && Undriven(replies, n) == Tail(replies)
  {
  }

  lemma DriveNone(replies: seq<Reply>)
    ensures Drive(replies, 0) == Accepted && Undriven(replies, 0) == replies
  {
  }

  lemma DriveOne(replies: seq<Reply>)
    ensures Drive(replies, 1) == FirstReply(replies) && Undriven(replies, 1) == Tail(replies)
  {
  }

  lemma OneFrame(limit: nat, flow: nat, payload: Bytes)
    requires |payload| + HEADER_LEN <= limit
    ensures FramesNeeded(Some(limit), flow, payload) == if flow == 0 then None else Some(1)
  {
  }

  lemma NoLimit(flow: nat, payload: Bytes)
    ensures FramesNeeded(None, flow, payload) == None
  {
  }

  /** All frames go through exactly when the connection accepts as many in a row. */
  lemma {:induction false} DriveAccepts(replies: seq<Reply>, n: nat)
    ensures Drive(replies, n).Accepted? <==> n <= |replies| && forall i :: 0 <= i < n ==> replies[i].Accepted?
    ensures Drive(replies, n).Accepted? ==> Undriven(replies, n) == replies[n..]
  {
    if n > 0 && replies != [] {
      DriveAccepts(replies[1..], n - 1);
      assert forall i :: 1 <= i < |replies| ==> replies[i] == replies[1..][i - 1];
    }
  }

  /** Otherwise it is the first refusal that decides, and what comes after it is left for the next round. */
  lemma {:induction false} DriveStops(replies: seq<Reply>, n: nat, i: nat)
    requires i < n && i <= |replies| && forall j :: 0 <= j < i ==> replies[j].Accepted?
    requires i < |replies| ==> !replies[i].Accepted?
    ensures Drive(replies, n) == if i < |replies| then replies[i] else Broken
    ensures Undriven(replies, n) == if i < |replies| then replies[i + 1..] else []
  {
    if i > 0 {
      assert forall j :: 0 <= j < |replies| - 1 ==> replies[1..][j] == replies[j + 1];
      DriveStops(replies[1..], n - 1, i - 1);
    }
  }

  /** A packet is sent exactly when its first round is accepted whole, or ends in TooLarge and its second one is. */
  lemma SentIff(limits: seq<Option<nat>>, replies: seq<Reply>, flow: nat, payload: Bytes)
    ensures var n := FramesNeeded(FirstLimit(limits), flow, payload);
            var m := FramesNeeded(FirstLimit(Tail(limits)), flow, payload);
            Fate(limits, replies, flow, payload, 2).Sent? <==>
              && n.Some?
              && (|| Drive(replies, n.value).Accepted?
                  || (&& Drive(replies, n.value).TooLarge? && m.Some?
                      && Drive(Undriven(replies, n.value), m.value).Accepted?))
  {
    hide Fate, Drive, Undriven, FramesNeeded;
    var n := FramesNeeded(FirstLimit(limits), flow, payload);
    FateUnfolds(limits, replies, flow, payload, 2);
    if n.Some? {
      FateUnfolds(Tail(limits), Undriven(replies, n.value), flow, payload, 1);
      var m := FramesNeeded(FirstLimit(Tail(limits)), flow, payload);
      if m.Some? {
        FateUnfolds(Tail(Tail(limits)), Undriven(Undriven(replies, n.value), m.value), flow, payload, 0);
      }
    }
  }

  /** The connection: the limits and replies it is going to give, and what it has taken. */
  class Wire {
    var limits: seq<Option<nat>>
    var replies: seq<Reply>
    var sent: seq<Bytes>

    method Limit() returns (limit: Option<nat>)
      modifies this
      ensures sent == old(sent) && replies == old(replies)
      ensures limit == FirstLimit(old(limits)) && limits == Tail(old(limits))
    {
      if limits == [] {
        return None;
      }
      limit := limits[0];
      limits := limits[1..];
    }

    method Send(frame: Bytes) returns (reply: Reply)
      modifies this
      ensures sent == (if reply.Accepted? then old(sent) + [frame] else old(sent)) && limits == old(limits)
      ensures reply == FirstReply(old(replies)) && replies == Tail(old(replies))
    {
      if replies == [] {
        return Broken;
      }
      reply := replies[0];
      replies := replies[1..];
      if reply.Accepted? {
        sent := sent + [frame];
      }
    }
  }

  /** The frames of the first `n` pieces. */
  ghost function Frames(p: Plan, n: nat): seq<Bytes>
    requires p.Valid() && n <= p.count
  {
    seq(n, i requires 0 <= i < n => FrameAt(p, i))
  }

  lemma FramesNone(p: Plan)
    requires p.Valid()
    ensures Frames(p, 0) == []
  {
  }

  lemma FramesNext(p: Plan, n: nat)
    requires p.Valid() && n < p.count
    ensures Frames(p, n + 1) == Frames(p, n) + [FrameAt(p, n)]
  {
  }

  ghost predicate Planned(tried: seq<Attempt>) {
    forall a :: 0 <= a < |tried| ==> tried[a].plan.Valid() && tried[a].sent <= tried[a].plan.count
  }

  /** Everything a series of attempts put on the wire. */
  ghost function AllFrames(tried: seq<Attempt>): seq<Bytes>
    requires Planned(tried)
  {
    if tried == [] then []
    else
      var n := |tried| - 1;
      AllFrames(tried[..n]) + Frames(tried[n].plan, tried[n].sent)
  }

  lemma NoFrames()
    ensures AllFrames([]) == []
  {
  }

  lemma AllFramesAppend(tried: seq<Attempt>, a: Attempt)
    requires Planned(tried) && a.plan.Valid() && a.sent <= a.plan.count
    ensures Planned(tried + [a]) && AllFrames(tried + [a]) == AllFrames(tried) + Frames(a.plan, a.sent)
  {
    assert (tried + [a])[..|tried|] == tried;
  }

  /** Attempts are numbered upwards, each under its own identifier. */
  ghost predicate Numbered(first: nat, taken: nat, history: seq<Attempt>) {
    && first < WORD
    && (forall a :: 0 <= a < |history| ==>
          && history[a].plan.Valid() && history[a].sent <= history[a].plan.count && history[a].number < taken
          && history[a].plan.packetId == IdAt(first, history[a].number))
    && (forall a, b :: 0 <= a < b < |history| ==> history[a].number < history[b].number)
  }

  /** The attempts from `lo` to `hi` are those of one packet: all but the last were given up. */
  ghost predicate OneCall(history: seq<Attempt>, lo: nat, hi: nat) {
    && lo <= hi <= |history|
    && (forall a :: lo <= a < hi - 1 ==> history[a].sent < history[a].plan.count)
    && (forall a, b :: lo <= a < b < hi ==> history[a].plan.payload == history[b].plan.payload)
  }

  /** Whatever identifier it has, a packet is cut the same way. */
  lemma SamePlan(flow: nat, id: nat, payload: Bytes, limit: nat)
    requires IdOk(id)
    ensures MakePlan(flow, id, payload, limit).Some? <==> MakePlan(flow, 1, payload, limit).Some?
    ensures MakePlan(flow, id, payload, limit).Some? ==>
              MakePlan(flow, id, payload, limit).value.count == MakePlan(flow, 1, payload, limit).value.count
  {
  }

  lemma OnePlaceOn(next: nat)
    requires next < WORD
    ensures IdAt(next, 0) == AtLeastOne(next) && IdOk(AtLeastOne(next))
    ensures Ahead(next, 1, AtLeastOne((AtLeastOne(next) + 1) % WORD))
  {
    Advance(next, 0);
    var after := AtLeastOne((AtLeastOne(next) + 1) % WORD);
    forall n: nat
      ensures IdAt(after, n) == IdAt(next, 1 + n)
    {
      Advance(next, n);
    }
  }

  class PacketSender {
    const flow: nat
    var nextPacketId: nat
    ghost const first: nat
    ghost var taken: nat
    ghost var history: seq<Attempt>

    ghost predicate Valid()
      reads this
    {
      && nextPacketId < WORD
      && Ahead(first, taken, nextPacketId)
      && Numbered(first, taken, history)
      && forall a :: 0 <= a < |history| ==> history[a].plan.flow == flow
    }

    constructor (flow: nat, next: nat)
      requires next < WORD
      ensures Valid() && this.flow == flow && history == []
    {
      this.flow, nextPacketId := flow, next;
      first, taken, history := next, 0, [];
      new;
      AheadNone(next);
    }

    method TakePacketId() returns (id: nat)
      requires Valid()
      modifies this
      ensures Valid() && taken == old(taken) + 1 && history == old(history)
      ensures id == IdAt(first, old(taken)) && IdOk(id)
    {
      hide IdAt, Ahead, Plan.Valid;
      ghost var was := nextPacketId;
      id := if nextPacketId < 1 then 1 else nextPacketId;
      nextPacketId := (id + 1) % WORD;
      if nextPacketId < 1 {
        nextPacketId := 1;
      }
      OnePlaceOn(was);
      AheadNow(first, taken, was);
      AheadTogether(first, taken, was, 1, nextPacketId);
      taken := taken + 1;
    }

    /** Sends the frames of a plan until one is refused. */
    method SendPlan(wire: Wire, plan: Plan) returns (reply: Reply, ghost n: nat)
      requires plan.Valid()
      modifies wire
      ensures n <= plan.count && (reply.Accepted? <==> n == plan.count)
      ensures wire.sent == old(wire.sent) + Frames(plan, n) && wire.limits == old(wire.limits)
      ensures reply == Drive(old(wire.replies), plan.count) && wire.replies == Undriven(old(wire.replies), plan.count)
    {
      hide Plan.Valid, FrameAt, Frames, Drive, Undriven;
      var fragments := new UdpFragments(plan);
      n := 0;
      FramesNone(plan);
      var frame := fragments.Next();
      while frame.Some?
        invariant fragments.Valid() && fragments.plan == plan && fresh(fragments)
        invariant n <= plan.count && fragments.next == n + (if frame.Some? then 1 else 0)
        invariant if n < plan.count then frame == Some(FrameAt(plan, n)) else frame == None
        invariant wire.sent == old(wire.sent) + Frames(plan, n) && wire.limits == old(wire.limits)
        invariant Drive(old(wire.replies), plan.count) == Drive(wire.replies, plan.count - n)
        invariant Undriven(old(wire.replies), plan.count) == Undriven(wire.replies, plan.count - n)
        decreases plan.count - n
      {
        DriveNext(wire.replies, plan.count - n);
        reply := wire.Send(frame.value);
        if !reply.Accepted? {
          return;
        }
        FramesNext(plan, n);
        n := n + 1;
        frame := fragments.Next();
      }
      DriveNone(wire.replies);
      reply := Accepted;
    }

    /** `send_quic_udp_packet`: at most two plans, each under a fresh identifier and from fragment zero. Only
        the last one can be complete; `Sent` means that it is, or that one DATA frame took the packet whole. */
    method SendPacket(wire: Wire, payload: Bytes) returns (result: Result, ghost tried: seq<Attempt>, ghost whole: bool)
      requires Valid() && flow < WORD
      modifies this, wire
      ensures Valid() && history == old(history) + tried && |tried| <= 2 && Planned(tried)
      ensures OneCall(history, |old(history)|, |history|)
      ensures forall a :: 0 <= a < |tried| ==> tried[a].plan.payload == payload
      ensures result.Sent? <==> whole || (tried != [] && tried[|tried| - 1].sent == tried[|tried| - 1].plan.count)
      ensures forall a :: 0 <= a < |tried| && (a + 1 < |tried| || whole || !result.Sent?) ==>
              tried[a].sent < tried[a].plan.count
      ensures whole ==> IdOk(flow)
      ensures result == Fate(old(wire.limits), old(wire.replies), flow, payload, 2)
      ensures wire.sent == old(wire.sent) + AllFrames(tried) + if whole then [BaseHeader(DATA, flow) + payload] else []
    {
      hide Plan.Valid, Frames, IdAt, Ahead, Numbered, AllFrames, U32Bytes, Fate, Drive, Undriven, FramesNeeded;
      NoFrames();
      tried, whole := [], false;
      var round := 0;
      while round < 2
        invariant 0 <= round <= 2 && |tried| <= round && !whole && Planned(tried)
        invariant Valid() && history == old(history) + tried
        invariant forall a :: 0 <= a < |tried| ==>
                    tried[a].plan.payload == payload && tried[a].sent < tried[a].plan.count
        invariant wire.sent == old(wire.sent) + AllFrames(tried)
        invariant Fate(old(wire.limits), old(wire.replies), flow, payload, 2)
               == Fate(wire.limits, wire.replies, flow, payload, 2 - round)
        decreases 2 - round
      {
        FateUnfolds(wire.limits, wire.replies, flow, payload, 2 - round);
        DriveOne(wire.replies);
        round := round + 1;
        var limit := wire.Limit();
        if limit.None? {
          NoLimit(flow, payload);
          return Failed, tried, false;
        }
        if |payload| + HEADER_LEN <= limit.value {
          OneFrame(limit.value, flow, payload);
          if flow == 0 {
            return Failed, tried, false;
          }
          var reply := wire.Send(BaseHeader(DATA, flow) + payload);
          match reply {
            case Accepted => return Sent, tried, true;
            case TooLarge => continue;
            case Broken => return Failed, tried, false;
          }
        }
        var reply;
        ghost var attempt;
        reply, attempt := TryPlan(wire, payload, limit.value);
        if attempt.Some? {
          AllFramesAppend(tried, attempt.value);
          tried := tried + [attempt.value];
        }
        match reply {
          case Accepted => return Sent, tried, false;
          case TooLarge =>
          case Broken => return Failed, tried, false;
        }
      }
      FateUnfolds(wire.limits, wire.replies, flow, payload, 0);
      return DroppedTooLarge, tried, false;
    }

    /** One plan under a fresh identifier. A packet no plan fits ends the call like a broken connection. */
    method TryPlan(wire: Wire, payload: Bytes, limit: nat) returns (reply: Reply, ghost attempt: Option<Attempt>)
      requires Valid() && flow < WORD
      modifies this, wire
      ensures Valid() && history == old(history) + (if attempt.Some? then [attempt.value] else [])
      ensures attempt.None? ==> reply.Broken? && wire.sent == old(wire.sent)
      ensures attempt.Some? ==>
                && attempt.value.plan.Valid() && attempt.value.plan.payload == payload
                && attempt.value.sent <= attempt.value.plan.count
                && (reply.Accepted? <==> attempt.value.sent == attempt.value.plan.count)
                && wire.sent == old(wire.sent) + Frames(attempt.value.plan, attempt.value.sent)
      ensures wire.limits == old(wire.limits)
      ensures |payload| + HEADER_LEN > limit ==>
                var n := FramesNeeded(Some(limit), flow, payload);
                && (attempt.Some? <==> n.Some?)
                && (n.Some? ==> reply == Drive(old(wire.replies), n.value)
                                && wire.replies == Undriven(old(wire.replies), n.value))
    {
      var id := TakePacketId();
      var plan := MakePlan(flow, id, payload, limit);
      SamePlan(flow, id, payload, limit);
      if plan.None? {
        return Broken, None;
      }
      PlanExists(flow, id, payload, limit);
      ghost var n;
      reply, n := SendPlan(wire, plan.value);
      attempt := Some(Attempt(taken - 1, plan.value, n));
      history := history + [attempt.value];
    }
  }
}
