/** A packet that was cut into fragments comes back whole. */
module FragmentRoundTrip {
  import opened Wrappers
  import opened Counting
  import opened Datagram
  import opened Reassembly
  import opened ReassemblyRuns
  import opened SlotLifetime

  function KeyOf(p: Plan): SlotKey {
    SlotKey(p.flow, p.packetId)
  }

  /** The pieces of the packet `k` that some call of the run brought. */
  ghost function Arrived(run: seq<Event>, k: SlotKey): set<nat> {
    set j | 0 <= j < |run| && run[j].For(k) :: run[j].f.index
  }

  ghost function Brought(e: Event, k: SlotKey): set<nat> {
    if e.For(k) then {e.f.index} else {}
  }

  /** If the call is for this packet, it brings a piece of the plan. */
  predicate HonestCall(e: Event, p: Plan) {
    e.For(KeyOf(p)) ==> e.f.index < p.count && e.f == p.Piece(e.f.index)
  }

  /** Every fragment of the run for this packet is a piece of the plan; anything else may be interleaved. */
  ghost predicate Honest(run: seq<Event>, p: Plan) {
    forall j :: 0 <= j < |run| ==> HonestCall(run[j], p)
  }

  /** When the first fragment of the packet came. */
  ghost function Since(run: seq<Event>, k: SlotKey): Option<int> {
    if run == [] then None
    else
      var n := |run| - 1;
      var before := Since(run[..n], k);
      if before.None? && run[n].For(k) then Some(run[n].now) else before
  }

  /** The first fragment of the packet is admitted, and every later call comes within the TTL of it, does not
      close the flow or the session, and does not evict the slot for another packet. */
  ghost predicate Survives(cfg: Config, r: Reassembler, run: seq<Event>, k: SlotKey)
    requires Valid(cfg, r)
  {
    run == [] || (Survives(cfg, r, run[..|run| - 1], k) && Harmless(cfg, r, run[..|run| - 1], run[|run| - 1], k))
  }

  ghost predicate Harmless(cfg: Config, r: Reassembler, run: seq<Event>, e: Event, k: SlotKey)
    requires Valid(cfg, r)
  {
    match Since(run, k)
    case None => e.For(k) ==> Admits(cfg, After(cfg, r, run), e)
    case Some(since) => Spares(cfg, After(cfg, r, run).slots, e, k, since)
  }

  /** The slot holds exactly the pieces that arrived. */
  ghost predicate Holds(slot: Slot, p: Plan, arrived: set<nat>) {
    && slot.count == p.count == |slot.pieces| && slot.totalLen == |p.payload|
    && forall i :: 0 <= i < p.count ==> slot.pieces[i] == if i in arrived then Some(p.Piece(i).payload) else None
  }

  lemma ArrivedAppend(run: seq<Event>, e: Event, k: SlotKey)
    ensures Arrived(run + [e], k) == Arrived(run, k) + Brought(e, k)
  {
    var more := run + [e];
    assert forall j :: 0 <= j < |run| ==> more[j] == run[j];
    assert more[|run|] == e;
    forall i | i in Arrived(run, k)
      ensures i in Arrived(more, k)
    {
      var j :| 0 <= j < |run| && run[j].For(k) && run[j].f.index == i;
      assert more[j].For(k);
    }
  }

  lemma HonestPrefix(run: seq<Event>, e: Event, p: Plan)
    requires Honest(run + [e], p)
    ensures Honest(run, p) && HonestCall(e, p)
  {
    var more := run + [e];
    assert forall j :: 0 <= j < |run| ==> more[j] == run[j];
    assert more[|run|] == e;
  }

  lemma HoldsFirst(p: Plan, i: nat, now: int)
    requires p.Valid() && i < p.count
    ensures Holds(NewSlot(p.Piece(i), now), p, {i})
  {
  }

  lemma HoldsMore(slot: Slot, p: Plan, arrived: set<nat>, i: nat)
    requires p.Valid() && i < p.count && Holds(slot, p, arrived)
    ensures Holds(WithPiece(slot, p.Piece(i)), p, arrived + {i})
    ensures i in arrived ==> arrived + {i} == arrived
  {
  }

  /** A packet nobody sent anything of has no slot. */
  lemma {:induction false} NoSlotYet(cfg: Config, r: Reassembler, run: seq<Event>, k: SlotKey)
    requires Valid(cfg, r) && k !in r.slots && Arrived(run, k) == {}
    ensures k !in After(cfg, r, run).slots
  {
    if run != [] {
      var n := |run| - 1;
      Snoc(run);
      ArrivedAppend(run[..n], run[n], k);
      NoSlotYet(cfg, r, run[..n], k);
      hide Step;
      if k in After(cfg, r, run).slots {
        StepSlots(cfg, After(cfg, r, run[..n]), run[n], k);
      }
    }
  }

  lemma {:induction false} SinceArrived(run: seq<Event>, k: SlotKey)
    ensures Since(run, k).Some? <==> Arrived(run, k) != {}
  {
    if run != [] {
      var n := |run| - 1;
      Snoc(run);
      ArrivedAppend(run[..n], run[n], k);
      SinceArrived(run[..n], k);
      hide Arrived;
    }
  }

  lemma {:induction false} HeldWithin(pieces: seq<Option<Bytes>>, parts: seq<Bytes>)
    requires |pieces| == |parts|
    requires forall i :: 0 <= i < |pieces| ==> pieces[i].None? || pieces[i] == Some(parts[i])
    ensures HeldLen(pieces) <= |Joined(parts)|
  {
    if pieces != [] {
      var n := |pieces| - 1;
      HeldWithin(pieces[..n], parts[..n]);
    }
  }

  lemma HoldsPieces(slot: Slot, p: Plan, arrived: set<nat>)
    requires Holds(slot, p, arrived)
    ensures |slot.pieces| == |Pieces(p, p.count)|
    ensures forall i :: 0 <= i < |slot.pieces| ==> slot.pieces[i].None? || slot.pieces[i] == Some(Pieces(p, p.count)[i])
    ensures (forall i :: 0 <= i < |slot.pieces| ==> slot.pieces[i].Some?) ==> AllPieces(p) <= arrived
  {
  }

  /** A piece that leaves another one missing fits the slot, whether it is new or a duplicate. */
  lemma PieceFits(slot: Slot, p: Plan, arrived: set<nat>, i: nat)
    requires SlotOk(slot) && p.Valid() && Holds(slot, p, arrived) && i < p.count && !(AllPieces(p) <= arrived + {i})
    ensures Fits(slot, p.Piece(i))
  {
    HoldsIndex(slot, p, arrived, i);
    HoldsMore(slot, p, arrived, i);
    PiecesMakeThePacket(p);
    hide Plan.Valid, Joined, Got, HeldLen, AllPieces;
    if i !in arrived {
      var more := WithPiece(slot, p.Piece(i));
      HoldsPieces(more, p, arrived + {i});
      hide Holds, Pieces, Plan.Piece;
      GotUpdate(slot.pieces, i, p.Piece(i).payload);
      GotAll(more.pieces);
      HeldWithin(more.pieces, Pieces(p, p.count));
    }
  }

  /** The packet's slot was opened at `since` and holds exactly the pieces in `arrived`. */
  ghost predicate KeptIn(slots: Slots, p: Plan, since: int, arrived: set<nat>) {
    KeyOf(p) in slots && slots[KeyOf(p)].createdAt == since && Holds(slots[KeyOf(p)], p, arrived)
  }

  /** A slot that stays takes in the piece it is brought. */
  lemma StayedHolds(cfg: Config, r: Reassembler, e: Event, p: Plan, arrived: set<nat>)
    requires Valid(cfg, r) && p.Valid() && e.For(KeyOf(p)) && e.f.index < p.count && e.f == p.Piece(e.f.index)
    requires KeyOf(p) in r.slots && Holds(r.slots[KeyOf(p)], p, arrived)
    ensures Stays(r.slots, Step(cfg, r, e).slots, KeyOf(p)) ==>
              Holds(Step(cfg, r, e).slots[KeyOf(p)], p, arrived + {e.f.index})
  {
    var k := KeyOf(p);
    if Stays(r.slots, Step(cfg, r, e).slots, k) {
      PieceValid(p, e.f.index);
      StepSlots(cfg, r, e, k);
      StaysIff(cfg, r, e, k);
      ExpireIsScan(cfg.ttl, r, e.now);
      LiveSlots(cfg.ttl, r.slots, e.now, k);
      hide Step, Valid, Expire, Holds, Fits, WithPiece, NewSlot, Room, Plan.Valid, Plan.Piece;
      HoldsIndex(r.slots[k], p, arrived, e.f.index);
      HoldsMore(r.slots[k], p, arrived, e.f.index);
    }
  }

  /** The first fragment. */
  lemma FirstStep(cfg: Config, r: Reassembler, e: Event, p: Plan)
    requires Valid(cfg, r) && p.Valid() && KeyOf(p) !in r.slots && e.For(KeyOf(p)) && HonestCall(e, p)
    ensures KeptIn(Step(cfg, r, e).slots, p, e.now, {e.f.index}) <==> Admits(cfg, r, e)
  {
    PieceValid(p, e.f.index);
    HoldsFirst(p, e.f.index, e.now);
    LiveSlots(cfg.ttl, r.slots, e.now, KeyOf(p));
    NewCreated(e.f, e.now);
    hide Valid, Step, Admits, Holds, Live, NewSlot, Plan.Valid, Plan.Piece;
    OpensIff(cfg, r, e, KeyOf(p));
  }

  lemma NewCreated(f: Fragment, now: int)
    requires f.index < f.count
    ensures NewSlot(f, now).createdAt == now
  {
  }

  /** Every later call, as long as a piece is missing. */
  lemma LaterStep(cfg: Config, r: Reassembler, e: Event, p: Plan, since: int, arrived: set<nat>)
    requires Valid(cfg, r) && p.Valid() && HonestCall(e, p) && KeptIn(r.slots, p, since, arrived)
    requires !(AllPieces(p) <= arrived + Brought(e, KeyOf(p)))
    ensures KeptIn(Step(cfg, r, e).slots, p, since, arrived + Brought(e, KeyOf(p)))
            <==> Spares(cfg, r.slots, e, KeyOf(p), since)
  {
    var k := KeyOf(p);
    assert SlotOk(r.slots[k]);
    hide Holds, Valid, Step, Spares, Fits, AllPieces, SlotOk, Plan.Valid, Plan.Piece;
    StaysIff(cfg, r, e, k);
    if e.For(k) {
      PieceValid(p, e.f.index);
      PieceFits(r.slots[k], p, arrived, e.f.index);
      StayedHolds(cfg, r, e, p, arrived);
    } else {
      assert arrived + {} == arrived;
      if k in Step(cfg, r, e).slots {
        StepSlots(cfg, r, e, k);
      }
    }
  }

  lemma HoldsIndex(slot: Slot, p: Plan, arrived: set<nat>, i: nat)
    requires Holds(slot, p, arrived) && i < p.count
    ensures i < |slot.pieces| && (slot.pieces[i].Some? <==> i in arrived)
    ensures slot.count == p.count && slot.totalLen == |p.payload|
  {
  }

  ghost function Below(n: nat): (s: set<nat>)
    ensures forall i :: i in s <==> 0 <= i < n
  {
    if n == 0 then {} else Below(n - 1) + {n - 1}
  }

  ghost function AllPieces(p: Plan): set<nat> {
    Below(p.count)
  }

  lemma OthersThere(slot: Slot, p: Plan, i: nat)
    requires i < p.count && Holds(slot, p, AllPieces(p) - {i})
    ensures slot.pieces[i].None? && |slot.pieces| == p.count
    ensures var more := slot.pieces[i := Some(p.Piece(i).payload)];
            forall j :: 0 <= j < p.count ==> more[j] == Some(Pieces(p, p.count)[j])
  {
  }

  lemma FullSlot(slot: Slot, p: Plan, i: nat)
    requires SlotOk(slot) && p.Valid() && i < p.count && Holds(slot, p, AllPieces(p) - {i})
    ensures var more := WithPiece(slot, p.Piece(i));
            && more.received == p.count && more.retained == |p.payload| && Gather(more.pieces) == Some(p.payload)
  {
    PiecesMakeThePacket(p);
    hide Plan.Valid, Joined, Got, HeldLen, Gather;
    var payload := p.Piece(i).payload;
    var more := slot.pieces[i := Some(payload)];
    OthersThere(slot, p, i);
    hide Plan.Piece, Pieces, Holds;
    GotUpdate(slot.pieces, i, payload);
    GotAll(more);
    GatherAll(more, Pieces(p, p.count));
  }

  /** The last missing piece completes the packet. */
  lemma LastPiece(cfg: Config, r: Reassembler, p: Plan, i: nat, evicted: bool)
    requires Valid(cfg, r) && p.Valid() && i < p.count && KeyOf(p) in r.slots
    requires Holds(r.slots[KeyOf(p)], p, AllPieces(p) - {i})
    ensures PushKnown(r, KeyOf(p), p.Piece(i), evicted).1 == Complete(p.payload, |p.payload|, evicted)
  {
    hide Plan.Valid, Total;
    var slot := r.slots[KeyOf(p)];
    assert SlotOk(slot);
    FullSlot(slot, p, i);
    hide Valid, SlotOk, Gather, DropSlot, TakeSlot;
  }

  // ---------------------------------------------------------------------------------------------
  // Whole runs.

  ghost predicate Incomplete(run: seq<Event>, p: Plan) {
    !(AllPieces(p) <= Arrived(run, KeyOf(p)))
  }

  /** Once a fragment has come, the packet has the slot it opened, with all that arrived. */
  ghost predicate KeptSince(cfg: Config, r: Reassembler, run: seq<Event>, p: Plan)
    requires Valid(cfg, r)
  {
    var since := Since(run, KeyOf(p));
    since.Some? ==> KeptIn(After(cfg, r, run).slots, p, since.value, Arrived(run, KeyOf(p)))
  }

  /** From its first fragment on, the packet had its slot and the slot had all that arrived. */
  ghost predicate AlwaysKept(cfg: Config, r: Reassembler, run: seq<Event>, p: Plan)
    requires Valid(cfg, r)
  {
    forall n :: 0 <= n <= |run| ==> KeptSince(cfg, r, run[..n], p)
  }

  lemma AlwaysKeptAppend(cfg: Config, r: Reassembler, run: seq<Event>, e: Event, p: Plan)
    requires Valid(cfg, r)
    ensures AlwaysKept(cfg, r, run + [e], p) <==> AlwaysKept(cfg, r, run, p) && KeptSince(cfg, r, run + [e], p)
    ensures AlwaysKept(cfg, r, run, p) ==> KeptSince(cfg, r, run, p)
  {
    hide Valid, KeptSince;
    var more := run + [e];
    assert forall n :: 0 <= n <= |run| ==> more[..n] == run[..n];
    assert more[..|more|] == more && run[..|run|] == run;
    if AlwaysKept(cfg, r, run, p) && KeptSince(cfg, r, more, p) {
      forall n | 0 <= n <= |more|
        ensures KeptSince(cfg, r, more[..n], p)
      {
        assert n <= |run| ==> KeptSince(cfg, r, run[..n], p);
      }
    }
    if AlwaysKept(cfg, r, more, p) {
      forall n | 0 <= n <= |run|
        ensures KeptSince(cfg, r, run[..n], p)
      {
        assert KeptSince(cfg, r, more[..n], p);
      }
    }
  }

  lemma OneMore(cfg: Config, r: Reassembler, run: seq<Event>, e: Event, k: SlotKey)
    requires Valid(cfg, r)
    ensures After(cfg, r, run + [e]) == Step(cfg, After(cfg, r, run), e)
    ensures Since(run + [e], k) == if Since(run, k).None? && e.For(k) then Some(e.now) else Since(run, k)
    ensures Arrived(run + [e], k) == Arrived(run, k) + Brought(e, k)
    ensures Since(run, k).None? ==> Arrived(run, k) == {} && Arrived(run + [e], k) == Brought(e, k)
  {
    hide Step, Valid;
    assert (run + [e])[..|run|] == run;
    ArrivedAppend(run, e, k);
    SinceArrived(run, k);
  }

  lemma LastCall(cfg: Config, r: Reassembler, run: seq<Event>, e: Event, p: Plan)
    requires Valid(cfg, r) && p.Valid() && KeyOf(p) !in r.slots && Honest(run + [e], p) && Incomplete(run + [e], p)
    requires KeptSince(cfg, r, run, p)
    ensures KeptSince(cfg, r, run + [e], p) <==> Harmless(cfg, r, run, e, KeyOf(p))
  {
    var k, before := KeyOf(p), After(cfg, r, run);
    OneMore(cfg, r, run, e, k);
    HonestPrefix(run, e, p);
    hide Since, KeptIn, Honest, Valid, Admits, Spares, Step, After, Arrived, Brought, AllPieces, Plan.Valid, Plan.Piece;
    if Since(run, k).Some? {
      LaterStep(cfg, before, e, p, Since(run, k).value, Arrived(run, k));
    } else if e.For(k) {
      NoSlotYet(cfg, r, run, k);
      BroughtOne(e, k);
      FirstStep(cfg, before, e, p);
    }
  }

  lemma BroughtOne(e: Event, k: SlotKey)
    requires e.For(k)
    ensures Brought(e, k) == {e.f.index}
  {
  }

  /** Surviving is exactly what keeps a packet: as long as a piece is missing, the conditions of `Survives` hold
      if and only if, from the first fragment on, one slot has held all that arrived. */
  lemma {:induction false} SurvivesIffKept(cfg: Config, r: Reassembler, run: seq<Event>, p: Plan)
    requires Valid(cfg, r) && p.Valid() && KeyOf(p) !in r.slots && Honest(run, p) && Incomplete(run, p)
    ensures Survives(cfg, r, run, KeyOf(p)) <==> AlwaysKept(cfg, r, run, p)
  {
    if run != [] {
      var init, e := run[..|run| - 1], run[|run| - 1];
      Snoc(run);
      HonestPrefix(init, e, p);
      ArrivedAppend(init, e, KeyOf(p));
      SurvivesIffKept(cfg, r, init, p);
      hide AlwaysKept, Harmless, KeptSince, Honest, Valid, Arrived, AllPieces, Plan.Valid;
      AlwaysKeptAppend(cfg, r, init, e, p);
      if AlwaysKept(cfg, r, init, p) {
        LastCall(cfg, r, init, e, p);
      }
    }
  }

  /** The call after which nothing is missing. */
  lemma LastArrives(run: seq<Event>, e: Event, p: Plan)
    requires p.Valid() && Honest(run + [e], p) && Incomplete(run, p) && !Incomplete(run + [e], p)
    ensures e.For(KeyOf(p)) && e.f.index < p.count && e.f == p.Piece(e.f.index) && Honest(run, p)
    ensures Since(run, KeyOf(p)).Some?
    ensures Arrived(run, KeyOf(p)) == AllPieces(p) - {e.f.index}
  {
    var k := KeyOf(p);
    HonestPrefix(run, e, p);
    ArrivedAppend(run, e, k);
    ArrivedWithin(run, p);
    SinceArrived(run, k);
    assert e.For(k);
    hide Arrived, Since, Honest, Plan.Piece;
    assert Arrived(run, k) == AllPieces(p) - {e.f.index};
    assert (if e.f.index == 0 then 1 else 0) in AllPieces(p);
  }

  lemma ArrivedWithin(run: seq<Event>, p: Plan)
    requires Honest(run, p)
    ensures Arrived(run, KeyOf(p)) <= AllPieces(p)
  {
  }

  /** The fragmentation round trip: for every plan, whatever the order its fragments arrive in, with
      duplicates and any other calls in between, the call that brings the last missing one yields exactly the
      original payload if it comes within the TTL of the first, and no packet otherwise. */
  lemma RoundTrip(cfg: Config, r: Reassembler, run: seq<Event>, e: Event, p: Plan)
    requires Valid(cfg, r) && p.Valid() && KeyOf(p) !in r.slots
    requires Honest(run + [e], p) && Survives(cfg, r, run, KeyOf(p))
    requires Incomplete(run, p) && !Incomplete(run + [e], p)
    ensures e.For(KeyOf(p)) && Since(run, KeyOf(p)).Some?
    ensures var o := Push(cfg, After(cfg, r, run), e.flow, e.f, e.now, e.hint).1;
            && (o.Complete? <==> e.now - Since(run, KeyOf(p)).value <= cfg.ttl)
            && (o.Complete? ==> o.payload == p.payload && o.reservation == |p.payload|)
  {
    LastArrives(run, e, p);
    SurvivesIffKept(cfg, r, run, p);
    AlwaysKeptAppend(cfg, r, run, e, p);
    PieceValid(p, e.f.index);
    hide AlwaysKept, Survives, Honest, Incomplete, Valid, Plan.Valid, Plan.Piece, Arrived, Since, Push, After, Holds;
    LastPush(cfg, After(cfg, r, run), e, p);
  }

  /** The last missing piece, pushed. */
  lemma LastPush(cfg: Config, r: Reassembler, e: Event, p: Plan)
    requires Valid(cfg, r) && p.Valid() && KeyOf(p) in r.slots && e.For(KeyOf(p)) && WellFormed(e)
    requires e.f.index < p.count && e.f == p.Piece(e.f.index)
    requires Holds(r.slots[KeyOf(p)], p, AllPieces(p) - {e.f.index})
    ensures var o := Push(cfg, r, e.flow, e.f, e.now, e.hint).1;
            && (o.Complete? <==> e.now - r.slots[KeyOf(p)].createdAt <= cfg.ttl)
            && (o.Complete? ==> o.payload == p.payload && o.reservation == |p.payload|)
  {
    var k := KeyOf(p);
    var (r1, evicted) := Expire(cfg.ttl, r, e.now);
    ExpireIsScan(cfg.ttl, r, e.now);
    ExpireKeeps(cfg, r, e.now);
    LiveSlots(cfg.ttl, r.slots, e.now, k);
    hide Valid, Holds, Expire, PushKnown, PushNew, Plan.Valid, Plan.Piece, AllPieces;
    if k in r1.slots {
      LastPiece(cfg, r1, p, e.f.index, evicted);
    } else {
      PushNewKeeps(cfg, r1, k, e.f, e.now, evicted, e.hint);
    }
  }

  // ---------------------------------------------------------------------------------------------
  // Few packets in flight: nothing is evicted.

  /** The packets the run brings fragments of. */
  ghost function Packets(run: seq<Event>): set<SlotKey> {
    set j | 0 <= j < |run| && WellFormed(run[j]) :: SlotKey(run[j].flow, run[j].f.packetId)
  }

  lemma PacketsAppend(run: seq<Event>, e: Event)
    ensures Packets(run) <= Packets(run + [e])
    ensures WellFormed(e) ==> SlotKey(e.flow, e.f.packetId) in Packets(run + [e])
  {
    var more := run + [e];
    assert more[|run|] == e;
    forall k | k in Packets(run)
      ensures k in Packets(more)
    {
      var j :| 0 <= j < |run| && WellFormed(run[j]) && SlotKey(run[j].flow, run[j].f.packetId) == k;
      assert more[j] == run[j];
    }
  }

  lemma {:induction false} SlotsArePackets(cfg: Config, r: Reassembler, run: seq<Event>)
    requires Valid(cfg, r)
    ensures After(cfg, r, run).slots.Keys <= r.slots.Keys + Packets(run)
  {
    if run != [] {
      var init, e := run[..|run| - 1], run[|run| - 1];
      Snoc(run);
      SlotsArePackets(cfg, r, init);
      PacketsAppend(init, e);
      hide Step, Valid, Packets;
      forall k | k in After(cfg, r, run).slots
        ensures k in r.slots.Keys + Packets(run)
      {
        StepSlots(cfg, After(cfg, r, init), e, k);
      }
    }
  }

  /** The call comes within the TTL of the first fragment and closes neither the flow nor the session. */
  predicate InTime(cfg: Config, e: Event, k: SlotKey, since: int) {
    match e
    case Pushes(_, _, now, _) => WellFormed(e) ==> now - since <= cfg.ttl
    case Ticks(now) => now - since <= cfg.ttl
    case RemovesFlow(flow) => flow != k.flow
    case Clears => false
    case Budgets(_) => true
  }

  ghost predicate CallOk(cfg: Config, r: Reassembler, run: seq<Event>, n: nat, k: SlotKey)
    requires Valid(cfg, r) && n < |run|
  {
    match Since(run[..n], k)
    case None => run[n].For(k) ==> Admits(cfg, After(cfg, r, run[..n]), run[n])
    case Some(since) => InTime(cfg, run[n], k, since)
  }

  /** With no more packets about than the table has slots, the clock and the closing calls alone decide:
      whatever else is pushed in between, the slot survives. */
  lemma {:induction false} FewPacketsSurvive(cfg: Config, r: Reassembler, run: seq<Event>, k: SlotKey)
    requires Valid(cfg, r) && |r.slots.Keys + Packets(run)| <= cfg.maxSlots
    requires forall n :: 0 <= n < |run| ==> CallOk(cfg, r, run, n, k)
    ensures Survives(cfg, r, run, k)
  {
    if run != [] {
      var n := |run| - 1;
      var init, e := run[..n], run[n];
      Snoc(run);
      PacketsAppend(init, e);
      SlotsArePackets(cfg, r, init);
      SubsetSize(r.slots.Keys + Packets(init), r.slots.Keys + Packets(run));
      assert CallOk(cfg, r, run, n, k);
      forall m | 0 <= m < n
        ensures CallOk(cfg, r, init, m, k)
      {
        assert CallOk(cfg, r, run, m, k);
        TakeTake(run, n, m);
      }
      hide Valid, Packets;
      FewPacketsSurvive(cfg, r, init, k);
      hide CallOk, Survives;
      if Since(init, k).Some? {
        NobodyEvicted(cfg, After(cfg, r, init).slots, e, k, Since(init, k).value, r.slots.Keys + Packets(run));
      }
    }
  }

  lemma NobodyEvicted(cfg: Config, slots: Slots, e: Event, k: SlotKey, since: int, packets: set<SlotKey>)
    requires InTime(cfg, e, k, since) && slots.Keys <= packets && |packets| <= cfg.maxSlots
    requires WellFormed(e) ==> SlotKey(e.flow, e.f.packetId) in packets
    ensures Spares(cfg, slots, e, k, since)
  {
    if WellFormed(e) {
      var live := Live(cfg.ttl, slots, e.now);
      if SlotKey(e.flow, e.f.packetId) !in live {
        SubsetSize(live.Keys + {SlotKey(e.flow, e.f.packetId)}, packets);
      }
    }
  }
}
