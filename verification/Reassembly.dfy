/** The fragment reassembler as a function of its state (src/protocol/datagram.rs). Each slot holds a
    reservation of its total length in a byte budget; `free` is what that budget has left. */
module Reassembly {
  import opened Wrappers
  import opened Counting
  import opened Datagram

  datatype Config = Config(maxSlots: nat, maxBytes: nat, ttl: nat)
  datatype SlotKey = SlotKey(flow: nat, packetId: nat)

  datatype Slot = Slot(
    createdAt: int,
    count: nat,
    totalLen: nat,
    pieces: seq<Option<Bytes>>,
    received: nat,
    retained: nat)

  type Slots = map<SlotKey, Slot>

  datatype Reassembler = Reassembler(slots: Slots, reserved: nat, nextExpiry: Option<int>, free: nat)

  datatype DropReason = MetadataConflict | DuplicateConflict | ByteLimit | InvalidLength

  /** `reservation` is the budget share that leaves with a complete packet. */
  datatype Outcome =
    | Pending(evicted: bool)
    | Complete(payload: Bytes, reservation: nat, evicted: bool)
    | Dropped(reason: DropReason)

  /** The budget units of a packet: at least one, so that empty packets are bounded too. */
  function Units(len: nat): nat {
    if len == 0 then 1 else len
  }

  function SatSub(a: nat, b: nat): nat {
    if a >= b then a - b else 0
  }

  ghost function TotalLen(): Slot -> nat {
    (s: Slot) => s.totalLen
  }

  ghost function Total(slots: Slots): nat {
    Sum(slots, TotalLen())
  }

  /** Every piece in index order, unless one is missing. */
  function Gather(pieces: seq<Option<Bytes>>): Option<Bytes> {
    if pieces == [] then Some([])
    else
      var init, last := Gather(pieces[..|pieces| - 1]), pieces[|pieces| - 1];
      if init.Some? && last.Some? then Some(init.value + last.value) else None
  }

  // ---------------------------------------------------------------------------------------------
  // Removal.

  function IfAny(slots: Slots, t: Option<int>): Option<int> {
    if slots == map[] then None else t
  }

  /** The slot goes; its reservation is still held by the caller. */
  function TakeSlot(r: Reassembler, key: SlotKey): Reassembler
    requires key in r.slots
  {
    var rest := r.slots - {key};
    r.(slots := rest, reserved := SatSub(r.reserved, r.slots[key].totalLen), nextExpiry := IfAny(rest, r.nextExpiry))
  }

  function DropSlot(r: Reassembler, key: SlotKey): Reassembler
    requires key in r.slots
  {
    var t := TakeSlot(r, key);
    t.(free := t.free + r.slots[key].totalLen)
  }

  function OfFlow(slots: Slots, flow: nat): set<SlotKey> {
    set k | k in slots && k.flow == flow
  }

  ghost function RemoveFlow(r: Reassembler, flow: nat): Reassembler {
    var gone := OfFlow(r.slots, flow);
    var bytes := Total(Part(r.slots, gone));
    Reassembler(r.slots - gone, SatSub(r.reserved, bytes), IfAny(r.slots - gone, r.nextExpiry), r.free + bytes)
  }

  ghost function Clear(r: Reassembler): Reassembler {
    Reassembler(map[], 0, None, r.free + Total(r.slots))
  }

  // ---------------------------------------------------------------------------------------------
  // Expiry.

  /** Slots older than the TTL; one exactly that old stays. */
  function Stale(ttl: nat, slots: Slots, now: int): set<SlotKey> {
    set k | k in slots && now - slots[k].createdAt > ttl
  }

  ghost predicate IsOldest(slots: Slots, k: SlotKey) {
    k in slots && forall j :: j in slots ==> slots[k].createdAt <= slots[j].createdAt
  }

  lemma {:induction false} OldestExists(slots: Slots)
    requires slots != map[]
    ensures exists k :: IsOldest(slots, k)
    decreases |slots|
  {
    var k :| k in slots;
    var rest := slots - {k};
    MapSize(slots, k, slots[k]);
    if rest == map[] {
      assert forall j :: j in slots ==> j == k || j in rest;
      assert IsOldest(slots, k);
    } else {
      OldestExists(rest);
      var j :| IsOldest(rest, j);
      assert forall i :: i in slots ==> i == k || i in rest;
      assert IsOldest(slots, if slots[k].createdAt <= slots[j].createdAt then k else j);
    }
  }

  /** The slot `min_by_key` finds; ties go by hash order, which `hint` stands for. */
  ghost function Oldest(slots: Slots, hint: SlotKey): (k: SlotKey)
    requires slots != map[]
    ensures IsOldest(slots, k)
    ensures IsOldest(slots, hint) ==> k == hint
  {
    if IsOldest(slots, hint) then hint
    else
      OldestExists(slots);
      var k :| IsOldest(slots, k); k
  }

  /** The earliest deadline of all slots. */
  ghost function Earliest(ttl: nat, slots: Slots): Option<int> {
    if slots == map[] then None else Some(slots[Oldest(slots, SlotKey(0, 0))].createdAt + ttl)
  }

  /** `expire`: returns at once while the cached deadline has not passed. */
  ghost function Expire(ttl: nat, r: Reassembler, now: int): (Reassembler, bool) {
    if r.nextExpiry.None? || now <= r.nextExpiry.value then (r, false)
    else
      var gone := Stale(ttl, r.slots, now);
      var kept, bytes := r.slots - gone, Total(Part(r.slots, gone));
      (Reassembler(kept, SatSub(r.reserved, bytes), Earliest(ttl, kept), r.free + bytes), |kept| != |r.slots|)
  }

  // ---------------------------------------------------------------------------------------------
  // Push.

  function WithPiece(slot: Slot, f: Fragment): Slot
    requires f.index < |slot.pieces|
  {
    slot.(pieces := slot.pieces[f.index := Some(f.payload)], received := slot.received + 1,
          retained := slot.retained + |f.payload|)
  }

  /** Stores a missing piece; the last one completes the packet. */
  function AddPiece(r: Reassembler, key: SlotKey, f: Fragment, evicted: bool): (Reassembler, Outcome)
    requires key in r.slots && f.index < |r.slots[key].pieces|
  {
    var slot := WithPiece(r.slots[key], f);
    var r1 := r.(slots := r.slots[key := slot]);
    if slot.received < slot.count then (r1, Pending(evicted))
    else if slot.retained != slot.totalLen then (DropSlot(r1, key), Dropped(InvalidLength))
    else
      match Gather(slot.pieces)
      case None => (DropSlot(r1, key), Dropped(InvalidLength))
      case Some(payload) => (TakeSlot(r1, key), Complete(payload, slot.totalLen, evicted))
  }

  /** A fragment for a packet with a slot. */
  function PushKnown(r: Reassembler, key: SlotKey, f: Fragment, evicted: bool): (Reassembler, Outcome)
    requires key in r.slots && f.index < f.count && |r.slots[key].pieces| == r.slots[key].count
  {
    var slot := r.slots[key];
    if slot.count != f.count || slot.totalLen != f.totalLen then (DropSlot(r, key), Dropped(MetadataConflict))
    else if slot.pieces[f.index].Some? then
      if slot.pieces[f.index].value != f.payload then (DropSlot(r, key), Dropped(DuplicateConflict))
      else (r, Pending(evicted))
    else if slot.retained + |f.payload| > slot.totalLen then (DropSlot(r, key), Dropped(InvalidLength))
    else AddPiece(r, key, f, evicted)
  }

  function NewSlot(f: Fragment, now: int): Slot
    requires f.index < f.count
  {
    Slot(now, f.count, f.totalLen, seq(f.count, _ => None)[f.index := Some(f.payload)], 1, |f.payload|)
  }

  /** Room for a new packet: a full table gives up its oldest slot. */
  ghost function MakeRoom(cfg: Config, r: Reassembler, hint: SlotKey): (Reassembler, bool) {
    if |r.slots| >= cfg.maxSlots && r.slots != map[] then (DropSlot(r, Oldest(r.slots, hint)), true) else (r, false)
  }

  /** The first fragment of a packet. */
  ghost function PushNew(cfg: Config, r: Reassembler, key: SlotKey, f: Fragment, now: int, evicted: bool, hint: SlotKey)
    : (Reassembler, Outcome)
    requires f.index < f.count
  {
    if cfg.maxSlots == 0 || f.totalLen > cfg.maxBytes then (r, Dropped(ByteLimit))
    else
      var (r1, made) := MakeRoom(cfg, r, hint);
      if r1.reserved + f.totalLen > cfg.maxBytes || f.totalLen > r1.free then (r1, Dropped(ByteLimit))
      else
        var expiry := now + cfg.ttl;
        var next := if r1.nextExpiry.Some? && r1.nextExpiry.value <= expiry then r1.nextExpiry.value else expiry;
        (Reassembler(r1.slots[key := NewSlot(f, now)], r1.reserved + f.totalLen, Some(next), r1.free - f.totalLen),
         Pending(evicted || made))
  }

  /** `push_with`, with a reservation taken from the budget. */
  ghost function Push(
    cfg: Config, r: Reassembler, flow: nat, f: Fragment, now: int, hint: SlotKey): (Reassembler, Outcome)
    requires SlotsOk(r.slots)
  {
    if !IdOk(flow) || !f.Valid() then (r, Dropped(InvalidLength))
    else
      var key := SlotKey(flow, f.packetId);
      var (r1, evicted) := Expire(cfg.ttl, r, now);
      if key in r1.slots then
        assert SlotOk(r.slots[key]);
        PushKnown(r1, key, f, evicted)
      else PushNew(cfg, r1, key, f, now, evicted, hint)
  }

  // ---------------------------------------------------------------------------------------------
  // The invariant.

  function Got(pieces: seq<Option<Bytes>>): nat {
    if pieces == [] then 0
    else Got(pieces[..|pieces| - 1]) + if pieces[|pieces| - 1].Some? then 1 else 0
  }

  function HeldLen(pieces: seq<Option<Bytes>>): nat {
    if pieces == [] then 0
    else
      var last := pieces[|pieces| - 1];
      HeldLen(pieces[..|pieces| - 1]) + if last.Some? then |last.value| else 0
  }

  /** A slot counts what it holds and misses at least one piece. */
  ghost predicate SlotOk(slot: Slot) {
    && 2 <= slot.count <= slot.totalLen <= PACKET_MAX && |slot.pieces| == slot.count
    && slot.received == Got(slot.pieces) && slot.retained == HeldLen(slot.pieces)
    && 0 < slot.received < slot.count && slot.retained <= slot.totalLen
  }

  ghost predicate SlotsOk(slots: Slots) {
    forall k :: k in slots ==> SlotOk(slots[k])
  }

  /** The cached deadline is absent exactly when there are no slots, and no slot expires before it. */
  ghost predicate ExpiryOk(ttl: nat, r: Reassembler) {
    && (r.nextExpiry.None? <==> r.slots == map[])
    && forall k :: k in r.slots ==> r.nextExpiry.Some? && r.nextExpiry.value <= r.slots[k].createdAt + ttl
  }

  ghost predicate Valid(cfg: Config, r: Reassembler) {
    && SlotsOk(r.slots)
    && r.reserved == Total(r.slots) <= cfg.maxBytes
    && |r.slots| <= cfg.maxSlots
    && ExpiryOk(cfg.ttl, r)
  }

  lemma SlotShape(slot: Slot)
    requires SlotOk(slot)
    ensures |slot.pieces| == slot.count
  {
  }

  // ---------------------------------------------------------------------------------------------
  // Pieces.

  lemma {:induction false} GotUpdate(pieces: seq<Option<Bytes>>, i: nat, v: Bytes)
    requires i < |pieces| && pieces[i].None?
    ensures Got(pieces[i := Some(v)]) == Got(pieces) + 1
    ensures HeldLen(pieces[i := Some(v)]) == HeldLen(pieces) + |v|
  {
    var n := |pieces| - 1;
    var more := pieces[i := Some(v)];
    if i < n {
      assert more[..n] == pieces[..n][i := Some(v)];
      GotUpdate(pieces[..n], i, v);
    } else {
      assert more[..n] == pieces[..n];
    }
  }

  lemma {:induction false} GotNothing(n: nat)
    ensures var blank: seq<Option<Bytes>> := seq(n, _ => None); Got(blank) == 0 && HeldLen(blank) == 0
  {
    if n > 0 {
      GotNothing(n - 1);
      var blank: seq<Option<Bytes>> := seq(n, _ => None);
      var less: seq<Option<Bytes>> := seq(n - 1, _ => None);
      assert blank[..n - 1] == less;
    }
  }

  /** As many pieces as indices means none is missing. */
  lemma {:induction false} GotAll(pieces: seq<Option<Bytes>>)
    ensures Got(pieces) <= |pieces|
    ensures Got(pieces) == |pieces| <==> forall i :: 0 <= i < |pieces| ==> pieces[i].Some?
  {
    if pieces != [] {
      var n := |pieces| - 1;
      GotAll(pieces[..n]);
      assert forall i :: 0 <= i < n ==> pieces[..n][i] == pieces[i];
    }
  }

  lemma {:induction false} GatherAll(pieces: seq<Option<Bytes>>, parts: seq<Bytes>)
    requires |parts| == |pieces| && forall i :: 0 <= i < |pieces| ==> pieces[i] == Some(parts[i])
    ensures Gather(pieces) == Some(Joined(parts)) && |Joined(parts)| == HeldLen(pieces)
  {
    if pieces != [] {
      var n := |pieces| - 1;
      assert forall i :: 0 <= i < n ==> pieces[..n][i] == pieces[i] && parts[..n][i] == parts[i];
      GatherAll(pieces[..n], parts[..n]);
    }
  }

  /** The payloads of a full slot. */
  function Parts(pieces: seq<Option<Bytes>>): (parts: seq<Bytes>)
    requires forall i :: 0 <= i < |pieces| ==> pieces[i].Some?
    ensures |parts| == |pieces| && forall i :: 0 <= i < |pieces| ==> pieces[i] == Some(parts[i])
  {
    seq(|pieces|, i requires 0 <= i < |pieces| => pieces[i].value)
  }

  // ---------------------------------------------------------------------------------------------
  // What every operation keeps.

  lemma TotalPart(slots: Slots, keys: set<SlotKey>)
    ensures Total(slots) == Total(Part(slots, keys)) + Total(slots - keys)
  {
    SumSplit(slots, keys, TotalLen());
  }

  lemma NothingTotal()
    ensures Total(map[]) == 0
  {
  }

  /** Removing a slot: the subtraction is exact and the budget gets its share back. */
  lemma DropKeeps(cfg: Config, r: Reassembler, key: SlotKey)
    requires Valid(cfg, r) && key in r.slots
    ensures Valid(cfg, TakeSlot(r, key)) && Valid(cfg, DropSlot(r, key))
    ensures Total(r.slots) == Total(TakeSlot(r, key).slots) + r.slots[key].totalLen
  {
    SumRemove(r.slots, key, TotalLen());
    MapSize(r.slots, key, r.slots[key]);
  }

  lemma RemovalKeeps(cfg: Config, r: Reassembler, gone: set<SlotKey>)
    requires Valid(cfg, r)
    ensures var kept := r.slots - gone;
            && SlotsOk(kept) && Total(kept) == SatSub(r.reserved, Total(Part(r.slots, gone))) <= cfg.maxBytes
            && |kept| <= cfg.maxSlots && Total(r.slots) == Total(kept) + Total(Part(r.slots, gone))
  {
    TotalPart(r.slots, gone);
    SubmapSize(r.slots, r.slots - gone);
  }

  lemma RemoveFlowKeeps(cfg: Config, r: Reassembler, flow: nat)
    requires Valid(cfg, r)
    ensures var t := RemoveFlow(r, flow);
            && Valid(cfg, t) && OfFlow(t.slots, flow) == {} && t.free + Total(t.slots) == r.free + Total(r.slots)
            && forall k :: k in r.slots && k.flow != flow ==> k in t.slots && t.slots[k] == r.slots[k]
  {
    RemovalKeeps(cfg, r, OfFlow(r.slots, flow));
  }

  lemma ClearKeeps(cfg: Config, r: Reassembler)
    requires Valid(cfg, r)
    ensures Valid(cfg, Clear(r)) && Clear(r).free + Total(Clear(r).slots) == r.free + Total(r.slots)
  {
    NothingTotal();
  }

  /** The early exit loses nothing: `expire` removes precisely the slots older than the TTL, and says so. */
  lemma ExpireIsScan(ttl: nat, r: Reassembler, now: int)
    requires ExpiryOk(ttl, r)
    ensures Expire(ttl, r, now).0.slots == r.slots - Stale(ttl, r.slots, now)
    ensures Expire(ttl, r, now).1 <==> Stale(ttl, r.slots, now) != {}
  {
    var gone := Stale(ttl, r.slots, now);
    if r.nextExpiry.None? || now <= r.nextExpiry.value {
      assert gone == {};
      assert r.slots - gone == r.slots;
    } else {
      assert (r.slots - gone).Keys == r.slots.Keys - gone;
      assert |r.slots.Keys - gone| == |r.slots.Keys| - |gone|;
    }
  }

  lemma ExpireKeeps(cfg: Config, r: Reassembler, now: int)
    requires Valid(cfg, r)
    ensures var t := Expire(cfg.ttl, r, now).0;
            Valid(cfg, t) && t.free + Total(t.slots) == r.free + Total(r.slots)
  {
    RemovalKeeps(cfg, r, Stale(cfg.ttl, r.slots, now));
    hide Total;
  }

  lemma GrowKeeps(cfg: Config, r: Reassembler, key: SlotKey, slot: Slot)
    requires Valid(cfg, r) && key in r.slots && SlotOk(slot)
    requires slot.totalLen == r.slots[key].totalLen && slot.createdAt == r.slots[key].createdAt
    ensures Valid(cfg, r.(slots := r.slots[key := slot]))
    ensures Total(r.slots[key := slot]) == Total(r.slots)
  {
    GrowTotal(r.slots, key, slot);
    assert r.slots[key := slot].Keys == r.slots.Keys;
    hide SlotOk, Total;
  }

  lemma GrowTotal(slots: Slots, key: SlotKey, slot: Slot)
    requires key in slots && slot.totalLen == slots[key].totalLen
    ensures Total(slots[key := slot]) == Total(slots)
  {
    SumRemove(slots, key, TotalLen());
    SumRemove(slots[key := slot], key, TotalLen());
    assert slots[key := slot] - {key} == slots - {key};
  }

  /** The budget share an outcome carries away. */
  function Share(o: Outcome): nat {
    if o.Complete? then o.reservation else 0
  }

  /** The slot with one more piece; when it is the last one, nothing is missing. */
  lemma OnePieceMore(slot: Slot, f: Fragment)
    requires SlotOk(slot) && f.count == slot.count && f.index < f.count && slot.pieces[f.index].None?
    requires slot.retained + |f.payload| <= slot.totalLen
    ensures var more := WithPiece(slot, f);
            && Got(more.pieces) == more.received <= slot.count && HeldLen(more.pieces) == more.retained
            && (more.received < slot.count ==> SlotOk(more))
            && (more.received == slot.count ==>
                  && (forall i :: 0 <= i < |more.pieces| ==> more.pieces[i].Some?)
                  && Gather(more.pieces) == Some(Joined(Parts(more.pieces)))
                  && |Joined(Parts(more.pieces))| == more.retained)
  {
    GotUpdate(slot.pieces, f.index, f.payload);
    var more := slot.pieces[f.index := Some(f.payload)];
    GotAll(more);
    if slot.received + 1 == slot.count {
      GatherAll(more, Parts(more));
    }
  }

  /** Removing a slot and any change to it at once. */
  lemma ReplaceThenDrop(r: Reassembler, key: SlotKey, slot: Slot)
    requires key in r.slots && slot.totalLen == r.slots[key].totalLen
    ensures var r1 := r.(slots := r.slots[key := slot]);
            TakeSlot(r1, key) == TakeSlot(r, key) && DropSlot(r1, key) == DropSlot(r, key)
  {
    assert r.slots[key := slot] - {key} == r.slots - {key};
  }

  lemma AddPieceKeeps(cfg: Config, r: Reassembler, key: SlotKey, f: Fragment, evicted: bool)
    requires Valid(cfg, r) && key in r.slots && f.Valid()
    requires r.slots[key].count == f.count && r.slots[key].totalLen == f.totalLen
    requires |r.slots[key].pieces| == f.count && r.slots[key].pieces[f.index].None?
    requires r.slots[key].retained + |f.payload| <= f.totalLen
    ensures var (t, o) := AddPiece(r, key, f, evicted);
            && Valid(cfg, t) && t.free + Total(t.slots) + Share(o) == r.free + Total(r.slots)
            && (o.Complete? ==> |o.payload| == o.reservation == f.totalLen && t == TakeSlot(r, key))
            && (o.Dropped? ==> t == DropSlot(r, key))
  {
    var slot := r.slots[key];
    assert SlotOk(slot);
    DropKeeps(cfg, r, key);
    OnePieceMore(slot, f);
    var more := WithPiece(slot, f);
    ReplaceThenDrop(r, key, more);
    if more.received < more.count {
      GrowKeeps(cfg, r, key, more);
    }
    hide Valid, SlotOk, Total, WithPiece, Joined, Gather, Got, HeldLen;
  }

  lemma PushKnownKeeps(cfg: Config, r: Reassembler, key: SlotKey, f: Fragment, evicted: bool)
    requires Valid(cfg, r) && key in r.slots && f.Valid()
    ensures |r.slots[key].pieces| == r.slots[key].count
    ensures var (t, o) := PushKnown(r, key, f, evicted);
            && Valid(cfg, t) && t.free + Total(t.slots) + Share(o) == r.free + Total(r.slots)
            && (o.Complete? ==> |o.payload| == o.reservation == f.totalLen)
  {
    var slot := r.slots[key];
    assert SlotOk(slot);
    DropKeeps(cfg, r, key);
    hide Valid, Total, AddPiece;
    if slot.count == f.count && slot.totalLen == f.totalLen && slot.pieces[f.index].None?
       && slot.retained + |f.payload| <= slot.totalLen {
      AddPieceKeeps(cfg, r, key, f, evicted);
    }
  }

  lemma NewSlotOk(f: Fragment, now: int)
    requires f.Valid()
    ensures SlotOk(NewSlot(f, now))
  {
    GotNothing(f.count);
    GotUpdate(seq(f.count, _ => None), f.index, f.payload);
  }

  lemma RoomKeeps(cfg: Config, r: Reassembler, hint: SlotKey)
    requires Valid(cfg, r) && cfg.maxSlots > 0
    ensures var t := MakeRoom(cfg, r, hint).0;
            Valid(cfg, t) && |t.slots| < cfg.maxSlots && t.free + Total(t.slots) == r.free + Total(r.slots)
            && forall k :: k in t.slots ==> k in r.slots && t.slots[k] == r.slots[k]
  {
    if |r.slots| >= cfg.maxSlots {
      assert r.slots != map[];
      var victim := Oldest(r.slots, hint);
      DropKeeps(cfg, r, victim);
      MapSize(r.slots, victim, r.slots[victim]);
    }
  }

  lemma InsertKeeps(cfg: Config, r: Reassembler, key: SlotKey, slot: Slot, next: int)
    requires Valid(cfg, r) && key !in r.slots && |r.slots| < cfg.maxSlots && SlotOk(slot)
    requires r.reserved + slot.totalLen <= cfg.maxBytes && slot.totalLen <= r.free
    requires next <= slot.createdAt + cfg.ttl && (r.nextExpiry.Some? ==> next <= r.nextExpiry.value)
    ensures var t := Reassembler(r.slots[key := slot], r.reserved + slot.totalLen, Some(next), r.free - slot.totalLen);
            Valid(cfg, t) && t.free + Total(t.slots) == r.free + Total(r.slots)
  {
    SumInsert(r.slots, key, slot, TotalLen());
    MapSize(r.slots, key, slot);
    MinusAbsent(r.slots, key);
    assert key in r.slots[key := slot];
    hide SlotOk, Total;
  }

  lemma PushNewKeeps(cfg: Config, r: Reassembler, key: SlotKey, f: Fragment, now: int, evicted: bool, hint: SlotKey)
    requires Valid(cfg, r) && key !in r.slots && f.Valid()
    ensures var (t, o) := PushNew(cfg, r, key, f, now, evicted, hint);
            Valid(cfg, t) && t.free + Total(t.slots) == r.free + Total(r.slots) && !o.Complete?
  {
    if cfg.maxSlots > 0 && f.totalLen <= cfg.maxBytes {
      RoomKeeps(cfg, r, hint);
      var r1 := MakeRoom(cfg, r, hint).0;
      NewSlotOk(f, now);
      var expiry := now + cfg.ttl;
      var next := if r1.nextExpiry.Some? && r1.nextExpiry.value <= expiry then r1.nextExpiry.value else expiry;
      hide Valid, SlotOk, Total, MakeRoom;
      if r1.reserved + f.totalLen <= cfg.maxBytes && f.totalLen <= r1.free {
        InsertKeeps(cfg, r1, key, NewSlot(f, now), next);
      }
    }
  }

  /** Every fragment, valid or not: the invariant is kept, no byte of budget is lost or made, and a
      completed packet has its announced length. */
  lemma PushKeeps(cfg: Config, r: Reassembler, flow: nat, f: Fragment, now: int, hint: SlotKey)
    requires Valid(cfg, r)
    ensures var (t, o) := Push(cfg, r, flow, f, now, hint);
            && Valid(cfg, t) && t.free + Total(t.slots) + Share(o) == r.free + Total(r.slots)
            && (o.Complete? ==> |o.payload| == o.reservation == f.totalLen)
  {
    if IdOk(flow) && f.Valid() {
      ExpireKeeps(cfg, r, now);
      ExpireIsScan(cfg.ttl, r, now);
      var (r1, evicted) := Expire(cfg.ttl, r, now);
      var key := SlotKey(flow, f.packetId);
      assert key in r1.slots ==> SlotOk(r1.slots[key]);
      hide Expire, PushKnown, PushNew, Total;
      if key in r1.slots {
        PushKnownKeeps(cfg, r1, key, f, evicted);
      } else {
        PushNewKeeps(cfg, r1, key, f, now, evicted, hint);
      }
    }
  }
}
