/** How long a partial packet lives: exactly which calls open a slot, keep it or lose it, told by the call,
    the clock, the limits and the table of slots (src/protocol/datagram.rs). */
module SlotLifetime {
  import opened Wrappers
  import opened Counting
  import opened Datagram
  import opened Reassembly
  import opened ReassemblyRuns

  /** A fragment the reassembler looks at. */
  predicate WellFormed(e: Event) {
    e.Pushes? && IdOk(e.flow) && e.f.Valid()
  }

  /** The slots that are not older than the TTL. */
  function Live(ttl: nat, slots: Slots, now: int): Slots {
    slots - Stale(ttl, slots, now)
  }

  /** The slots a new packet finds: a full table loses its oldest. */
  ghost function Room(cfg: Config, slots: Slots, hint: SlotKey): Slots {
    if |slots| >= cfg.maxSlots && slots != map[] then slots - {Oldest(slots, hint)} else slots
  }

  ghost predicate Evicts(cfg: Config, slots: Slots, hint: SlotKey, k: SlotKey) {
    |slots| >= cfg.maxSlots && k in slots && Oldest(slots, hint) == k
  }

  /** There is a place in the table and a share of both byte limits for the packet of `e`. */
  ghost predicate Admits(cfg: Config, r: Reassembler, e: Event)
    requires e.Pushes?
  {
    && cfg.maxSlots > 0 && e.f.totalLen <= cfg.maxBytes
    && var room := Total(Room(cfg, Live(cfg.ttl, r.slots, e.now), e.hint));
    && room + e.f.totalLen <= cfg.maxBytes
    && e.f.totalLen <= r.free + (Total(r.slots) - room)
  }

  /** The call comes in time for a slot of `k` opened at `since`, does not close it, and does not evict it for
      another packet. */
  ghost predicate Spares(cfg: Config, slots: Slots, e: Event, k: SlotKey, since: int) {
    match e
    case Pushes(flow, f, now, hint) =>
      WellFormed(e) ==>
        && now - since <= cfg.ttl
        && var live := Live(cfg.ttl, slots, now);
        (SlotKey(flow, f.packetId) in live || f.totalLen > cfg.maxBytes || !Evicts(cfg, live, hint, k))
    case Ticks(now) => now - since <= cfg.ttl
    case RemovesFlow(flow) => flow != k.flow
    case Clears => false
    case Budgets(_) => true
  }

  /** The fragment agrees with the slot and leaves a piece missing. */
  predicate Fits(slot: Slot, f: Fragment) {
    && slot.count == f.count && slot.totalLen == f.totalLen && f.index < |slot.pieces|
    && if slot.pieces[f.index].Some? then slot.pieces[f.index] == Some(f.payload)
       else slot.received + 1 < slot.count && slot.retained + |f.payload| <= slot.totalLen
  }

  // ---------------------------------------------------------------------------------------------
  // One fragment.

  lemma KnownKeeps(r: Reassembler, key: SlotKey, f: Fragment, evicted: bool, k: SlotKey)
    requires key in r.slots && f.index < f.count && |r.slots[key].pieces| == r.slots[key].count
    ensures k in PushKnown(r, key, f, evicted).0.slots <==> k in r.slots && (k != key || Fits(r.slots[key], f))
  {
    hide Gather;
  }

  lemma RoomIsMade(cfg: Config, r: Reassembler, hint: SlotKey)
    requires Valid(cfg, r) && cfg.maxSlots > 0
    ensures var t := MakeRoom(cfg, r, hint).0;
            && t.slots == Room(cfg, r.slots, hint)
            && t.reserved == Total(t.slots) && t.free + Total(t.slots) == r.free + Total(r.slots)
  {
    RoomKeeps(cfg, r, hint);
    hide Total;
  }

  lemma NewOpens(
    cfg: Config, r: Reassembler, key: SlotKey, f: Fragment, now: int, evicted: bool, hint: SlotKey, k: SlotKey)
    requires Valid(cfg, r) && key !in r.slots && f.Valid()
    ensures var t := PushNew(cfg, r, key, f, now, evicted, hint).0;
            var room := Room(cfg, r.slots, hint);
            if k == key then
              k in t.slots <==> && cfg.maxSlots > 0 && Total(room) + f.totalLen <= cfg.maxBytes
                                && f.totalLen <= r.free + (Total(r.slots) - Total(room))
            else k in t.slots <==> k in if f.totalLen > cfg.maxBytes then r.slots else room
  {
    if cfg.maxSlots == 0 {
      assert r.slots == map[];
    } else {
      RoomIsMade(cfg, r, hint);
    }
    hide Valid, Total, MakeRoom, Room, NewSlot;
  }

  lemma PushUnfolds(cfg: Config, r: Reassembler, e: Event) returns (r1: Reassembler, evicted: bool)
    requires Valid(cfg, r) && WellFormed(e)
    ensures Valid(cfg, r1) && r1.slots == Live(cfg.ttl, r.slots, e.now)
    ensures r1.free + Total(r1.slots) == r.free + Total(r.slots)
    ensures var key := SlotKey(e.flow, e.f.packetId);
            if key in r1.slots then
              |r1.slots[key].pieces| == r1.slots[key].count && Step(cfg, r, e) == PushKnown(r1, key, e.f, evicted).0
            else Step(cfg, r, e) == PushNew(cfg, r1, key, e.f, e.now, evicted, e.hint).0
  {
    var key := SlotKey(e.flow, e.f.packetId);
    r1, evicted := Expire(cfg.ttl, r, e.now).0, Expire(cfg.ttl, r, e.now).1;
    ExpireIsScan(cfg.ttl, r, e.now);
    ExpireKeeps(cfg, r, e.now);
    if key in r1.slots {
      SlotShape(r1.slots[key]);
    }
    hide Expire, PushKnown, PushNew, Valid, SlotOk, Total;
  }

  /** The slot is there afterwards and is the same one: not given up and opened again. */
  predicate Stays(before: Slots, after: Slots, k: SlotKey)
    requires k in before
  {
    k in after && after[k].createdAt == before[k].createdAt
  }

  lemma LiveSlots(ttl: nat, slots: Slots, now: int, k: SlotKey)
    ensures k in Live(ttl, slots, now) <==> k in slots && now - slots[k].createdAt <= ttl
    ensures k in Live(ttl, slots, now) ==> Live(ttl, slots, now)[k] == slots[k]
  {
  }

  lemma RoomSlots(cfg: Config, slots: Slots, hint: SlotKey, k: SlotKey)
    ensures k in Room(cfg, slots, hint) <==> k in slots && !Evicts(cfg, slots, hint, k)
  {
  }

  /** A fragment of the packet `k` that finds no live slot opens one exactly when it is admitted. */
  lemma OpensIff(cfg: Config, r: Reassembler, e: Event, k: SlotKey)
    requires Valid(cfg, r) && e.For(k) && WellFormed(e) && k !in Live(cfg.ttl, r.slots, e.now)
    ensures k in Step(cfg, r, e).slots <==> Admits(cfg, r, e)
    ensures Admits(cfg, r, e) ==> Step(cfg, r, e).slots[k] == NewSlot(e.f, e.now)
  {
    var r1, evicted := PushUnfolds(cfg, r, e);
    hide Step, Valid, Live, Total, PushKnown, Fragment.Valid;
    NewOpens(cfg, r1, k, e.f, e.now, evicted, e.hint, k);
    if Admits(cfg, r, e) {
      NewSlots(cfg, r1, k, e.f, e.now, evicted, e.hint, k);
    }
  }

  /** A slot that is there before and after a step is the same one, or had expired. */
  lemma StepCreated(cfg: Config, r: Reassembler, e: Event, k: SlotKey)
    requires Valid(cfg, r) && k in r.slots && k in Step(cfg, r, e).slots && WellFormed(e)
    ensures var was, slot := r.slots[k], Step(cfg, r, e).slots[k];
            if e.For(k) && e.now - was.createdAt > cfg.ttl then slot.createdAt == e.now
            else slot.createdAt == was.createdAt
  {
    StepSlots(cfg, r, e, k);
    ExpireIsScan(cfg.ttl, r, e.now);
    LiveSlots(cfg.ttl, r.slots, e.now, k);
    hide Step, Valid, Expire;
  }

  /** A fragment of another packet leaves exactly the live slots it does not evict. */
  lemma OthersStay(cfg: Config, r: Reassembler, e: Event, k: SlotKey)
    requires Valid(cfg, r) && WellFormed(e) && !e.For(k)
    ensures var live := Live(cfg.ttl, r.slots, e.now);
            k in Step(cfg, r, e).slots
            <==> && k in live
                 && (SlotKey(e.flow, e.f.packetId) in live || e.f.totalLen > cfg.maxBytes
                     || !Evicts(cfg, live, e.hint, k))
  {
    var key := SlotKey(e.flow, e.f.packetId);
    var r1, evicted := PushUnfolds(cfg, r, e);
    hide Step, Valid, Live, Total, PushKnown, PushNew, Room, Evicts, Fits, Fragment.Valid;
    if key in r1.slots {
      KnownKeeps(r1, key, e.f, evicted, k);
    } else {
      NewOpens(cfg, r1, key, e.f, e.now, evicted, e.hint, k);
      RoomSlots(cfg, r1.slots, e.hint, k);
    }
  }

  lemma OwnStays(cfg: Config, r: Reassembler, e: Event, k: SlotKey)
    requires Valid(cfg, r) && WellFormed(e) && e.For(k) && k in Live(cfg.ttl, r.slots, e.now)
    ensures k in Step(cfg, r, e).slots <==> Fits(Live(cfg.ttl, r.slots, e.now)[k], e.f)
  {
    var r1, evicted := PushUnfolds(cfg, r, e);
    hide Step, Valid, Live, Total, PushKnown, PushNew, Fits, Fragment.Valid;
    KnownKeeps(r1, k, e.f, evicted, k);
  }

  lemma PushStays(cfg: Config, r: Reassembler, e: Event, k: SlotKey)
    requires Valid(cfg, r) && k in r.slots && WellFormed(e)
    ensures Stays(r.slots, Step(cfg, r, e).slots, k)
            <==> Spares(cfg, r.slots, e, k, r.slots[k].createdAt) && (e.For(k) ==> Fits(r.slots[k], e.f))
  {
    LiveSlots(cfg.ttl, r.slots, e.now, k);
    hide Step, Valid, Live, Evicts, Fits, WellFormed;
    if k in Step(cfg, r, e).slots {
      StepCreated(cfg, r, e, k);
    }
    if !e.For(k) {
      OthersStay(cfg, r, e, k);
    } else if k in Live(cfg.ttl, r.slots, e.now) {
      OwnStays(cfg, r, e, k);
    }
  }

  /** The exact condition, for every state and every call, under which a slot outlives the call. */
  lemma StaysIff(cfg: Config, r: Reassembler, e: Event, k: SlotKey)
    requires Valid(cfg, r) && k in r.slots
    ensures Stays(r.slots, Step(cfg, r, e).slots, k)
            <==> && Spares(cfg, r.slots, e, k, r.slots[k].createdAt)
                 && (WellFormed(e) && e.For(k) ==> Fits(r.slots[k], e.f))
  {
    match e
    case Pushes(_, _, _, _) =>
      if WellFormed(e) {
        hide Step, Fits, Spares;
        PushStays(cfg, r, e, k);
      }
    case Ticks(now) => ExpireIsScan(cfg.ttl, r, now);
    case RemovesFlow(_) =>
    case Clears =>
    case Budgets(_) =>
  }

  // ---------------------------------------------------------------------------------------------
  // What a fragment is answered with.

  /** The outcome of a fragment whose packet has the slot `slot`. */
  predicate KnownOutcome(slot: Slot, f: Fragment, evicted: bool, o: Outcome)
    requires f.index < |slot.pieces|
  {
    if slot.count != f.count || slot.totalLen != f.totalLen then o == Dropped(MetadataConflict)
    else if slot.pieces[f.index].Some? then
      o == if slot.pieces[f.index].value == f.payload then Pending(evicted) else Dropped(DuplicateConflict)
    else if slot.retained + |f.payload| > slot.totalLen then o == Dropped(InvalidLength)
    else if slot.received + 1 < slot.count then o == Pending(evicted)
    else if slot.retained + |f.payload| < slot.totalLen then o == Dropped(InvalidLength)
    else o.Complete? && o.evicted == evicted && o.reservation == slot.totalLen
  }

  lemma KnownDecides(cfg: Config, r: Reassembler, key: SlotKey, f: Fragment, evicted: bool)
    requires Valid(cfg, r) && key in r.slots && f.Valid()
    ensures |r.slots[key].pieces| == r.slots[key].count
    ensures f.index < r.slots[key].count ==> KnownOutcome(r.slots[key], f, evicted, PushKnown(r, key, f, evicted).1)
    ensures f.index >= r.slots[key].count ==> PushKnown(r, key, f, evicted).1 == Dropped(MetadataConflict)
  {
    var slot := r.slots[key];
    assert SlotOk(slot);
    hide Valid, DropSlot, TakeSlot, Gather;
    if slot.count == f.count && slot.totalLen == f.totalLen && slot.pieces[f.index].None?
       && slot.retained + |f.payload| <= slot.totalLen {
      OnePieceMore(slot, f);
    }
  }

  /** The answer, exactly: malformed fragments and overlong or short packets are invalid, packets cut another way and
      pieces that changed are conflicts, packets without room hit the byte limit, the last piece completes, and all
      else is pending. `evicted` says whether something expired or had to make room. */
  lemma PushDecides(cfg: Config, r: Reassembler, e: Event)
    requires Valid(cfg, r) && e.Pushes?
    ensures var o, key := Push(cfg, r, e.flow, e.f, e.now, e.hint).1, SlotKey(e.flow, e.f.packetId);
            var live := Live(cfg.ttl, r.slots, e.now);
            var expired := Stale(cfg.ttl, r.slots, e.now) != {};
            if !WellFormed(e) then o == Dropped(InvalidLength)
            else if key in live then
              if e.f.index < |live[key].pieces| then KnownOutcome(live[key], e.f, expired, o)
              else o == Dropped(MetadataConflict)
            else if Admits(cfg, r, e) then o == Pending(expired || |live| >= cfg.maxSlots)
            else o == Dropped(ByteLimit)
  {
    if WellFormed(e) {
      var key := SlotKey(e.flow, e.f.packetId);
      ExpireIsScan(cfg.ttl, r, e.now);
      ExpireKeeps(cfg, r, e.now);
      var (r1, evicted) := Expire(cfg.ttl, r, e.now);
      assert key in r1.slots ==> SlotOk(r1.slots[key]);
      hide Expire, PushKnown, PushNew, Valid, SlotOk, Total, Stale, KnownOutcome, Room, Fragment.Valid;
      if key in r1.slots {
        KnownDecides(cfg, r1, key, e.f, evicted);
      } else {
        NewDecides(cfg, r1, key, e.f, e.now, evicted, e.hint);
      }
    }
  }

  lemma NewDecides(cfg: Config, r: Reassembler, key: SlotKey, f: Fragment, now: int, evicted: bool, hint: SlotKey)
    requires Valid(cfg, r) && key !in r.slots && f.Valid()
    ensures var o, room := PushNew(cfg, r, key, f, now, evicted, hint).1, Total(Room(cfg, r.slots, hint));
            if cfg.maxSlots > 0 && f.totalLen <= cfg.maxBytes && room + f.totalLen <= cfg.maxBytes
               && f.totalLen <= r.free + (Total(r.slots) - room)
            then o == Pending(evicted || |r.slots| >= cfg.maxSlots)
            else o == Dropped(ByteLimit)
  {
    if cfg.maxSlots > 0 {
      RoomIsMade(cfg, r, hint);
      Making(cfg, r, hint);
    }
    hide Valid, Total, MakeRoom, Room, NewSlot;
  }

  lemma Making(cfg: Config, r: Reassembler, hint: SlotKey)
    requires cfg.maxSlots > 0
    ensures MakeRoom(cfg, r, hint).1 <==> |r.slots| >= cfg.maxSlots
  {
  }
}
