/** The reassembler as the object it is, drawing on a byte budget it shares with the packet queues. */
module DatagramReassembler {
  import opened Wrappers
  import opened Counting
  import opened Datagram
  import opened Reassembly
  import R = Reassembly

  /** The semaphore that counts the bytes one connection may hold. */
  class Budget {
    var free: nat

    constructor (free: nat)
      ensures this.free == free
    {
      this.free := free;
    }

    /** `reserve_udp_budget`. */
    method TryAcquire(len: nat) returns (ok: bool)
      modifies this
      ensures ok <==> Units(len) <= old(free)
      ensures free == if ok then old(free) - Units(len) else old(free)
    {
      ok := Units(len) <= free;
      if ok {
        free := free - Units(len);
      }
    }
  }

  /** Adds up the lengths of the given slots. */
  method SumOf(slots: Slots, keys: set<SlotKey>) returns (bytes: nat)
    requires keys <= slots.Keys
    ensures bytes == Total(Part(slots, keys))
  {
    bytes := 0;
    var rest := keys;
    assert Part(slots, {}) == map[];
    while rest != {}
      invariant rest <= keys && bytes == Total(Part(slots, keys - rest))
      decreases |rest|
    {
      assert keys - rest == keys - rest;
      var k :| k in rest;
      PartGrow(slots, keys - rest, k);
      assert keys - (rest - {k}) == keys - rest + {k};
      bytes := bytes + slots[k].totalLen;
      rest := rest - {k};
    }
    assert keys - {} == keys;
  }

  lemma PartGrow(slots: Slots, done: set<SlotKey>, k: SlotKey)
    requires k in slots && k !in done
    ensures Total(Part(slots, done + {k})) == Total(Part(slots, done)) + slots[k].totalLen
  {
    assert Part(slots, done + {k}) == Part(slots, done)[k := slots[k]];
    SumInsert(Part(slots, done), k, slots[k], TotalLen());
  }

  method FindOldest(slots: Slots) returns (oldest: SlotKey)
    requires slots != map[]
    ensures IsOldest(slots, oldest)
  {
    assert slots.Keys != {};
    var rest := slots.Keys;
    oldest :| oldest in rest;
    while rest != {}
      invariant oldest in slots && rest <= slots.Keys
      invariant forall j :: j in slots && j !in rest ==> slots[oldest].createdAt <= slots[j].createdAt
      decreases |rest|
    {
      var k :| k in rest;
      rest := rest - {k};
      if slots[k].createdAt < slots[oldest].createdAt {
        oldest := k;
      }
    }
  }

  /** The slots older than the TTL. */
  method FindStale(slots: Slots, ttl: nat, now: int) returns (gone: set<SlotKey>)
    ensures gone == Stale(ttl, slots, now)
  {
    gone := {};
    var rest := slots.Keys;
    while rest != {}
      invariant rest <= slots.Keys
      invariant gone == set k | k in Stale(ttl, slots, now) && k !in rest
      decreases |rest|
    {
      var k :| k in rest;
      rest := rest - {k};
      if now - slots[k].createdAt > ttl {
        gone := gone + {k};
      }
    }
  }

  /** When the oldest slot expires. */
  method NextDeadline(slots: Slots, ttl: nat) returns (deadline: Option<int>)
    ensures deadline == Earliest(ttl, slots)
  {
    hide IsOldest, Earliest;
    if slots == map[] {
      NoEarliest(ttl);
      return None;
    }
    var oldest := FindOldest(slots);
    EarliestIs(ttl, slots, oldest);
    return Some(slots[oldest].createdAt + ttl);
  }

  /** Glues the pieces together in index order, stopping at a missing one. */
  method Glue(pieces: seq<Option<Bytes>>) returns (payload: Option<Bytes>)
    ensures payload == Gather(pieces)
  {
    var glued := [];
    for i := 0 to |pieces|
      invariant Gather(pieces[..i]) == Some(glued)
    {
      assert pieces[..i + 1][..i] == pieces[..i];
      if pieces[i].None? {
        GatherMissing(pieces, i);
        return None;
      }
      glued := glued + pieces[i].value;
    }
    assert pieces[..|pieces|] == pieces;
    return Some(glued);
  }

  lemma {:induction false} GatherMissing(pieces: seq<Option<Bytes>>, i: nat)
    requires i < |pieces| && pieces[i].None?
    ensures Gather(pieces).None?
  {
    if i < |pieces| - 1 {
      GatherMissing(pieces[..|pieces| - 1], i);
    }
  }

  class DatagramReassembler {
    const config: Config
    const budget: Budget
    var slots: Slots
    var reserved: nat
    var nextExpiry: Option<int>

    ghost function View(): Reassembler
      reads this, budget
    {
      Reassembler(slots, reserved, nextExpiry, budget.free)
    }

    ghost predicate Valid()
      reads this, budget
    {
      R.Valid(config, View())
    }

    constructor (config: Config, budget: Budget)
      ensures Valid() && this.config == config && this.budget == budget && slots == map[] && View().free == budget.free
    {
      this.config, this.budget := config, budget;
      slots, reserved, nextExpiry := map[], 0, None;
      new;
      NothingTotal();
    }

    /** Takes a slot out; dropping it gives its reservation back, completing hands it on. */
    method RemoveSlot(key: SlotKey, drop: bool)
      requires key in slots
      modifies this, budget
      ensures View() == if drop then DropSlot(old(View()), key) else TakeSlot(old(View()), key)
    {
      var slot := slots[key];
      slots := slots - {key};
      reserved := SatSub(reserved, slot.totalLen);
      if slots == map[] {
        nextExpiry := None;
      }
      if drop {
        budget.free := budget.free + slot.totalLen;
      }
    }

    method RemoveFlow(flow: nat)
      requires Valid()
      modifies this, budget
      ensures Valid() && View() == R.RemoveFlow(old(View()), flow)
      ensures OfFlow(slots, flow) == {} && budget.free + Total(slots) == old(budget.free + Total(slots))
    {
      hide R.Valid, Total;
      var gone := OfFlow(slots, flow);
      var bytes := SumOf(slots, gone);
      slots := slots - gone;
      budget.free := budget.free + bytes;
      reserved := SatSub(reserved, bytes);
      if slots == map[] {
        nextExpiry := None;
      }
      assert View() == R.RemoveFlow(old(View()), flow);
      hide R.RemoveFlow;
      RemoveFlowKeeps(config, old(View()), flow);
    }

    method Clear()
      requires Valid()
      modifies this, budget
      ensures Valid() && View() == R.Clear(old(View())) && slots == map[]
    {
      ClearKeeps(config, View());
      var bytes := SumOf(slots, slots.Keys);
      assert Part(slots, slots.Keys) == slots;
      budget.free := budget.free + bytes;
      slots, reserved, nextExpiry := map[], 0, None;
    }

    /** Despite the early exit, exactly the slots older than the TTL go. */
    method Expire(now: int) returns (removed: bool)
      requires Valid()
      modifies this, budget
      ensures Valid() && (View(), removed) == R.Expire(config.ttl, old(View()), now)
      ensures slots == old(slots) - Stale(config.ttl, old(slots), now)
      ensures removed <==> Stale(config.ttl, old(slots), now) != {}
    {
      hide R.Valid, Total, Earliest, IsOldest, R.Expire, Stale;
      ExpireKeeps(config, View(), now);
      ScanOfValid(config, View(), now);
      ExpireUnfolds(config.ttl, View(), now);
      if nextExpiry.None? || now <= nextExpiry.value {
        return false;
      }
      var before := |slots|;
      var gone := FindStale(slots, config.ttl, now);
      StaleAreSlots(config.ttl, slots, now);
      var released := SumOf(slots, gone);
      slots := slots - gone;
      budget.free := budget.free + released;
      reserved := SatSub(reserved, released);
      nextExpiry := NextDeadline(slots, config.ttl);
      removed := |slots| != before;
    }

    method AddPiece(key: SlotKey, f: Fragment, evicted: bool) returns (outcome: Outcome)
      requires key in slots && f.index < |slots[key].pieces|
      modifies this, budget
      ensures (View(), outcome) == R.AddPiece(old(View()), key, f, evicted)
    {
      hide TakeSlot, DropSlot, Gather;
      var slot := slots[key];
      slot := slot.(pieces := slot.pieces[f.index := Some(f.payload)], received := slot.received + 1,
                    retained := slot.retained + |f.payload|);
      slots := slots[key := slot];
      if slot.received < slot.count {
        return Pending(evicted);
      }
      if slot.retained != slot.totalLen {
        RemoveSlot(key, true);
        return Dropped(InvalidLength);
      }
      var payload := Glue(slot.pieces);
      RemoveSlot(key, payload.None?);
      if payload.None? {
        return Dropped(InvalidLength);
      }
      return Complete(payload.value, slot.totalLen, evicted);
    }

    method PushKnown(key: SlotKey, f: Fragment, evicted: bool) returns (outcome: Outcome)
      requires key in slots && f.index < f.count && |slots[key].pieces| == slots[key].count
      modifies this, budget
      ensures (View(), outcome) == R.PushKnown(old(View()), key, f, evicted)
    {
      hide DropSlot, R.AddPiece;
      var slot := slots[key];
      if slot.count != f.count || slot.totalLen != f.totalLen {
        RemoveSlot(key, true);
        return Dropped(MetadataConflict);
      }
      if slot.pieces[f.index].Some? {
        if slot.pieces[f.index].value != f.payload {
          RemoveSlot(key, true);
          return Dropped(DuplicateConflict);
        }
        return Pending(evicted);
      }
      if slot.retained + |f.payload| > slot.totalLen {
        RemoveSlot(key, true);
        return Dropped(InvalidLength);
      }
      outcome := AddPiece(key, f, evicted);
    }

    method PushNew(key: SlotKey, f: Fragment, now: int, evicted: bool) returns (outcome: Outcome, ghost hint: SlotKey)
      requires f.Valid()
      modifies this, budget
      ensures (View(), outcome) == R.PushNew(config, old(View()), key, f, now, evicted, hint)
    {
      hide DropSlot;
      hint := key;
      if config.maxSlots == 0 || f.totalLen > config.maxBytes {
        return Dropped(ByteLimit), hint;
      }
      var made := false;
      if |slots| >= config.maxSlots && slots != map[] {
        var oldest := FindOldest(slots);
        hint := oldest;
        RemoveSlot(oldest, true);
        made := true;
      }
      if reserved + f.totalLen > config.maxBytes {
        return Dropped(ByteLimit), hint;
      }
      var ok := budget.TryAcquire(f.totalLen);
      if !ok {
        return Dropped(ByteLimit), hint;
      }
      reserved := reserved + f.totalLen;
      var expiry := now + config.ttl;
      nextExpiry := Some(if nextExpiry.Some? && nextExpiry.value <= expiry then nextExpiry.value else expiry);
      slots := slots[key := Slot(now, f.count, f.totalLen, seq(f.count, _ => None)[f.index := Some(f.payload)],
                                 1, |f.payload|)];
      outcome := Pending(evicted || made);
    }

    /** `push_with`, reserving from the budget: conserves every byte of it. */
    method Push(flow: nat, f: Fragment, now: int) returns (outcome: Outcome, ghost hint: SlotKey)
      requires Valid()
      modifies this, budget
      ensures Valid() && (View(), outcome) == R.Push(config, old(View()), flow, f, now, hint)
      ensures budget.free + Total(slots) + Share(outcome) == old(budget.free + Total(slots))
      ensures outcome.Complete? ==> |outcome.payload| == outcome.reservation == f.totalLen
    {
      hint := SlotKey(flow, f.packetId);
      if !IdOk(flow) || !f.Valid() {
        return Dropped(InvalidLength), hint;
      }
      var key := SlotKey(flow, f.packetId);
      hide Total;
      var evicted := Expire(now);
      assert key in slots ==> SlotOk(slots[key]);
      hide R.Expire, R.PushKnown, R.PushNew, SlotOk;
      if key in slots {
        SlotShape(slots[key]);
        outcome := PushKnown(key, f, evicted);
      } else {
        outcome, hint := PushNew(key, f, now, evicted);
      }
      PushKeeps(config, old(View()), flow, f, now, hint);
    }
  }

  lemma ExpireUnfolds(ttl: nat, r: Reassembler, now: int)
    ensures var gone := Stale(ttl, r.slots, now);
            R.Expire(ttl, r, now) ==
            if r.nextExpiry.None? || now <= r.nextExpiry.value then (r, false)
            else (Reassembler(r.slots - gone, SatSub(r.reserved, Total(Part(r.slots, gone))),
                              Earliest(ttl, r.slots - gone), r.free + Total(Part(r.slots, gone))),
                  |r.slots - gone| != |r.slots|)
  {
  }

  lemma StaleAreSlots(ttl: nat, slots: Slots, now: int)
    ensures Stale(ttl, slots, now) <= slots.Keys
  {
  }

  lemma ScanOfValid(cfg: Config, r: Reassembler, now: int)
    requires R.Valid(cfg, r)
    ensures R.Expire(cfg.ttl, r, now).0.slots == r.slots - Stale(cfg.ttl, r.slots, now)
    ensures R.Expire(cfg.ttl, r, now).1 <==> Stale(cfg.ttl, r.slots, now) != {}
  {
    ExpireIsScan(cfg.ttl, r, now);
  }

  lemma EarliestIs(ttl: nat, slots: Slots, oldest: SlotKey)
    requires IsOldest(slots, oldest)
    ensures oldest in slots && Earliest(ttl, slots) == Some(slots[oldest].createdAt + ttl)
  {
  }

  lemma NoEarliest(ttl: nat)
    ensures Earliest(ttl, map[]) == None
  {
  }
}
