/** Whole runs of the reassembler: what a completed packet is made of, and that fragmented packets come
    back. */
module ReassemblyRuns {
  import opened Wrappers
  import opened Counting
  import opened Datagram
  import opened Reassembly

  /** One call, or a change of the shared byte budget by its other users. */
  datatype Event =
    | Pushes(flow: nat, f: Fragment, now: int, hint: SlotKey)
    | Ticks(now: int)
    | RemovesFlow(flow: nat)
    | Clears
    | Budgets(free: nat)
  {
    /** A fragment of the packet `k`. */
    predicate For(k: SlotKey) {
      Pushes? && flow == k.flow && f.packetId == k.packetId
    }
  }

  ghost function Step(cfg: Config, r: Reassembler, e: Event): (t: Reassembler)
    requires Valid(cfg, r)
    ensures Valid(cfg, t)
  {
    match e
    case Pushes(flow, f, now, hint) => PushKeeps(cfg, r, flow, f, now, hint); Push(cfg, r, flow, f, now, hint).0
    case Ticks(now) => ExpireKeeps(cfg, r, now); Expire(cfg.ttl, r, now).0
    case RemovesFlow(flow) => RemoveFlowKeeps(cfg, r, flow); RemoveFlow(r, flow)
    case Clears => ClearKeeps(cfg, r); Clear(r)
    case Budgets(free) => r.(free := free)
  }

  function New(free: nat): Reassembler {
    Reassembler(map[], 0, None, free)
  }

  lemma NewValid(cfg: Config, free: nat)
    ensures Valid(cfg, New(free))
  {
    NothingTotal();
  }

  ghost function After(cfg: Config, r: Reassembler, run: seq<Event>): (t: Reassembler)
    requires Valid(cfg, r)
    ensures Valid(cfg, t)
  {
    if run == [] then r else Step(cfg, After(cfg, r, run[..|run| - 1]), run[|run| - 1])
  }

  // ---------------------------------------------------------------------------------------------
  // How one step changes one slot.

  /** The slot of `k` is alive when `e` brings a fragment for it. */
  ghost predicate Alive(cfg: Config, r: Reassembler, k: SlotKey, e: Event)
    requires e.Pushes?
  {
    k in Expire(cfg.ttl, r, e.now).0.slots
  }

  /** What a fragment of its own packet makes of a slot that stays. */
  ghost predicate Fed(cfg: Config, r: Reassembler, k: SlotKey, e: Event, slot: Slot)
    requires Valid(cfg, r) && e.For(k)
  {
    && e.f.Valid()
    && if Alive(cfg, r, k, e) then
         k in r.slots
         && var was := r.slots[k];
         && was.count == e.f.count && was.totalLen == e.f.totalLen && |was.pieces| == was.count
         && if was.pieces[e.f.index].Some? then was.pieces[e.f.index] == Some(e.f.payload) && slot == was
            else slot == WithPiece(was, e.f)
       else slot == NewSlot(e.f, e.now)
  }

  lemma KnownSlots(r: Reassembler, key: SlotKey, f: Fragment, evicted: bool, k: SlotKey)
    requires key in r.slots && SlotOk(r.slots[key]) && f.Valid()
    requires k in PushKnown(r, key, f, evicted).0.slots
    ensures k in r.slots
    ensures var slot := PushKnown(r, key, f, evicted).0.slots[k];
            if k != key then slot == r.slots[k]
            else
              && r.slots[k].count == f.count && r.slots[k].totalLen == f.totalLen
              && if r.slots[k].pieces[f.index].Some? then r.slots[k].pieces[f.index] == Some(f.payload)
                 && slot == r.slots[k]
                 else slot == WithPiece(r.slots[k], f)
  {
    hide SlotOk, Gather;
  }

  lemma NewSlots(
    cfg: Config, r: Reassembler, key: SlotKey, f: Fragment, now: int, evicted: bool, hint: SlotKey, k: SlotKey)
    requires Valid(cfg, r) && f.Valid() && k in PushNew(cfg, r, key, f, now, evicted, hint).0.slots && key !in r.slots
    ensures var slot := PushNew(cfg, r, key, f, now, evicted, hint).0.slots[k];
            if k == key then slot == NewSlot(f, now) else k in r.slots && slot == r.slots[k]
  {
    if cfg.maxSlots > 0 {
      RoomKeeps(cfg, r, hint);
      hide MakeRoom, NewSlot, Valid, Total;
    }
  }

  lemma PushSlots(cfg: Config, r: Reassembler, e: Event, k: SlotKey)
    requires Valid(cfg, r) && e.Pushes? && k in Step(cfg, r, e).slots
    ensures if e.For(k) && IdOk(e.flow) && e.f.Valid() then Fed(cfg, r, k, e, Step(cfg, r, e).slots[k])
            else k in r.slots && Step(cfg, r, e).slots[k] == r.slots[k]
  {
    if IdOk(e.flow) && e.f.Valid() {
      var key := SlotKey(e.flow, e.f.packetId);
      ExpireIsScan(cfg.ttl, r, e.now);
      ExpireKeeps(cfg, r, e.now);
      var (r1, evicted) := Expire(cfg.ttl, r, e.now);
      assert forall j :: j in r1.slots ==> SlotOk(r1.slots[j]);
      hide Expire, PushKnown, PushNew, Valid, SlotOk, WithPiece, NewSlot;
      if key in r1.slots {
        assert |r1.slots[key].pieces| == r1.slots[key].count by { SlotShape(r1.slots[key]); }
        assert Step(cfg, r, e) == PushKnown(r1, key, e.f, evicted).0;
        KnownSlots(r1, key, e.f, evicted, k);
      } else {
        assert Step(cfg, r, e) == PushNew(cfg, r1, key, e.f, e.now, evicted, e.hint).0;
        NewSlots(cfg, r1, key, e.f, e.now, evicted, e.hint, k);
      }
    }
  }

  /** A slot that is there after a step was there before, unchanged, or the step fed it. */
  lemma StepSlots(cfg: Config, r: Reassembler, e: Event, k: SlotKey)
    requires Valid(cfg, r) && k in Step(cfg, r, e).slots
    ensures if e.For(k) && IdOk(e.flow) && e.f.Valid() then Fed(cfg, r, k, e, Step(cfg, r, e).slots[k])
            else k in r.slots && Step(cfg, r, e).slots[k] == r.slots[k]
  {
    match e
    case Pushes(_, _, _, _) =>
      hide Step;
      PushSlots(cfg, r, e, k);
    case Ticks(now) => ExpireIsScan(cfg.ttl, r, now);
    case RemovesFlow(_) =>
    case Clears =>
    case Budgets(_) =>
  }

  // ---------------------------------------------------------------------------------------------
  // Soundness: where the bytes of a slot come from.

  lemma OldSlots(cfg: Config, r: Reassembler, e: Event)
    requires Valid(cfg, r)
    ensures forall k :: k in Step(cfg, r, e).slots && !Opens(cfg, r, e, k) ==> k in r.slots
  {
    forall k | k in Step(cfg, r, e).slots && !Opens(cfg, r, e, k)
      ensures k in r.slots
    {
      StepSlots(cfg, r, e, k);
      hide Step, Valid;
    }
  }

  /** When each slot was opened, as a position in the run. */
  ghost function OpenedAt(cfg: Config, r: Reassembler, run: seq<Event>): (m: map<SlotKey, nat>)
    requires Valid(cfg, r) && r.slots == map[]
    ensures m.Keys == After(cfg, r, run).slots.Keys
    ensures forall k :: k in m ==> m[k] < |run|
  {
    if run == [] then map[]
    else
      var n := |run| - 1;
      var before, e := After(cfg, r, run[..n]), run[n];
      var was := OpenedAt(cfg, r, run[..n]);
      OldSlots(cfg, before, e);
      map k | k in Step(cfg, before, e).slots :: if Opens(cfg, before, e, k) then n else was[k]
  }

  lemma OpenedStep(cfg: Config, r: Reassembler, run: seq<Event>, k: SlotKey)
    requires Valid(cfg, r) && r.slots == map[] && k in After(cfg, r, run).slots
    ensures run != []
    ensures var n := |run| - 1;
            var before := After(cfg, r, run[..n]);
            if Opens(cfg, before, run[n], k) then OpenedAt(cfg, r, run)[k] == n
            else k in before.slots && OpenedAt(cfg, r, run)[k] == OpenedAt(cfg, r, run[..n])[k]
  {
    hide Step, Valid, Opens;
    OldSlots(cfg, After(cfg, r, run[..|run| - 1]), run[|run| - 1]);
  }

  ghost predicate Opens(cfg: Config, r: Reassembler, e: Event, k: SlotKey) {
    e.For(k) && IdOk(e.flow) && e.f.Valid() && !Alive(cfg, r, k, e)
  }

  /** `e` brought `payload` as piece `i` of the packet `k`, cut the same way. */
  predicate Brings(e: Event, k: SlotKey, count: nat, totalLen: nat, i: nat, payload: Bytes) {
    e.Pushes? && e.flow == k.flow && e.f == Fragment(k.packetId, i, count, totalLen, payload)
  }

  /** Some call of the run from `start` on brought piece `i` of the slot. */
  ghost predicate Sourced(run: seq<Event>, start: nat, k: SlotKey, slot: Slot, i: nat)
    requires i < |slot.pieces|
  {
    slot.pieces[i].Some? ==>
      exists j :: start <= j < |run| && Brings(run[j], k, slot.count, slot.totalLen, i, slot.pieces[i].value)
  }

  ghost predicate SlotSourced(run: seq<Event>, start: nat, k: SlotKey, slot: Slot) {
    forall i :: 0 <= i < |slot.pieces| ==> Sourced(run, start, k, slot, i)
  }

  lemma SourcedLonger(run: seq<Event>, e: Event, start: nat, k: SlotKey, slot: Slot)
    requires SlotSourced(run, start, k, slot)
    ensures SlotSourced(run + [e], start, k, slot)
  {
    forall i | 0 <= i < |slot.pieces|
      ensures Sourced(run + [e], start, k, slot, i)
    {
      assert Sourced(run, start, k, slot, i);
      if slot.pieces[i].Some? {
        var j :| start <= j < |run| && Brings(run[j], k, slot.count, slot.totalLen, i, slot.pieces[i].value);
        assert (run + [e])[j] == run[j];
      }
    }
  }

  lemma SourcedPiece(run: seq<Event>, e: Event, start: nat, k: SlotKey, slot: Slot)
    requires SlotSourced(run, start, k, slot) && start <= |run| && e.For(k) && e.f.index < |slot.pieces|
    requires e.f.count == slot.count && e.f.totalLen == slot.totalLen
    ensures SlotSourced(run + [e], start, k, WithPiece(slot, e.f))
  {
    SourcedLonger(run, e, start, k, slot);
    var more := WithPiece(slot, e.f);
    forall i | 0 <= i < |more.pieces|
      ensures Sourced(run + [e], start, k, more, i)
    {
      if i == e.f.index {
        assert Brings((run + [e])[|run|], k, more.count, more.totalLen, i, more.pieces[i].value);
      } else {
        assert Sourced(run + [e], start, k, slot, i);
        if slot.pieces[i].Some? {
          var j :| start <= j < |run + [e]|
                   && Brings((run + [e])[j], k, slot.count, slot.totalLen, i, slot.pieces[i].value);
          assert Brings((run + [e])[j], k, more.count, more.totalLen, i, more.pieces[i].value);
        }
      }
    }
  }

  lemma SourcedNew(run: seq<Event>, e: Event, k: SlotKey)
    requires e.For(k) && e.f.Valid()
    ensures SlotSourced(run + [e], |run|, k, NewSlot(e.f, e.now))
  {
    var slot := NewSlot(e.f, e.now);
    forall i | 0 <= i < |slot.pieces|
      ensures Sourced(run + [e], |run|, k, slot, i)
    {
      if i == e.f.index {
        assert Brings((run + [e])[|run|], k, slot.count, slot.totalLen, i, slot.pieces[i].value);
      }
    }
  }

  /** Every piece of every slot was brought since the slot was opened, for that packet, cut that way. */
  lemma {:induction false} SlotsAreSourced(cfg: Config, r: Reassembler, run: seq<Event>, k: SlotKey)
    requires Valid(cfg, r) && r.slots == map[] && k in After(cfg, r, run).slots
    ensures SlotSourced(run, OpenedAt(cfg, r, run)[k], k, After(cfg, r, run).slots[k])
  {
    var n := |run| - 1;
    var before, e := After(cfg, r, run[..n]), run[n];
    Snoc(run);
    StepSlots(cfg, before, e, k);
    hide Step, Valid, SlotSourced;
    if Opens(cfg, before, e, k) {
      SourcedNew(run[..n], e, k);
    } else {
      assert k in before.slots;
      SlotsAreSourced(cfg, r, run[..n], k);
      var start := OpenedAt(cfg, r, run[..n])[k];
      SourcedLonger(run[..n], e, start, k, before.slots[k]);
      if e.For(k) && IdOk(e.flow) && e.f.Valid() && before.slots[k].pieces[e.f.index].None? {
        SourcedPiece(run[..n], e, start, k, before.slots[k]);
      }
    }
  }

  /** `payload` is, in index order, what the calls at positions `at` brought. */
  ghost predicate MadeFrom(
    run: seq<Event>, start: nat, k: SlotKey, count: nat, totalLen: nat, payload: Bytes, at: seq<nat>, parts: seq<Bytes>)
  {
    && |at| == |parts| == count && payload == Joined(parts) && |payload| == totalLen
    && forall i :: 0 <= i < count ==> start <= at[i] < |run| && Brings(run[at[i]], k, count, totalLen, i, parts[i])
  }

  lemma CompletesKnown(cfg: Config, r: Reassembler, key: SlotKey, f: Fragment, evicted: bool)
    requires Valid(cfg, r) && key in r.slots && f.Valid() && |r.slots[key].pieces| == r.slots[key].count
    requires PushKnown(r, key, f, evicted).1.Complete?
    ensures var slot, o := r.slots[key], PushKnown(r, key, f, evicted).1;
            && slot.count == f.count == |slot.pieces| && slot.totalLen == f.totalLen
            && (forall i :: 0 <= i < |slot.pieces| ==> i == f.index || slot.pieces[i].Some?)
            && o.payload == Joined(Parts(WithPiece(slot, f).pieces)) && |o.payload| == slot.totalLen
  {
    var slot := r.slots[key];
    assert SlotOk(slot);
    PushKnownKeeps(cfg, r, key, f, evicted);
    OnePieceMore(slot, f);
    var more := WithPiece(slot, f).pieces;
    assert forall i :: 0 <= i < |more| && i != f.index ==> more[i] == slot.pieces[i];
    hide SlotOk, Valid, Total, Gather, Joined, Got, HeldLen, DropSlot, TakeSlot;
  }

  lemma CompletesFrom(cfg: Config, r: Reassembler, e: Event, k: SlotKey)
    requires Valid(cfg, r) && e.For(k) && Push(cfg, r, e.flow, e.f, e.now, e.hint).1.Complete?
    ensures IdOk(e.flow) && e.f.Valid() && Alive(cfg, r, k, e) && k in r.slots
    ensures var slot, o := r.slots[k], Push(cfg, r, e.flow, e.f, e.now, e.hint).1;
            && slot.count == e.f.count == |slot.pieces| && slot.totalLen == e.f.totalLen
            && (forall i :: 0 <= i < |slot.pieces| ==> i == e.f.index || slot.pieces[i].Some?)
            && o.payload == Joined(Parts(WithPiece(slot, e.f).pieces)) && |o.payload| == slot.totalLen
  {
    ExpireIsScan(cfg.ttl, r, e.now);
    ExpireKeeps(cfg, r, e.now);
    var (r1, evicted) := Expire(cfg.ttl, r, e.now);
    assert SlotsOk(r1.slots);
    if k !in r1.slots && IdOk(e.flow) && e.f.Valid() {
      PushNewKeeps(cfg, r1, k, e.f, e.now, evicted, e.hint);
    }
    hide Expire, Valid, SlotOk, Joined, PushKnown, PushNew, WithPiece, Total, Fragment.Valid;
    assert k in r1.slots;
    SlotShape(r1.slots[k]);
    CompletesKnown(cfg, r1, k, e.f, evicted);
  }

  /** Soundness over whole runs: a packet that completes has its announced length and is the index-order
      concatenation of payloads brought for that flow, packet id, count and length since its slot opened. */
  lemma CompletePacketsAreSound(cfg: Config, r: Reassembler, run: seq<Event>, e: Event, k: SlotKey)
    returns (at: seq<nat>, parts: seq<Bytes>)
    requires Valid(cfg, r) && r.slots == map[] && e.For(k)
    requires Push(cfg, After(cfg, r, run), e.flow, e.f, e.now, e.hint).1.Complete?
    ensures k in After(cfg, r, run).slots
    ensures MadeFrom(run + [e], OpenedAt(cfg, r, run)[k], k, e.f.count, e.f.totalLen,
                     Push(cfg, After(cfg, r, run), e.flow, e.f, e.now, e.hint).1.payload, at, parts)
  {
    var before := After(cfg, r, run);
    CompletesFrom(cfg, before, e, k);
    SlotsAreSourced(cfg, r, run, k);
    var slot, start := before.slots[k], OpenedAt(cfg, r, run)[k];
    SourcedPiece(run, e, start, k, slot);
    var more := WithPiece(slot, e.f);
    parts := Parts(more.pieces);
    hide Push, Valid, After, OpenedAt, Fragment.Valid, WithPiece, Joined;
    at := PositionsOf(run + [e], start, k, more);
  }

  lemma PositionsOf(run: seq<Event>, start: nat, k: SlotKey, slot: Slot) returns (at: seq<nat>)
    requires SlotSourced(run, start, k, slot) && forall i :: 0 <= i < |slot.pieces| ==> slot.pieces[i].Some?
    ensures |at| == |slot.pieces|
    ensures forall i :: 0 <= i < |at| ==>
              start <= at[i] < |run| && Brings(run[at[i]], k, slot.count, slot.totalLen, i, slot.pieces[i].value)
  {
    hide Brings;
    at := [];
    for i := 0 to |slot.pieces|
      invariant |at| == i
      invariant forall j :: 0 <= j < i ==>
                  start <= at[j] < |run| && Brings(run[at[j]], k, slot.count, slot.totalLen, j, slot.pieces[j].value)
    {
      assert Sourced(run, start, k, slot, i);
      var j :| start <= j < |run| && Brings(run[j], k, slot.count, slot.totalLen, i, slot.pieces[i].value);
      at := at + [j];
    }
  }
}
