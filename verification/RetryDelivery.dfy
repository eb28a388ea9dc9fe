/** What the reassembler makes of a sender that plans packets again: each at most once and unchanged. */
module RetryDelivery {
  import opened Wrappers
  import opened Datagram
  import opened IdCycle
  import opened Reassembly
  import opened ReassemblyRuns
  import opened PacketSender

  /** Frame `index` of attempt `attempt`. */
  datatype FrameId = FrameId(attempt: nat, index: nat)

  /** The attempts of one sender, few enough that no identifier comes twice. */
  ghost predicate OneCycle(first: nat, taken: nat, history: seq<Attempt>) {
    Numbered(first, taken, history)
    && forall a, b :: 0 <= a < b < |history| ==> history[b].number < history[a].number + ID_COUNT
  }

  /** Every fragment of the flow in the run is a frame that was sent, named by `src`. Order, loss and
      duplication are free, and so is everything else in the run. */
  ghost predicate AllSent(run: seq<Event>, flow: nat, history: seq<Attempt>, src: seq<FrameId>) {
    && |src| == |run|
    && forall j :: 0 <= j < |run| && run[j].Pushes? && run[j].flow == flow ==> IsFrame(run[j], history, src[j])
  }

  /** No frame of the flow arrives twice. */
  ghost predicate NoDuplicates(run: seq<Event>, flow: nat, src: seq<FrameId>)
    requires |src| == |run|
  {
    forall i, j :: 0 <= i < j < |run|
                   && run[i].Pushes? && run[i].flow == flow && run[j].Pushes? && run[j].flow == flow ==>
      src[i] != src[j]
  }

  predicate IsFrame(e: Event, history: seq<Attempt>, id: FrameId)
    requires e.Pushes?
  {
    && id.attempt < |history|
    && var a := history[id.attempt];
    && id.index < a.sent <= a.plan.count && e.f == a.plan.Piece(id.index)
  }

  lemma OneAttemptPerId(first: nat, taken: nat, history: seq<Attempt>, a: nat, b: nat)
    requires OneCycle(first, taken, history) && a < |history| && b < |history|
    requires history[a].plan.packetId == history[b].plan.packetId
    ensures a == b
  {
    hide Plan.Valid, IdAt;
    if a < b {
      IdsAreDistinct(first, history[a].number, history[b].number);
    } else if b < a {
      IdsAreDistinct(first, history[b].number, history[a].number);
    }
  }

  /** A piece of the packet of call `n` belongs to the same attempt. */
  lemma SameAttempt(
    run: seq<Event>, k: SlotKey, first: nat, taken: nat, history: seq<Attempt>, src: seq<FrameId>,
    n: nat, j: nat, i: nat, part: Bytes)
    requires OneCycle(first, taken, history) && AllSent(run, k.flow, history, src)
    requires n < |run| && j < |run| && run[n].For(k)
    requires Brings(run[j], k, run[n].f.count, run[n].f.totalLen, i, part)
    ensures src[n].attempt < |history|
    ensures var a := history[src[n].attempt];
            && src[j] == FrameId(src[n].attempt, i) && i < a.sent <= a.plan.count == run[n].f.count
            && a.plan.packetId == k.packetId && part == a.plan.Piece(i).payload
  {
    hide OneCycle;
    assert IsFrame(run[n], history, src[n]) && IsFrame(run[j], history, src[j]);
    hide AllSent;
    OneAttemptPerId(first, taken, history, src[n].attempt, src[j].attempt);
  }

  ghost predicate Completes(cfg: Config, r: Reassembler, run: seq<Event>, n: nat, k: SlotKey)
    requires Valid(cfg, r) && n < |run|
  {
    run[n].For(k) && Push(cfg, After(cfg, r, run[..n]), run[n].flow, run[n].f, run[n].now, run[n].hint).1.Complete?
  }

  /** Where the pieces of a completed packet came from: all frames of one attempt, since the slot opened. */
  lemma AttemptOf(
    cfg: Config, r: Reassembler, run: seq<Event>, n: nat, k: SlotKey, first: nat, taken: nat, history: seq<Attempt>,
    src: seq<FrameId>)
    returns (a: nat, at: seq<nat>)
    requires Valid(cfg, r) && r.slots == map[] && n < |run| && Completes(cfg, r, run, n, k)
    requires OneCycle(first, taken, history) && AllSent(run, k.flow, history, src)
    ensures a < |history| && history[a].plan.packetId == k.packetId
    ensures history[a].plan.Valid() && history[a].sent == history[a].plan.count == |at| >= 2
    ensures k in OpenedAt(cfg, r, run[..n])
    ensures forall i :: 0 <= i < |at| ==>
              && OpenedAt(cfg, r, run[..n])[k] <= at[i] <= n
              && run[at[i]].For(k) && src[at[i]] == FrameId(a, i)
    ensures Push(cfg, After(cfg, r, run[..n]), k.flow, run[n].f, run[n].now, run[n].hint).1.payload
            == history[a].plan.payload
  {
    var e := run[n];
    a := src[n].attempt;
    ghost var parts;
    at, parts := CompletePacketsAreSound(cfg, r, run[..n], e, k);
    TakeNext(run, n);
    hide After, OpenedAt, Push, Valid, Joined, Plan.Valid, Plan.Piece, AllSent, OneCycle, Completes;
    forall i | 0 <= i < |at|
      ensures a < |history| && i < history[a].sent <= history[a].plan.count == |at| && src[at[i]] == FrameId(a, i)
      ensures history[a].plan.packetId == k.packetId && parts[i] == history[a].plan.Piece(i).payload
      ensures run[at[i]].For(k)
    {
      SameAttempt(run, k, first, taken, history, src, n, at[i], i, parts[i]);
    }
    WholeAttempt(first, taken, history, a, parts);
  }

  lemma WholeAttempt(first: nat, taken: nat, history: seq<Attempt>, a: nat, parts: seq<Bytes>)
    requires OneCycle(first, taken, history) && a < |history| && |parts| == history[a].plan.count
    requires forall i :: 0 <= i < |parts| ==> i < history[a].sent && parts[i] == history[a].plan.Piece(i).payload
    ensures history[a].plan.Valid() && history[a].sent == history[a].plan.count >= 2
    ensures Joined(parts) == history[a].plan.payload
  {
    var plan := history[a].plan;
    assert parts == Pieces(plan, plan.count);
    PiecesMakeThePacket(plan);
    assert |parts| - 1 < history[a].sent;
  }

  /** A re-planned packet arrives unchanged, even when frames are duplicated: what completes is the payload of
      an attempt that was sent whole. */
  lemma CompletesUnchanged(
    cfg: Config, r: Reassembler, run: seq<Event>, n: nat, k: SlotKey, first: nat, taken: nat, history: seq<Attempt>,
    src: seq<FrameId>)
    requires Valid(cfg, r) && r.slots == map[] && n < |run| && Completes(cfg, r, run, n, k)
    requires OneCycle(first, taken, history) && AllSent(run, k.flow, history, src)
    ensures exists a :: 0 <= a < |history| && history[a].plan.packetId == k.packetId
              && history[a].sent == history[a].plan.count
              && Push(cfg, After(cfg, r, run[..n]), k.flow, run[n].f, run[n].now, run[n].hint).1.payload
                 == history[a].plan.payload
  {
    var a, at := AttemptOf(cfg, r, run, n, k, first, taken, history, src);
  }

  /** A plan that was given up never completes. */
  lemma AbandonedNeverCompletes(
    cfg: Config, r: Reassembler, run: seq<Event>, n: nat, a: nat, first: nat, taken: nat, history: seq<Attempt>,
    src: seq<FrameId>)
    requires Valid(cfg, r) && r.slots == map[] && n < |run| && a < |history|
    requires OneCycle(first, taken, history) && AllSent(run, history[a].plan.flow, history, src)
    requires history[a].sent < history[a].plan.count
    ensures !Completes(cfg, r, run, n, SlotKey(history[a].plan.flow, history[a].plan.packetId))
  {
    var k := SlotKey(history[a].plan.flow, history[a].plan.packetId);
    if Completes(cfg, r, run, n, k) {
      var b, at := AttemptOf(cfg, r, run, n, k, first, taken, history, src);
      OneAttemptPerId(first, taken, history, a, b);
      assert false;
    }
  }

  lemma CompleteRemoves(cfg: Config, r: Reassembler, e: Event, k: SlotKey)
    requires Valid(cfg, r) && e.For(k) && Push(cfg, r, e.flow, e.f, e.now, e.hint).1.Complete?
    ensures k !in Step(cfg, r, e).slots
  {
    CompletesFrom(cfg, r, e, k);
    ExpireKeeps(cfg, r, e.now);
    var (r1, evicted) := Expire(cfg.ttl, r, e.now);
    assert SlotOk(r1.slots[k]);
    hide Expire, Valid, SlotOk, PushKnown, PushNew;
    SlotShape(r1.slots[k]);
    assert Step(cfg, r, e) == PushKnown(r1, k, e.f, evicted).0;
    KnownRemoves(r1, k, e.f, evicted);
  }

  lemma KnownRemoves(r: Reassembler, key: SlotKey, f: Fragment, evicted: bool)
    requires key in r.slots && f.index < f.count && |r.slots[key].pieces| == r.slots[key].count
    requires PushKnown(r, key, f, evicted).1.Complete?
    ensures key !in PushKnown(r, key, f, evicted).0.slots
  {
    hide Gather, DropSlot;
  }

  /** A slot there now and not there then was opened since. */
  lemma {:induction false} OpenedSince(cfg: Config, r: Reassembler, run: seq<Event>, m: nat, k: SlotKey)
    requires Valid(cfg, r) && r.slots == map[] && m <= |run|
    requires k in After(cfg, r, run).slots && k !in After(cfg, r, run[..m]).slots
    ensures OpenedAt(cfg, r, run)[k] >= m
  {
    hide After, OpenedAt, Valid, Opens;
    assert run[..|run|] == run;
    OpenedStep(cfg, r, run, k);
    var n := |run| - 1;
    if !Opens(cfg, After(cfg, r, run[..n]), run[n], k) {
      TakeTake(run, n, m);
      OpenedSince(cfg, r, run[..n], m, k);
    }
  }

  /** No packet completes twice. */
  lemma CompletesOnce(
    cfg: Config, r: Reassembler, run: seq<Event>, m: nat, n: nat, k: SlotKey, first: nat, taken: nat,
    history: seq<Attempt>, src: seq<FrameId>)
    requires Valid(cfg, r) && r.slots == map[] && m < n < |run|
    requires OneCycle(first, taken, history) && AllSent(run, k.flow, history, src) && NoDuplicates(run, k.flow, src)
    requires Completes(cfg, r, run, m, k)
    ensures !Completes(cfg, r, run, n, k)
  {
    if Completes(cfg, r, run, n, k) {
      var a, early := AttemptOf(cfg, r, run, m, k, first, taken, history, src);
      var b, late := AttemptOf(cfg, r, run, n, k, first, taken, history, src);
      var i, j := early[0], late[0];
      OneAttemptPerId(first, taken, history, a, b);
      NoFrameTwice(run, k.flow, src, i, j);
      GoneAfter(cfg, r, run, m, k);
      TakeTake(run, n, m + 1);
      hide *;
      OpenedSince(cfg, r, run[..n], m + 1, k);
      assert false;
    }
  }

  function KeyAt(history: seq<Attempt>, a: nat): SlotKey
    requires a < |history|
  {
    SlotKey(history[a].plan.flow, history[a].plan.packetId)
  }

  /** One packet, one delivery: of all the attempts one call made for a packet, under whatever identifiers, at
      most one completes, once, in the whole run. */
  lemma PacketArrivesOnce(
    cfg: Config, r: Reassembler, run: seq<Event>, m: nat, n: nat, lo: nat, hi: nat, a: nat, b: nat, first: nat,
    taken: nat, history: seq<Attempt>, src: seq<FrameId>)
    requires Valid(cfg, r) && r.slots == map[] && m < n < |run|
    requires OneCall(history, lo, hi) && lo <= a < hi && lo <= b < hi && history[a].plan.flow == history[b].plan.flow
    requires OneCycle(first, taken, history)
    requires AllSent(run, history[a].plan.flow, history, src) && NoDuplicates(run, history[a].plan.flow, src)
    requires Completes(cfg, r, run, m, KeyAt(history, a))
    ensures !Completes(cfg, r, run, n, KeyAt(history, b))
  {
    hide Completes, OneCycle, AllSent, NoDuplicates, Valid;
    if a + 1 < hi {
      assert history[a].sent < history[a].plan.count;
      AbandonedNeverCompletes(cfg, r, run, m, a, first, taken, history, src);
    } else if b + 1 < hi {
      assert history[b].sent < history[b].plan.count;
      AbandonedNeverCompletes(cfg, r, run, n, b, first, taken, history, src);
    } else {
      CompletesOnce(cfg, r, run, m, n, KeyAt(history, a), first, taken, history, src);
    }
  }

  lemma NoFrameTwice(run: seq<Event>, flow: nat, src: seq<FrameId>, i: nat, j: nat)
    requires |src| == |run| && NoDuplicates(run, flow, src) && i < |run| && j < |run| && src[i] == src[j]
    requires run[i].Pushes? && run[i].flow == flow && run[j].Pushes? && run[j].flow == flow
    ensures i == j
  {
  }

  lemma GoneAfter(cfg: Config, r: Reassembler, run: seq<Event>, m: nat, k: SlotKey)
    requires Valid(cfg, r) && m < |run| && Completes(cfg, r, run, m, k)
    ensures k !in After(cfg, r, run[..m + 1]).slots
  {
    TakeTake(run, m + 1, m);
    CompleteRemoves(cfg, After(cfg, r, run[..m]), run[m], k);
    hide Step, Valid, Push;
  }
}
