/** Collision-free flow identifiers (src/vector/flow_id.rs). */
module FlowId {
  import opened Wrappers
  import opened Counting
  import opened IdCycle

  datatype Allocation = Lease(id: nat) | LimitReached | NoneReusable

  /** The nonzero `u32` values. */
  ghost predicate AllIds(ids: set<nat>) {
    forall id :: id in ids ==> 0 < id < WORD
  }

  lemma {:induction false} IdsFit(ids: set<nat>, n: nat)
    requires forall id :: id in ids ==> 0 < id <= n
    ensures |ids| <= n
    decreases n
  {
    if n == 0 {
      assert ids == {};
    } else {
      IdsFit(ids - {n}, n - 1);
    }
  }

  class FlowIdAllocator {
    const limit: nat
    var next: nat
    var active: set<nat>

    ghost predicate Valid()
      reads this
    {
      next < WORD && AllIds(active) && |active| <= limit
    }

    constructor (limit: nat)
      ensures Valid() && this.limit == limit && active == {}
    {
      this.limit, next, active := limit, 1, {};
    }

    /** One turn of the probe loop: the next nonzero identifier. */
    method TakeNext() returns (id: nat)
      requires next < WORD
      modifies this`next
      ensures next < WORD && id == IdAt(old(next), 0) && 0 < id < WORD
      ensures Ahead(old(next), 1, next)
    {
      ghost var was := next;
      id := next;
      next := (next + 1) % WORD;
      if id == 0 {
        id := next;
        next := (next + 1) % WORD;
      }
      forall n: nat
        ensures IdAt(next, n) == IdAt(was, 1 + n)
      {
        Advance(was, n);
      }
      Advance(was, 0);
    }

    /** Fails only at the limit, or when all 2^32 - 1 identifiers are live; otherwise leases one that no live
        lease holds. */
    method Allocate() returns (r: Allocation)
      requires Valid()
      modifies this
      ensures Valid()
      ensures r.LimitReached? <==> old(|active|) >= limit
      ensures r.NoneReusable? <==> old(|active|) < limit && old(|active|) == ID_COUNT
      ensures r.Lease? ==> 0 < r.id < WORD && r.id !in old(active) && active == old(active) + {r.id}
      ensures !r.Lease? ==> active == old(active)
    {
      if |active| >= limit {
        return LimitReached;
      }
      var id := Probe();
      if id.None? {
        return NoneReusable;
      }
      OneMore(active, id.value);
      active := active + {id.value};
      return Lease(id.value);
    }

    /** Up to `limit + 1` turns. */
    method Probe() returns (found: Option<nat>)
      requires Valid() && |active| < limit
      modifies this`next
      ensures next < WORD
      ensures found.Some? ==> 0 < found.value < WORD && found.value !in active
      ensures found.None? ==> |active| == ID_COUNT
    {
      hide IdAt, AllIds, Ahead;
      ghost var first := next;
      AheadNone(first);
      var turn := 0;
      while turn <= limit
        invariant turn <= limit + 1 && next < WORD
        invariant Ahead(first, turn, next)
        invariant Probed(first, turn) <= active
        decreases limit + 1 - turn
      {
        ghost var before := next;
        var id := TakeNext();
        if id !in active {
          return Some(id);
        }
        AheadNow(first, turn, before);
        AheadTogether(first, turn, before, 1, next);
        turn := turn + 1;
      }
      Exhausted(first, turn, active);
      return None;
    }

    /** Dropping a lease. */
    method Release(id: nat)
      requires Valid() && id in active
      modifies this`active
      ensures Valid() && active == old(active) - {id} && |active| < old(|active|)
    {
      active := active - {id};
    }
  }

  lemma OneMore(active: set<nat>, id: nat)
    requires AllIds(active) && 0 < id < WORD && id !in active
    ensures |active| < ID_COUNT && AllIds(active + {id}) && |active + {id}| == |active| + 1
  {
    IdsFit(active + {id}, ID_COUNT);
  }

  /** Pigeonhole: more probes than live identifiers have gone round the whole cycle. */
  lemma Exhausted(first: nat, probes: nat, active: set<nat>)
    requires first < WORD && AllIds(active) && |active| < probes && Probed(first, probes) <= active
    ensures |active| == ID_COUNT
  {
    IdsFit(active, ID_COUNT);
    var n := if probes <= ID_COUNT then probes else ID_COUNT;
    ProbedSize(first, n);
    ProbedGrow(first, n, probes);
    SubsetSize(Probed(first, n), active);
  }

  lemma {:induction false} ProbedGrow(next: nat, n: nat, m: nat)
    requires n <= m
    ensures Probed(next, n) <= Probed(next, m)
    decreases m
  {
    if n < m {
      ProbedGrow(next, n, m - 1);
    }
  }
}
