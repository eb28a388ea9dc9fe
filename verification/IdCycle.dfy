/** The cycle 1, 2, ..., 2^32 - 1, 1, ... that wrapping `u32` counters which skip zero walk through. */
module IdCycle {
  const WORD := 0x1_0000_0000
  const ID_COUNT := 0xFFFF_FFFF

  function AtLeastOne(n: nat): nat {
    if n < 1 then 1 else n
  }

  /** The identifier a counter at `next` gives after `n` others. */
  function IdAt(next: nat, n: nat): nat {
    (AtLeastOne(next) - 1 + n) % ID_COUNT + 1
  }

  /** Taking one identifier moves the counter one place on, whether it stops at zero or skips it. */
  lemma Advance(next: nat, n: nat)
    requires next < WORD
    ensures IdAt(next, 0) == AtLeastOne(next)
    ensures IdAt((AtLeastOne(next) + 1) % WORD, n) == IdAt(next, n + 1)
    ensures IdAt(AtLeastOne((AtLeastOne(next) + 1) % WORD), n) == IdAt(next, n + 1)
  {
  }

  /** A counter at `now` gives what one at `next` gives `n` places on. */
  ghost predicate Ahead(next: nat, n: nat, now: nat) {
    forall m: nat :: IdAt(now, m) == IdAt(next, n + m)
  }

  lemma AheadNone(next: nat)
    ensures Ahead(next, 0, next)
  {
  }

  lemma AheadTogether(next: nat, n: nat, now: nat, k: nat, after: nat)
    requires Ahead(next, n, now) && Ahead(now, k, after)
    ensures Ahead(next, n + k, after)
  {
    hide IdAt;
    forall m: nat
      ensures IdAt(after, m) == IdAt(next, n + k + m)
    {
      assert IdAt(after, m) == IdAt(now, k + m);
      assert IdAt(now, k + m) == IdAt(next, n + (k + m));
      assert n + (k + m) == n + k + m;
    }
  }

  lemma AheadNow(next: nat, n: nat, now: nat)
    requires Ahead(next, n, now)
    ensures IdAt(now, 0) == IdAt(next, n)
  {
    hide IdAt;
    assert IdAt(now, 0) == IdAt(next, n + 0);
  }

  /** Any 2^32 - 1 identifiers taken in a row are nonzero and distinct, across the wrap of the counter. */
  lemma IdsAreDistinct(next: nat, i: nat, j: nat)
    requires next < WORD
    ensures 0 < IdAt(next, i) < WORD
    ensures i < j < i + ID_COUNT ==> IdAt(next, i) != IdAt(next, j)
  {
  }

  /** The first `n` identifiers from `next` on. */
  ghost function Probed(next: nat, n: nat): set<nat> {
    if n == 0 then {} else Probed(next, n - 1) + {IdAt(next, n - 1)}
  }

  lemma {:induction false} ProbedBefore(next: nat, n: nat, id: nat) returns (j: nat)
    requires id in Probed(next, n)
    ensures j < n && IdAt(next, j) == id
  {
    if id == IdAt(next, n - 1) {
      j := n - 1;
    } else {
      j := ProbedBefore(next, n - 1, id);
    }
  }

  lemma {:induction false} ProbedSize(next: nat, n: nat)
    requires next < WORD && n <= ID_COUNT
    ensures |Probed(next, n)| == n
  {
    if n > 0 {
      ProbedSize(next, n - 1);
      if IdAt(next, n - 1) in Probed(next, n - 1) {
        var j := ProbedBefore(next, n - 1, IdAt(next, n - 1));
        IdsAreDistinct(next, j, n - 1);
        assert false;
      }
    }
  }
}
