/** The token bucket behind the rate limits (src/transport/rate_bucket.rs). Times are whole nanoseconds, and
    the products the source forms in floating point are exact integers rounded down. */
module RateBucket {
  import opened Wrappers

  const SECOND := 1_000_000_000
  const UNLIMITED := 0x100_0000_0000

  datatype Bucket = Bucket(rate: nat, capacity: nat, budget: int, updatedAt: int)
  {
    predicate Valid() {
      rate > 0 && budget <= capacity
    }
  }

  function NormalizeRate(rate: int): nat {
    if rate <= 0 then UNLIMITED else rate
  }

  function New(rate: int, capacity: int, now: int): Bucket {
    var cap := if capacity < 0 then 0 else capacity;
    Bucket(NormalizeRate(rate), cap, cap, now)
  }

  function Refill(b: Bucket, now: int): Bucket {
    if now <= b.updatedAt then b
    else
      var added := b.rate * (now - b.updatedAt) / SECOND;
      var budget := if b.capacity == 0 then b.budget
                    else if b.budget + added > b.capacity then b.capacity else b.budget + added;
      b.(budget := budget, updatedAt := now)
  }

  /** The time `bytes` take at `rate`, never less than a nanosecond. */
  function DurationFor(bytes: nat, rate: nat): (d: nat)
    requires rate > 0
    ensures d >= 1
  {
    var nanos := bytes * SECOND / rate;
    if nanos == 0 then 1 else nanos
  }

  /** `saturating_duration_since`. */
  function TimeUntil(t: int, now: int): nat {
    if t <= now then 0 else t - now
  }

  /** `reserve`: the bucket after it and the delay it asks for. */
  function Reserve(b: Bucket, now: int, bytes: int): (Bucket, nat)
    requires b.Valid()
  {
    if bytes <= 0 then (b, 0)
    else
      var r := Refill(b, now);
      if bytes <= r.budget then (r.(budget := r.budget - bytes), 0)
      else
        var clock := r.updatedAt + DurationFor(bytes - r.budget, r.rate);
        (r.(budget := 0, updatedAt := clock), TimeUntil(clock, now))
  }

  // ---------------------------------------------------------------------------------------------
  // One reservation.

  lemma FloorBounds(x: nat, d: nat)
    requires d > 0
    ensures d * (x / d) <= x < d * (x / d) + d
  {
  }

  /** Waiting that long earns the missing bytes but for a nanosecond's worth, and no nanosecond too much. */
  lemma DurationBounds(bytes: nat, rate: nat)
    requires rate > 0 && bytes > 0
    ensures SECOND * bytes <= rate * DurationFor(bytes, rate) + rate
    ensures rate * DurationFor(bytes, rate) <= SECOND * bytes + rate
  {
    FloorBounds(bytes * SECOND, rate);
  }

  lemma RefillBounds(b: Bucket, now: int)
    requires b.Valid()
    ensures var r := Refill(b, now);
            && r.Valid() && r.rate == b.rate && r.capacity == b.capacity
            && r.updatedAt == (if now <= b.updatedAt then b.updatedAt else now)
            && b.budget <= r.budget
            && SECOND * r.budget <= SECOND * b.budget + b.rate * (r.updatedAt - b.updatedAt)
  {
    if now > b.updatedAt {
      FloorBounds(b.rate * (now - b.updatedAt), SECOND);
    }
  }

  /** What the bucket can grant at `now` without a delay: what is left while its clock is ahead, or for ever when
      it has no capacity; otherwise what is left and earned, up to the capacity. */
  predicate Affordable(b: Bucket, now: int, bytes: int) {
    if now <= b.updatedAt || b.capacity == 0 then bytes <= b.budget
    else bytes <= b.capacity && SECOND * (bytes - b.budget) <= b.rate * (now - b.updatedAt)
  }

  lemma WholePart(x: nat, d: nat, n: int)
    requires d > 0
    ensures n <= x / d <==> d * n <= x
  {
    FloorBounds(x, d);
    if n <= x / d {
      assert d * n <= d * (x / d) by { Monotone(d, n, x / d); }
    } else {
      assert d * (x / d + 1) <= d * n by { Monotone(d, x / d + 1, n); }
      Distribute(d, x / d, 1);
    }
  }

  lemma Monotone(d: nat, m: int, n: int)
    requires m <= n
    ensures d * m <= d * n
  {
    assert d * (n - m) >= 0;
    Distribute(d, m, n - m);
  }

  /** A refill earns every whole byte the rate gives for the time, and no more. */
  lemma RefillExact(b: Bucket, now: int, bytes: int)
    requires b.Valid()
    ensures bytes <= Refill(b, now).budget <==> Affordable(b, now, bytes)
  {
    if now > b.updatedAt && b.capacity > 0 {
      WholePart(b.rate * (now - b.updatedAt), SECOND, bytes - b.budget);
    }
  }

  lemma EarnsAll(b: Bucket, now: int)
    requires b.Valid()
    ensures forall bytes :: bytes <= Refill(b, now).budget <==> Affordable(b, now, bytes)
  {
    hide Refill, Affordable;
    forall bytes
      ensures bytes <= Refill(b, now).budget <==> Affordable(b, now, bytes)
    {
      RefillExact(b, now, bytes);
    }
  }

  lemma RefillClock(b: Bucket, now: int)
    ensures Refill(b, now).updatedAt == if now <= b.updatedAt then b.updatedAt else now
  {
  }

  /** A reservation has no delay exactly when it is affordable. */
  lemma NoDelayIff(b: Bucket, now: int, bytes: int)
    requires b.Valid() && bytes > 0
    ensures Reserve(b, now, bytes).1 == 0 <==> Affordable(b, now, bytes)
  {
    RefillExact(b, now, bytes);
    RefillClock(b, now);
    hide Refill, Affordable;
  }

  /** After idling long enough for its capacity the bucket is full and grants all of it at once. */
  lemma IdleBucketIsFull(b: Bucket, now: int)
    requires b.Valid() && b.capacity > 0 && now > b.updatedAt
    requires SECOND * (b.capacity - b.budget) <= b.rate * (now - b.updatedAt)
    ensures Refill(b, now).budget == b.capacity && Reserve(b, now, b.capacity).1 == 0
  {
    RefillExact(b, now, b.capacity);
    RefillBounds(b, now);
    NoDelayIff(b, now, b.capacity);
    hide Refill, Reserve;
  }

  lemma Distribute(r: int, a: int, b: int)
    ensures r * (a + b) == r * a + r * b
  {
  }

  /** What a reservation may grant: the budget it used up and what its clock moved for, but for one
      nanosecond. */
  lemma ReserveBound(b: Bucket, now: int, bytes: int)
    requires b.Valid() && bytes > 0
    ensures var r := Reserve(b, now, bytes).0;
            && r.Valid() && r.rate == b.rate && r.capacity == b.capacity && b.updatedAt <= r.updatedAt
            && SECOND * (bytes + r.budget) <= SECOND * b.budget + b.rate * (r.updatedAt - b.updatedAt + 1)
  {
    RefillBounds(b, now);
    var f, r := Refill(b, now), Reserve(b, now, bytes).0;
    Distribute(b.rate, f.updatedAt - b.updatedAt, 1);
    if bytes > f.budget {
      var d := DurationFor(bytes - f.budget, f.rate);
      DurationBounds(bytes - f.budget, f.rate);
      Distribute(b.rate, f.updatedAt - b.updatedAt, d + 1);
      Distribute(b.rate, d, 1);
    }
  }

  // ---------------------------------------------------------------------------------------------
  // Runs of reservations.

  datatype Call = Call(now: int, bytes: int)

  function After(b: Bucket, calls: seq<Call>): (r: Bucket)
    requires b.Valid()
    ensures r.Valid() && r.rate == b.rate && r.capacity == b.capacity
  {
    if calls == [] then b
    else
      var before, c := After(b, calls[..|calls| - 1]), calls[|calls| - 1];
      if c.bytes > 0 then ReserveBound(before, c.now, c.bytes); Reserve(before, c.now, c.bytes).0
      else Reserve(before, c.now, c.bytes).0
  }

  /** Bytes granted by the calls, and how many of them asked for any. */
  function Granted(calls: seq<Call>): nat {
    if calls == [] then 0
    else
      var c := calls[|calls| - 1];
      Granted(calls[..|calls| - 1]) + if c.bytes > 0 then c.bytes else 0
  }

  function Asked(calls: seq<Call>): nat {
    if calls == [] then 0 else Asked(calls[..|calls| - 1]) + if calls[|calls| - 1].bytes > 0 then 1 else 0
  }

  /** The conservation law of a run: everything granted came out of the budget or off the clock. */
  lemma {:induction false} RunBound(b: Bucket, calls: seq<Call>)
    requires b.Valid()
    ensures var r := After(b, calls);
            && b.updatedAt <= r.updatedAt
            && SECOND * (Granted(calls) + r.budget)
               <= SECOND * b.budget + b.rate * (r.updatedAt - b.updatedAt + Asked(calls))
  {
    if calls == [] {
      assert b.rate * 0 == 0;
    } else {
      var init, c := calls[..|calls| - 1], calls[|calls| - 1];
      var mid, r := After(b, init), After(b, calls);
      RunBound(b, init);
      if c.bytes > 0 {
        ReserveBound(mid, c.now, c.bytes);
        var early, late := mid.updatedAt - b.updatedAt + Asked(init), r.updatedAt - mid.updatedAt + 1;
        Distribute(b.rate, early, late);
        assert early + late == r.updatedAt - b.updatedAt + Asked(calls);
      }
    }
  }

  /** When the caller of a reservation may go on. */
  function ReleaseTime(b: Bucket, c: Call): int
    requires b.Valid()
  {
    c.now + Reserve(b, c.now, c.bytes).1
  }

  ghost predicate Ordered(start: int, calls: seq<Call>) {
    forall i, j :: 0 <= i <= j < |calls| ==> start <= calls[i].now <= calls[j].now
  }

  /** Budget is left only when the clock is not ahead of the calls. */
  ghost predicate Settled(b: Bucket, now: int) {
    0 <= b.budget && (b.budget > 0 ==> b.updatedAt <= now)
  }

  lemma {:induction false} RunSettles(rate: int, capacity: int, start: int, calls: seq<Call>, now: int)
    requires Ordered(start, calls) && start <= now && (calls != [] ==> calls[|calls| - 1].now <= now)
    ensures Settled(After(New(rate, capacity, start), calls), now)
  {
    if calls != [] {
      var init, c := calls[..|calls| - 1], calls[|calls| - 1];
      assert Ordered(start, init) by { assert forall i :: 0 <= i < |init| ==> init[i] == calls[i]; }
      RunSettles(rate, capacity, start, init, c.now);
      var b := New(rate, capacity, start);
      RefillBounds(After(b, init), c.now);
    }
  }

  /** Release times are the bucket's clock, so along a run they never decrease. */
  lemma ReleaseIsTheClock(rate: int, capacity: int, start: int, calls: seq<Call>, c: Call)
    requires Ordered(start, calls + [c]) && c.bytes > 0
    ensures var before := After(New(rate, capacity, start), calls);
            && ReleaseTime(before, c) == Reserve(before, c.now, c.bytes).0.updatedAt
            && before.updatedAt <= ReleaseTime(before, c) && c.now <= ReleaseTime(before, c)
  {
    var b, all := New(rate, capacity, start), calls + [c];
    assert forall i :: 0 <= i < |calls| ==> all[i] == calls[i];
    assert all[|calls|] == c;
    RunSettles(rate, capacity, start, calls, c.now);
    RefillBounds(After(b, calls), c.now);
    ReserveBound(After(b, calls), c.now, c.bytes);
  }

  /** The rate bound: whatever is asked for and whenever, the bytes of any stretch of calls are at most the
      capacity plus the rate over the time between the releases that enclose it, give or take a nanosecond a
      call. A bucket of capacity zero keeps the bare rate. */
  lemma GrantedWithinRate(rate: int, capacity: int, start: int, calls: seq<Call>, more: seq<Call>)
    requires Ordered(start, calls + more)
    ensures var b := New(rate, capacity, start);
            var early := After(b, calls);
            var late := After(early, more);
            && early.updatedAt <= late.updatedAt
            && SECOND * Granted(more) <= SECOND * b.capacity + b.rate * (late.updatedAt - early.updatedAt + Asked(more))
  {
    var b := New(rate, capacity, start);
    var early := After(b, calls);
    RunBound(early, more);
    var all := calls + more;
    assert forall i :: 0 <= i < |calls| ==> all[i] == calls[i];
    var now := if all == [] then start else all[|all| - 1].now;
    assert Ordered(start, calls);
    RunSettles(rate, capacity, start, calls, now);
    FinalBudget(b, calls, more, now);
  }

  /** The burst comes back: whatever was asked for before, a bucket whose last release is the time of its capacity
      ago grants its whole capacity at once. */
  lemma BurstComesBack(rate: int, capacity: int, start: int, calls: seq<Call>, now: int)
    requires Ordered(start, calls) && start <= now && (calls != [] ==> calls[|calls| - 1].now <= now) && capacity > 0
    requires var b := After(New(rate, capacity, start), calls);
             now > b.updatedAt && SECOND * capacity <= b.rate * (now - b.updatedAt)
    ensures Reserve(After(New(rate, capacity, start), calls), now, capacity).1 == 0
  {
    RunSettles(rate, capacity, start, calls, now);
    IdleBucketIsFull(After(New(rate, capacity, start), calls), now);
    hide After, Reserve;
  }

  lemma {:induction false} BudgetStays(b: Bucket, calls: seq<Call>)
    requires b.Valid() && b.budget >= 0
    ensures After(b, calls).budget >= 0
  {
    if calls != [] {
      var init, c := calls[..|calls| - 1], calls[|calls| - 1];
      BudgetStays(b, init);
      RefillBounds(After(b, init), c.now);
    }
  }

  lemma FinalBudget(b: Bucket, calls: seq<Call>, more: seq<Call>, now: int)
    requires b.Valid() && Settled(After(b, calls), now)
    ensures After(After(b, calls), more).budget >= 0
  {
    BudgetStays(After(b, calls), more);
  }

  /** Every caller comes before the previous one is released. */
  ghost predicate Backlogged(b: Bucket, calls: seq<Call>)
    requires b.Valid()
  {
    calls == [] ||
    var init, c := calls[..|calls| - 1], calls[|calls| - 1];
    Backlogged(b, init) && c.now <= After(b, init).updatedAt
  }

  /** Every caller waits for what it gets beyond the refilled budget, and not a nanosecond more. */
  lemma NoUndueDelay(b: Bucket, now: int, bytes: int)
    requires b.Valid() && bytes > 0
    ensures var f, r := Refill(b, now), Reserve(b, now, bytes).0;
            b.rate * (r.updatedAt - f.updatedAt - 1) <= SECOND * (bytes + r.budget - f.budget)
  {
    RefillBounds(b, now);
    var f := Refill(b, now);
    hide Refill;
    if bytes <= f.budget {
      assert b.rate * -1 <= 0;
    } else {
      DurationBounds(bytes - f.budget, b.rate);
      Distribute(b.rate, DurationFor(bytes - f.budget, b.rate), -1);
    }
  }

  /** The limiter does not throttle more than it must: while every caller comes before the previous release,
      the time it takes earns at the rate no more than what was granted and what is left of the budget, but for
      a nanosecond a call. */
  lemma {:induction false} BackloggedRunsAtTheRate(b: Bucket, calls: seq<Call>)
    requires b.Valid() && Backlogged(b, calls)
    ensures var r := After(b, calls);
            && b.updatedAt <= r.updatedAt
            && b.rate * (r.updatedAt - b.updatedAt - Asked(calls)) <= SECOND * (Granted(calls) + r.budget - b.budget)
  {
    RunBound(b, calls);
    if calls == [] {
      assert b.rate * 0 == 0;
    } else {
      var init, c := calls[..|calls| - 1], calls[|calls| - 1];
      var mid, r := After(b, init), After(b, calls);
      BackloggedRunsAtTheRate(b, init);
      if c.bytes > 0 {
        NoUndueDelay(mid, c.now, c.bytes);
        var early, late := mid.updatedAt - b.updatedAt - Asked(init), r.updatedAt - mid.updatedAt - 1;
        Distribute(b.rate, early, late);
        assert early + late == r.updatedAt - b.updatedAt - Asked(calls);
      }
    }
  }

  // ---------------------------------------------------------------------------------------------
  // The bucket as an object.

  class TokenBucket {
    var rate: nat
    var capacity: nat
    var budget: int
    var updatedAt: int

    function View(): Bucket
      reads this
    {
      Bucket(rate, capacity, budget, updatedAt)
    }

    constructor (rate: int, capacity: int, now: int)
      ensures View() == New(rate, capacity, now) && View().Valid()
    {
      this.rate := NormalizeRate(rate);
      this.capacity := if capacity < 0 then 0 else capacity;
      this.budget := if capacity < 0 then 0 else capacity;
      updatedAt := now;
    }

    method RefillTo(now: int)
      requires View().Valid()
      modifies this
      ensures View() == Refill(old(View()), now) && View().Valid()
      ensures old(budget) <= budget && SECOND * budget <= SECOND * old(budget) + rate * (updatedAt - old(updatedAt))
      ensures forall bytes :: bytes <= budget <==> Affordable(old(View()), now, bytes)
    {
      RefillBounds(View(), now);
      EarnsAll(View(), now);
      if now <= updatedAt {
        return;
      }
      if capacity > 0 {
        var added := rate * (now - updatedAt) / SECOND;
        budget := budget + added;
        if budget > capacity {
          budget := capacity;
        }
      }
      updatedAt := now;
    }

    method ReserveBytes(now: int, bytes: int) returns (delay: nat)
      requires View().Valid()
      modifies this
      ensures (View(), delay) == Reserve(old(View()), now, bytes) && View().Valid()
      ensures rate == old(rate) && capacity == old(capacity) && old(updatedAt) <= updatedAt
      ensures bytes <= 0 ==> View() == old(View()) && delay == 0
      ensures bytes > 0 ==> (delay == 0 <==> Affordable(old(View()), now, bytes))
      ensures bytes > 0 ==>
                && SECOND * (bytes + budget) <= SECOND * old(budget) + rate * (updatedAt - old(updatedAt) + 1)
                && now <= updatedAt && (delay > 0 ==> now + delay == updatedAt && budget == 0)
    {
      if bytes <= 0 {
        return 0;
      }
      ReserveBound(View(), now, bytes);
      RefillBounds(View(), now);
      NoDelayIff(View(), now, bytes);
      hide Affordable;
      RefillTo(now);
      if bytes <= budget {
        budget := budget - bytes;
        return 0;
      }
      var missing := bytes - budget;
      var wait := DurationFor(missing, rate);
      budget := 0;
      updatedAt := updatedAt + wait;
      return TimeUntil(updatedAt, now);
    }

    /** Debts are allowed here; the budget may go below zero. */
    method Spend(now: int, bytes: int)
      requires View().Valid()
      modifies this
      ensures View().Valid()
      ensures View() == if bytes <= 0 then old(View())
                        else Refill(old(View()), now).(budget := Refill(old(View()), now).budget - bytes)
      ensures bytes > 0 ==> forall x :: x <= budget + bytes <==> Affordable(old(View()), now, x)
      ensures bytes > 0 ==>
                && SECOND * (bytes + budget) <= SECOND * old(budget) + rate * (updatedAt - old(updatedAt))
                && updatedAt == if now <= old(updatedAt) then old(updatedAt) else now
    {
      if bytes > 0 {
        RefillTo(now);
        budget := budget - bytes;
      }
    }

    method Configure(now: int, rate: int, capacity: int)
      requires View().Valid()
      modifies this
      ensures View().Valid() && this.rate == NormalizeRate(rate) && this.capacity == New(rate, capacity, now).capacity
      ensures updatedAt == if now <= old(updatedAt) then old(updatedAt) else now
      ensures forall bytes :: bytes <= budget <==> bytes <= this.capacity && Affordable(old(View()), now, bytes)
    {
      RefillTo(now);
      this.rate := NormalizeRate(rate);
      this.capacity := if capacity < 0 then 0 else capacity;
      if budget > this.capacity {
        budget := this.capacity;
      }
    }
  }
}
