/**
  How large the next bucket array is, and when it is too large for a bucket to be relocated with 32
  target locks.
 */
module Sizing {
  import opened Geometry

  const WORD: nat := 64
  /** The smallest capacity: two buckets. */
  const MINIMUM: nat := 2 * BUCKET_LEN

  /** `n.next_power_of_two()`, for the exponent. */
  function Log2Ceil(n: nat): (k: nat)
    ensures n <= Pow2(k)
    ensures k > 0 ==> Pow2(k - 1) < n
  {
    if n <= 1 then 0 else HalfCeil(n); 1 + Log2Ceil((n + 1) / 2)
  }

  lemma HalfCeil(n: nat)
    requires n > 1
    ensures (n + 1) / 2 < n
  {
  }

  lemma {:induction false} Log2CeilAtMost(n: nat, k: nat)
    ensures Log2Ceil(n) <= k <==> n <= Pow2(k)
  {
    if Log2Ceil(n) <= k {
      Pow2Monotone(Log2Ceil(n), k);
    } else {
      Pow2Monotone(k, Log2Ceil(n) - 1);
    }
  }

  function Max(a: nat, b: nat): nat { if a < b then b else a }

  /** The largest capacity that is asked for: `usize::MAX / 2 - (BUCKET_LEN - 1)`. */
  const LIMIT: nat := 9_223_372_036_854_775_776

  lemma LimitIsBelow()
    ensures LIMIT == Pow2(WORD - 1) - BUCKET_LEN
  {
    assert Pow2(16) == 65536 && Pow2(15) == 32768;
    PowRatio(16, 16);
    PowRatio(32, 16);
    PowRatio(48, 15);
  }

  /** The exponent of the number of buckets for a capacity. */
  function ArrayLog(capacity: nat): nat {
    Log2Ceil((Limited(Max(capacity, MINIMUM)) + BUCKET_LEN - 1) / BUCKET_LEN)
  }

  /** Room for `k` buckets of 32, seen from the capacity and from the number of buckets. */
  lemma BucketsFor(capacity: nat, k: nat)
    ensures (capacity + BUCKET_LEN - 1) / BUCKET_LEN <= Pow2(k) <==> capacity <= Pow2(k + 5)
  {
    assert Pow2(k + 5) == 32 * Pow2(k) by {
      assert Pow2(k + 5) == 2 * Pow2(k + 4) && Pow2(k + 4) == 2 * Pow2(k + 3);
      assert Pow2(k + 3) == 2 * Pow2(k + 2) && Pow2(k + 2) == 2 * Pow2(k + 1);
    }
  }

  function Limited(capacity: nat): nat {
    if capacity < LIMIT then capacity else LIMIT
  }

  lemma LimitedAtMost(capacity: nat, k: nat)
    ensures Limited(capacity) <= Pow2(k) <==> capacity <= Pow2(k) || k >= WORD - 1
  {
    LimitIsBelow();
    if k >= WORD - 1 {
      Pow2Monotone(WORD - 1, k);
    } else {
      Pow2Monotone(k, WORD - 2);
      assert Pow2(WORD - 1) == 2 * Pow2(WORD - 2);
    }
  }

  /** The array is the smallest that has the capacity, between two and `2^58` buckets. */
  lemma ArrayLogIsLeast(capacity: nat, k: nat)
    ensures ArrayLog(capacity) <= k <==> k >= 1 && (capacity <= Pow2(k + 5) || k >= WORD - 6)
  {
    var adjusted := Max(capacity, MINIMUM);
    Log2CeilAtMost((Limited(adjusted) + BUCKET_LEN - 1) / BUCKET_LEN, k);
    BucketsFor(Limited(adjusted), k);
    LimitedAtMost(adjusted, k + 5);
    SmallestArray(k);
  }

  lemma SmallestArray(k: nat)
    ensures MINIMUM <= Pow2(k + 5) <==> k >= 1
  {
    assert Pow2(5) == 32 && Pow2(6) == 64;
    if k >= 1 { Pow2Monotone(6, k + 5); }
  }

  /** The three cases of the resizing policy. */
  predicate Grows(capacity: nat, entries: nat) { entries >= capacity / 8 * 7 }

  predicate Shrinks(capacity: nat, entries: nat) { !Grows(capacity, entries) && entries <= capacity / 16 }

  /** Capacity `c` is where doubling stops. */
  predicate Enough(c: nat, capacity: nat, entries: nat, maximum: nat)
    requires capacity > 0
  {
    c > entries / 8 * 15 || c == maximum || c / capacity == BUCKET_LEN
  }

  /** After `k` doublings doubling may stop. */
  predicate MayStop(log: nat, k: nat, entries: nat, maximum: nat) {
    Enough(Pow2(log + k), Pow2(log), entries, maximum)
  }

  /** Doubling stops for the first time after `k` doublings. */
  ghost predicate StopsAt(log: nat, k: nat, entries: nat, maximum: nat) {
    MayStop(log, k, entries, maximum) && forall j :: 0 <= j < k ==> !MayStop(log, j, entries, maximum)
  }

  lemma {:induction false} PowRatio(log: nat, k: nat)
    ensures Pow2(log + k) == Pow2(log) * Pow2(k)
  {
    if k > 0 { PowRatio(log, k - 1); }
  }

  lemma RatioIs32(log: nat, k: nat)
    ensures Pow2(log + k) / Pow2(log) == BUCKET_LEN <==> k == 5
  {
    PowRatio(log, k);
    assert Pow2(5) == 32 && Pow2(4) == 16 && Pow2(6) == 64;
    Quotient(Pow2(log), Pow2(k));
    if k < 5 { Pow2Monotone(k, 4); }
    if k > 5 { Pow2Monotone(6, k); }
  }

  lemma Quotient(a: nat, b: nat)
    requires a > 0
    ensures (a * b) / a == b
  {
    var q := (a * b) / a;
    if q < b {
      Scaled(a, q + 1, b);
    } else if q > b {
      Scaled(a, b + 1, q);
    }
  }

  lemma Scaled(a: nat, m: nat, n: nat)
    requires m <= n
    ensures a * m <= a * n
  {
  }

  /** The capacity that the resizing policy asks for when the capacity is `2^log`. */
  ghost predicate IsNewCapacity(log: nat, entries: nat, minimum: nat, maximum: nat, r: nat) {
    if Grows(Pow2(log), entries) then
      if Pow2(log) == maximum then r == maximum
      else exists k :: k <= 5 && StopsAt(log, k, entries, maximum) && r == Pow2(log + k)
    else if Shrinks(Pow2(log), entries) then r == Pow2(Log2Ceil(Max(Max(entries, minimum), MINIMUM)))
    else r == Pow2(log)
  }

  method NewCapacity(log: nat, entries: nat, minimum: nat, maximum: nat) returns (r: nat)
    ensures IsNewCapacity(log, entries, minimum, maximum, r)
  {
    var capacity := Pow2(log);
    if entries >= capacity / 8 * 7 {
      if capacity == maximum {
        r := capacity;
      } else {
        r := Doubled(log, entries, maximum);
      }
    } else if entries <= capacity / 16 {
      r := Pow2(Log2Ceil(Max(Max(entries, minimum), MINIMUM)));
    } else {
      r := capacity;
    }
  }

  /** Doubles the capacity until the expected load factor is low enough. */
  method Doubled(log: nat, entries: nat, maximum: nat) returns (r: nat)
    ensures exists k :: k <= 5 && StopsAt(log, k, entries, maximum) && r == Pow2(log + k)
  {
    var capacity := Pow2(log);
    r := capacity;
    ghost var k := 0;
    while r <= entries / 8 * 15
      invariant k <= 5 && r == Pow2(log + k)
      invariant forall j :: 0 <= j < k ==> !MayStop(log, j, entries, maximum)
      decreases 5 - k
    {
      RatioIs32(log, k);
      if r == maximum { break; }
      if r / capacity == BUCKET_LEN { break; }
      assert !MayStop(log, k, entries, maximum);
      r := 2 * r;
      k := k + 1;
    }
    assert StopsAt(log, k, entries, maximum);
  }

  lemma Pow2Compare(m: nat, n: nat)
    ensures Pow2(m) <= Pow2(n) <==> m <= n
  {
    if m <= n { Pow2Monotone(m, n); } else { Pow2Monotone(n + 1, m); }
  }

  lemma ArrayLogOfPow2(c: nat, k: nat, log: nat)
    requires log >= 1 && c == Pow2(k)
    ensures ArrayLog(c) <= log <==> k <= log + 5 || log >= WORD - 6
  {
    ArrayLogIsLeast(c, log);
    Pow2Compare(k, log + 5);
  }

  lemma ShrinkIsRelocatable(log: nat, entries: nat, minimum: nat, r: nat)
    requires 1 <= log && Shrinks(Pow2(log + 5), entries)
    requires r == Pow2(Log2Ceil(Max(Max(entries, minimum), MINIMUM)))
    ensures ArrayLog(r) <= log + 5 <==> minimum <= Pow2(log + 10) || log + 5 >= WORD - 6
  {
    var wanted := Max(Max(entries, minimum), MINIMUM);
    ArrayLogOfPow2(r, Log2Ceil(wanted), log + 5);
    Log2CeilAtMost(wanted, log + 10);
    SmallestArray(log);
    Pow2Monotone(log + 5, log + 10);
  }

  lemma NewCapacityFits(log: nat, entries: nat, minimum: nat, maximum: nat, r: nat)
    requires 1 <= log && IsNewCapacity(log + 5, entries, minimum, maximum, r)
    ensures ArrayLog(r) <= log + 5 <==>
            !(Shrinks(Pow2(log + 5), entries) && minimum > Pow2(log + 10) && log < WORD - 11)
  {
    if Shrinks(Pow2(log + 5), entries) {
      ShrinkIsRelocatable(log, entries, minimum, r);
    } else {
      GrowthIsRelocatable(log, entries, minimum, maximum, r);
    }
  }

  /**
    The new array has more than 32 buckets for a bucket of the old one exactly if the table holds
    few entries and a minimum capacity of more than 32 times the present one has been reserved.
   */
  lemma RelocatableUnlessReserved(log: nat, entries: nat, minimum: nat, maximum: nat, r: nat, newLog: nat)
    requires 1 <= log && IsNewCapacity(log + 5, entries, minimum, maximum, r) && newLog == ArrayLog(r)
    ensures Spread(log, newLog) <= BUCKET_LEN <==>
            !(Shrinks(Pow2(log + 5), entries) && minimum > BUCKET_LEN * Pow2(log + 5) && log < WORD - 11)
  {
    NewCapacityFits(log, entries, minimum, maximum, r);
    SpreadAtMostBucketLen(log, newLog);
    BucketsTimes32(log + 5);
  }

  lemma BucketsTimes32(n: nat)
    ensures Pow2(n + 5) == BUCKET_LEN * Pow2(n)
  {
    PowRatio(n, 5);
    assert Pow2(5) == 32;
  }

  lemma GrowthIsRelocatable(log: nat, entries: nat, minimum: nat, maximum: nat, r: nat)
    requires 1 <= log && IsNewCapacity(log + 5, entries, minimum, maximum, r)
    requires !Shrinks(Pow2(log + 5), entries)
    ensures ArrayLog(r) <= log + 5
  {
    if Grows(Pow2(log + 5), entries) && Pow2(log + 5) != maximum {
      var k :| k <= 5 && StopsAt(log + 5, k, entries, maximum) && r == Pow2(log + 5 + k);
      ArrayLogOfPow2(r, log + 5 + k, log + 5);
    } else {
      ArrayLogOfPow2(r, log + 5, log + 5);
    }
  }

  /** One entry in the smallest table, and ten thousand more places reserved: 256 times as many buckets. */
  lemma ReservationTooLarge(newLog: nat)
    requires newLog == ArrayLog(Pow2(14))
    ensures IsNewCapacity(6, 1, 10_000, Pow2(63), Pow2(14))
    ensures Spread(1, newLog) > BUCKET_LEN
  {
    assert Pow2(6) == 64 && Pow2(13) == 8192 && Pow2(14) == 16384;
    CeilIs(10_000, 14);
    RelocatableUnlessReserved(1, 1, 10_000, Pow2(63), Pow2(14), newLog);
  }

  lemma CeilIs(n: nat, k: nat)
    requires k > 0 && Pow2(k - 1) < n <= Pow2(k)
    ensures Log2Ceil(n) == k
  {
    Log2CeilAtMost(n, k);
    Log2CeilAtMost(n, k - 1);
  }
}
