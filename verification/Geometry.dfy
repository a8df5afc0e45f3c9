/**
  Where a hash value falls in bucket arrays of different sizes: the upper bits of the hash select
  the bucket, so one bucket corresponds to adjacent buckets of a larger array.
 */
module Geometry {
  const BITS: nat := 64
  const BUCKET_LEN: nat := 32

  /** `i << n` */
  function Shl(i: nat, n: nat): nat {
    if n == 0 then i else 2 * Shl(i, n - 1)
  }

  /** `i >> n` */
  function Shr(i: nat, n: nat): nat {
    if n == 0 then i else Shr(i, n - 1) / 2
  }

  function Pow2(n: nat): (r: nat)
    ensures r >= 1
  {
    if n == 0 then 1 else 2 * Pow2(n - 1)
  }

  /** A 64-bit hash value. */
  type Hash = h: nat | h < Pow2(BITS) witness Zero()

  function Zero(): (z: nat)
    ensures z < Pow2(BITS)
  {
    0
  }

  /** The bucket of the hash in an array of `2^log` buckets. */
  function Index(log: nat, hash: Hash): nat
    requires log <= BITS
  {
    Shr(hash, BITS - log)
  }

  lemma {:induction false} ShlNext(i: nat, n: nat)
    ensures Shl(i + 1, n) == Shl(i, n) + Pow2(n)
    ensures Shl(0, n) == 0
  {
    if n > 0 { ShlNext(i, n - 1); }
  }

  lemma {:induction false} ShlMonotone(i: nat, j: nat, n: nat)
    requires i <= j
    ensures Shl(i, n) <= Shl(j, n)
  {
    if n > 0 { ShlMonotone(i, j, n - 1); }
  }

  lemma {:induction false} ShlPow2(m: nat, n: nat)
    ensures Shl(Pow2(m), n) == Pow2(m + n)
  {
    if n > 0 { ShlPow2(m, n - 1); }
  }

  lemma {:induction false} ShrAdds(i: nat, m: nat, n: nat)
    ensures Shr(Shr(i, m), n) == Shr(i, m + n)
  {
    if n > 0 { ShrAdds(i, m, n - 1); }
  }

  /** Shifting right undoes shifting left, and nothing else does. */
  lemma {:induction false} ShrIff(t: nat, i: nat, n: nat)
    ensures Shr(t, n) == i <==> Shl(i, n) <= t < Shl(i + 1, n)
    decreases n
  {
    if n > 0 {
      var h := Shr(t, n - 1);
      ShrIff(t, h, n - 1);
      if h / 2 == i {
        ShlMonotone(2 * i, h, n - 1);
        ShlMonotone(h + 1, 2 * i + 2, n - 1);
      } else if h < 2 * i {
        ShlMonotone(h + 1, 2 * i, n - 1);
      } else {
        ShlMonotone(2 * i + 2, h, n - 1);
      }
      ShlDoubles(i, n - 1);
      ShlDoubles(i + 1, n - 1);
    }
  }

  lemma {:induction false} ShlDoubles(i: nat, n: nat)
    ensures Shl(2 * i, n) == 2 * Shl(i, n)
  {
    if n > 0 { ShlDoubles(i, n - 1); }
  }

  lemma {:induction false} ShlIsProduct(i: nat, n: nat)
    ensures Shl(i, n) == i * Pow2(n)
  {
    if n > 0 { ShlIsProduct(i, n - 1); }
  }

  /** The shifts are the product and the quotient with a power of two. */
  lemma ShiftsAreArithmetic(i: nat, n: nat)
    ensures Shl(i, n) == i * Pow2(n) && Shr(i, n) == i / Pow2(n)
  {
    ShlIsProduct(i, n);
    var q := Shr(i, n);
    ShrIff(i, q, n);
    ShlIsProduct(q, n);
    ShlIsProduct(q + 1, n);
    QuotientIs(i, Pow2(n), q);
  }

  lemma QuotientIs(i: nat, p: nat, q: nat)
    requires p > 0 && q * p <= i < (q + 1) * p
    ensures i / p == q
  {
    var d := i / p;
    assert i == d * p + i % p;
    if d < q {
      MultiplesGrow(d + 1, q, p);
    } else if d > q {
      MultiplesGrow(q + 1, d, p);
    }
  }

  lemma MultiplesGrow(x: nat, y: nat, p: nat)
    requires x <= y
    ensures x * p <= y * p
  {
    assert y * p == x * p + (y - x) * p;
  }

  lemma IndexInRange(log: nat, hash: Hash)
    requires log <= BITS
    ensures Index(log, hash) < Pow2(log)
  {
    var i := Index(log, hash);
    ShrIff(hash, i, BITS - log);
    if Pow2(log) <= i {
      ShlMonotone(Pow2(log), i, BITS - log);
      ShlPow2(log, BITS - log);
    }
  }

  /** The bucket in a smaller array is the bucket in the larger one divided by the ratio of sizes. */
  lemma IndexNests(small: nat, large: nat, hash: Hash)
    requires small <= large <= BITS
    ensures Index(small, hash) == Shr(Index(large, hash), large - small)
  {
    ShrAdds(hash, BITS - large, large - small);
  }

  /** The first bucket of the new array that entries of bucket `i` of the old array can go to. */
  function TargetIndex(oldLog: nat, newLog: nat, i: nat): nat {
    if oldLog >= newLog then Shr(i, oldLog - newLog) else Shl(i, newLog - oldLog)
  }

  /** How many buckets of the new array entries of one bucket of the old array can go to. */
  function Spread(oldLog: nat, newLog: nat): (r: nat)
    ensures r >= 1
  {
    if oldLog >= newLog then 1 else Pow2(newLog - oldLog)
  }

  /** An entry of a bucket of the old array belongs to one of the target buckets. */
  lemma EntryStaysInSpread(oldLog: nat, newLog: nat, hash: Hash)
    requires oldLog <= BITS && newLog <= BITS
    ensures var t := TargetIndex(oldLog, newLog, Index(oldLog, hash));
            t <= Index(newLog, hash) < t + Spread(oldLog, newLog)
  {
    if oldLog >= newLog {
      IndexNests(newLog, oldLog, hash);
    } else {
      IndexNests(oldLog, newLog, hash);
      ShrIff(Index(newLog, hash), Index(oldLog, hash), newLog - oldLog);
      ShlNext(Index(oldLog, hash), newLog - oldLog);
    }
  }

  /** When the array grows, a target bucket belongs to one old bucket only. */
  lemma TargetDeterminesOrigin(oldLog: nat, newLog: nat, i: nat, t: nat)
    requires oldLog < newLog
    requires TargetIndex(oldLog, newLog, i) <= t < TargetIndex(oldLog, newLog, i) + Spread(oldLog, newLog)
    ensures Shr(t, newLog - oldLog) == i
  {
    ShlNext(i, newLog - oldLog);
    ShrIff(t, i, newLog - oldLog);
  }

  /** All target buckets of an old bucket exist in the new array. */
  lemma SpreadInRange(oldLog: nat, newLog: nat, i: nat)
    requires i < Pow2(oldLog)
    ensures TargetIndex(oldLog, newLog, i) + Spread(oldLog, newLog) <= Pow2(newLog)
  {
    if oldLog >= newLog {
      var q := Shr(i, oldLog - newLog);
      ShrIff(i, q, oldLog - newLog);
      if Pow2(newLog) <= q {
        ShlMonotone(Pow2(newLog), q, oldLog - newLog);
        ShlPow2(newLog, oldLog - newLog);
      }
    } else {
      ShlNext(i, newLog - oldLog);
      ShlMonotone(i + 1, Pow2(oldLog), newLog - oldLog);
      ShlPow2(oldLog, newLog - oldLog);
    }
  }

  lemma {:induction false} Pow2Monotone(m: nat, n: nat)
    requires m <= n
    ensures Pow2(m) <= Pow2(n)
    decreases n
  {
    if m < n { Pow2Monotone(m, n - 1); }
  }

  /** An old bucket has at most 32 target buckets exactly if the array grows 32-fold at most. */
  lemma SpreadAtMostBucketLen(oldLog: nat, newLog: nat)
    ensures Spread(oldLog, newLog) <= BUCKET_LEN <==> newLog <= oldLog + 5
  {
    assert Pow2(5) == 32 && Pow2(6) == 64;
    if newLog > oldLog {
      if newLog - oldLog <= 5 {
        Pow2Monotone(newLog - oldLog, 5);
      } else {
        Pow2Monotone(6, newLog - oldLog);
      }
    }
  }
}
