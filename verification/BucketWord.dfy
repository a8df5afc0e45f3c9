/**
  The state word of a bucket as bits: what the compare-and-exchanges of the lock do to the 32 bits is
  what the steps of the lock model do to flags and a number.
 */
module BucketWord {
  import BucketLock

  type Bits = bv32

  predicate Killed(w: Bits) { w & 0x8000_0000 != 0 }

  predicate Waiting(w: Bits) { w & 0x4000_0000 != 0 }

  predicate Lock(w: Bits) { w & 0x2000_0000 != 0 }

  function Readers(w: Bits): Bits { w & 0x1FFF_FFFF }

  /** `(current & LOCK_MASK) >= SLOCK_MAX` */
  predicate Crowded(w: Bits) { w & 0x3FFF_FFFF >= 0x1FFF_FFFF }

  /** The comparison with one number finds out about the lock bit and about the number of readers. */
  lemma CrowdedMeans(w: Bits)
    ensures Crowded(w) <==> Lock(w) || Readers(w) == 0x1FFF_FFFF
  {
  }

  /** One more reader never carries into the lock bit or beyond. */
  lemma MoreReaders(w: Bits)
    requires !Crowded(w)
    ensures w + 1 > w && Readers(w + 1) == Readers(w) + 1
    ensures !Lock(w + 1) && Waiting(w + 1) == Waiting(w) && Killed(w + 1) == Killed(w)
  {
  }

  /** One reader less never borrows from the lock bit. */
  lemma FewerReaders(w: Bits)
    requires Readers(w) > 0
    ensures Readers((w - 1) & !0x4000_0000) == Readers(w) - 1
    ensures Lock((w - 1) & !0x4000_0000) == Lock(w) && Killed((w - 1) & !0x4000_0000) == Killed(w)
    ensures !Waiting((w - 1) & !0x4000_0000)
  {
  }

  // ---------------------------------------------------------------- the number of readers

  function Byte0(x: Bits): Bits { x & 0xFF }
  function Byte1(x: Bits): Bits { (x >> 8) & 0xFF }
  function Byte2(x: Bits): Bits { (x >> 16) & 0xFF }
  function Byte3(x: Bits): Bits { (x >> 24) & 0xFF }

  function Small(b: Bits): (n: nat)
    requires b <= 0xFF
    ensures n <= 0xFF
  {
    b as nat
  }

  function FromBytes(a: Bits, b: Bits, c: Bits, d: Bits): nat
    requires a <= 0xFF && b <= 0xFF && c <= 0xFF && d <= 0xFF
  {
    Small(a) + 0x100 * Small(b) + 0x1_0000 * Small(c) + 0x100_0000 * Small(d)
  }

  /** The number that the bits stand for. */
  function Number(x: Bits): nat {
    FromBytes(Byte0(x), Byte1(x), Byte2(x), Byte3(x))
  }

  lemma SmallNext(b: Bits)
    requires b < 0xFF
    ensures Small(b + 1) == Small(b) + 1
  {
  }

  lemma SmallEnds()
    ensures Small(0) == 0 && Small(0xFF) == 0xFF && Small(0x1F) == 0x1F
  {
  }

  lemma SmallIsInjective(b: Bits, c: Bits)
    requires b <= 0xFF && c <= 0xFF && Small(b) == Small(c)
    ensures b == c
  {
  }

  lemma Carry0(x: Bits)
    requires Byte0(x) < 0xFF
    ensures Byte0(x + 1) == Byte0(x) + 1
    ensures Byte1(x + 1) == Byte1(x) && Byte2(x + 1) == Byte2(x) && Byte3(x + 1) == Byte3(x)
  {
  }

  lemma Carry1(x: Bits)
    requires Byte0(x) == 0xFF && Byte1(x) < 0xFF
    ensures Byte0(x + 1) == 0 && Byte1(x + 1) == Byte1(x) + 1
    ensures Byte2(x + 1) == Byte2(x) && Byte3(x + 1) == Byte3(x)
  {
  }

  lemma Carry2(x: Bits)
    requires Byte0(x) == 0xFF && Byte1(x) == 0xFF && Byte2(x) < 0xFF
    ensures Byte0(x + 1) == 0 && Byte1(x + 1) == 0 && Byte2(x + 1) == Byte2(x) + 1 && Byte3(x + 1) == Byte3(x)
  {
  }

  lemma Carry3(x: Bits)
    requires Byte0(x) == 0xFF && Byte1(x) == 0xFF && Byte2(x) == 0xFF && Byte3(x) < 0xFF
    ensures Byte0(x + 1) == 0 && Byte1(x + 1) == 0 && Byte2(x + 1) == 0 && Byte3(x + 1) == Byte3(x) + 1
  {
  }

  lemma TopByte(x: Bits)
    requires x < 0x1FFF_FFFF
    ensures Byte3(x) < 0xFF
  {
  }

  lemma NextLow(a: Bits, b: Bits, c: Bits, d: Bits)
    requires a < 0xFF && b <= 0xFF && c <= 0xFF && d <= 0xFF
    ensures FromBytes(a + 1, b, c, d) == FromBytes(a, b, c, d) + 1
  {
    SmallNext(a);
  }

  lemma NextMiddle(b: Bits, c: Bits, d: Bits)
    requires b < 0xFF && c <= 0xFF && d <= 0xFF
    ensures FromBytes(0, b + 1, c, d) == FromBytes(0xFF, b, c, d) + 1
  {
    SmallEnds();
    SmallNext(b);
  }

  lemma NextHigh(c: Bits, d: Bits)
    requires c < 0xFF && d <= 0xFF
    ensures FromBytes(0, 0, c + 1, d) == FromBytes(0xFF, 0xFF, c, d) + 1
  {
    SmallEnds();
    SmallNext(c);
  }

  lemma NextTop(d: Bits)
    requires d < 0xFF
    ensures FromBytes(0, 0, 0, d + 1) == FromBytes(0xFF, 0xFF, 0xFF, d) + 1
  {
    SmallEnds();
    SmallNext(d);
  }

  lemma ByteIsSmall(x: Bits)
    ensures Byte0(x) <= 0xFF && Byte1(x) <= 0xFF && Byte2(x) <= 0xFF
  {
  }

  lemma NumberNext(x: Bits)
    requires x < 0x1FFF_FFFF
    ensures Number(x + 1) == Number(x) + 1
  {
    TopByte(x);
    ByteIsSmall(x);
    if Byte0(x) < 0xFF {
      Carry0(x);
      NextLow(Byte0(x), Byte1(x), Byte2(x), Byte3(x));
    } else if Byte1(x) < 0xFF {
      Carry1(x);
      NextMiddle(Byte1(x), Byte2(x), Byte3(x));
    } else if Byte2(x) < 0xFF {
      Carry2(x);
      NextHigh(Byte2(x), Byte3(x));
    } else {
      Carry3(x);
      NextTop(Byte3(x));
    }
  }

  lemma SameBytes(x: Bits, y: Bits)
    requires Byte0(x) == Byte0(y) && Byte1(x) == Byte1(y) && Byte2(x) == Byte2(y) && Byte3(x) == Byte3(y)
    ensures x == y
  {
  }

  lemma SameDigits(a: nat, b: nat, c: nat, d: nat, e: nat, f: nat, g: nat, h: nat)
    requires a <= 0xFF && b <= 0xFF && c <= 0xFF && d <= 0xFF && e <= 0xFF && f <= 0xFF && g <= 0xFF && h <= 0xFF
    requires a + 0x100 * b + 0x1_0000 * c + 0x100_0000 * d == e + 0x100 * f + 0x1_0000 * g + 0x100_0000 * h
    ensures a == e && b == f && c == g && d == h
  {
  }

  lemma NumberIsInjective(x: Bits, y: Bits)
    requires Number(x) == Number(y)
    ensures x == y
  {
    SameDigits(Small(Byte0(x)), Small(Byte1(x)), Small(Byte2(x)), Small(Byte3(x)),
               Small(Byte0(y)), Small(Byte1(y)), Small(Byte2(y)), Small(Byte3(y)));
    SmallIsInjective(Byte0(x), Byte0(y));
    SmallIsInjective(Byte1(x), Byte1(y));
    SmallIsInjective(Byte2(x), Byte2(y));
    SmallIsInjective(Byte3(x), Byte3(y));
    SameBytes(x, y);
  }

  lemma TopIsSmall(x: Bits)
    requires x <= 0x1FFF_FFFF
    ensures Byte3(x) <= 0x1F
  {
  }

  lemma SmallTop(b: Bits)
    requires b <= 0x1F
    ensures Small(b) <= 0x1F
  {
  }

  lemma GreatestBytes(x: Bits)
    requires x == 0x1FFF_FFFF
    ensures Byte0(x) == 0xFF && Byte1(x) == 0xFF && Byte2(x) == 0xFF && Byte3(x) == 0x1F
  {
  }

  lemma NumberOfReaders(x: Bits)
    requires x <= 0x1FFF_FFFF
    ensures Number(x) <= BucketLock.SLOCK_MAX
    ensures Number(x) == BucketLock.SLOCK_MAX <==> x == 0x1FFF_FFFF
  {
    var g: Bits := 0x1FFF_FFFF;
    GreatestBytes(g);
    SmallEnds();
    TopIsSmall(x);
    SmallTop(Byte3(x));
    if Number(x) == Number(g) { NumberIsInjective(x, g); }
  }

  /** Counting up to `n` from zero gives `x`. */
  predicate Counts(x: Bits, n: nat)
    decreases n
  {
    if n == 0 then x == 0 else x != 0 && Counts(x - 1, n - 1)
  }

  lemma CountsNext(x: Bits, y: Bits, n: nat)
    requires Counts(x, n) && y != 0 && y - 1 == x
    ensures Counts(y, n + 1)
  {
  }

  lemma {:induction false} CountsNumber(x: Bits, n: nat)
    requires Counts(x, n) && x <= 0x1FFF_FFFF
    ensures Number(x) == n
    decreases n
  {
    SmallEnds();
    if n > 0 {
      var y := x - 1;
      OneBack(x, y);
      CountsNumber(y, n - 1);
      NumberNext(y);
    }
  }

  lemma OneBack(x: Bits, y: Bits)
    requires 0 < x <= 0x1FFF_FFFF && y == x - 1
    ensures y < 0x1FFF_FFFF && y + 1 == x
  {
  }

  lemma {:induction false} EachCounts(x: Bits) returns (n: nat)
    ensures Counts(x, n)
    decreases x
  {
    if x == 0 {
      n := 0;
    } else {
      var m := EachCounts(x - 1);
      n := m + 1;
    }
  }

  lemma {:induction false} CountsOne(x: Bits, n: nat, m: nat)
    requires Counts(x, n) && Counts(x, m)
    ensures n == m
    decreases n
  {
    if n > 0 { CountsOne(x - 1, n - 1, m - 1); }
  }

  lemma {:induction false} CountsSame(x: Bits, y: Bits, n: nat)
    requires Counts(x, n) && Counts(y, n)
    ensures x == y
    decreases n
  {
    if n > 0 {
      CountsSame(x - 1, y - 1, n - 1);
      SameNext(x, y);
    }
  }

  lemma SameNext(x: Bits, y: Bits)
    requires x - 1 == y - 1
    ensures x == y
  {
  }

  // ---------------------------------------------------------------- the word of the model

  /** The bits are those of the word. */
  predicate StandsFor(w: Bits, word: BucketLock.Word) {
    && word.killed == Killed(w) && word.waiting == Waiting(w) && word.lock == Lock(w)
    && Counts(Readers(w), word.readers)
  }

  lemma ReadersBound(w: Bits)
    ensures Readers(w) <= 0x1FFF_FFFF
  {
  }

  lemma FlagsAndReaders(w: Bits, v: Bits)
    requires Killed(w) == Killed(v) && Waiting(w) == Waiting(v) && Lock(w) == Lock(v) && Readers(w) == Readers(v)
    ensures w == v
  {
  }

  /** All bits stand for a word, and comparing bits compares words. */
  lemma BitsAreWords(w: Bits, v: Bits) returns (a: BucketLock.Word, b: BucketLock.Word)
    ensures StandsFor(w, a) && StandsFor(v, b) && (w == v <==> a == b)
  {
    var n := EachCounts(Readers(w));
    var m := EachCounts(Readers(v));
    a := BucketLock.Word(Killed(w), Waiting(w), Lock(w), n);
    b := BucketLock.Word(Killed(v), Waiting(v), Lock(v), m);
    if w == v { CountsOne(Readers(w), n, m); }
    if a == b {
      CountsSame(Readers(w), Readers(v), n);
      FlagsAndReaders(w, v);
    }
  }

  lemma CrowdedUnpacked(w: Bits, word: BucketLock.Word)
    requires StandsFor(w, word)
    ensures Crowded(w) <==> BucketLock.Crowded(word)
    ensures word.readers <= BucketLock.SLOCK_MAX
  {
    CrowdedMeans(w);
    CountedReaders(Readers(w), word.readers);
    ReadersBound(w);
  }

  lemma CountedReaders(x: Bits, n: nat)
    requires Counts(x, n)
    ensures x <= 0x1FFF_FFFF ==>
              n <= BucketLock.SLOCK_MAX && (n == BucketLock.SLOCK_MAX <==> x == 0x1FFF_FFFF)
  {
    if x <= 0x1FFF_FFFF {
      CountsNumber(x, n);
      NumberOfReaders(x);
    }
  }

  /** What `Reader::try_lock` puts in place is the word with one more reader. */
  lemma ReaderLocksUnpacked(w: Bits, word: BucketLock.Word)
    requires StandsFor(w, word) && !Crowded(w)
    ensures StandsFor(w + 1, BucketLock.LockedWord(BucketLock.Reader, word))
  {
    MoreReaders(w);
    CrowdedMeans(w);
    NextReader(w);
    CountsNext(Readers(w), Readers(w + 1), word.readers);
  }

  lemma NextReader(w: Bits)
    requires !Crowded(w)
    ensures Readers(w + 1) != 0 && Readers(w + 1) - 1 == Readers(w) && !Lock(w)
  {
  }

  lemma ExpectedBits(w: Bits)
    ensures Readers(w & !0x3FFF_FFFF) == 0 && !Lock(w & !0x3FFF_FFFF)
    ensures Killed(w & !0x3FFF_FFFF) == Killed(w) && Waiting(w & !0x3FFF_FFFF) == Waiting(w)
  {
  }

  lemma LockBits(w: Bits)
    ensures Readers(w | 0x2000_0000) == Readers(w) && Lock(w | 0x2000_0000)
    ensures Killed(w | 0x2000_0000) == Killed(w) && Waiting(w | 0x2000_0000) == Waiting(w)
  {
  }

  /** What `Locker::try_lock` expects is the word without lock and readers, and it puts in the locked one. */
  lemma WriterLocksUnpacked(w: Bits, word: BucketLock.Word)
    requires StandsFor(w, word)
    ensures StandsFor(w & !0x3FFF_FFFF, BucketLock.Expected(BucketLock.Writer, word))
    ensures StandsFor(w | 0x2000_0000, BucketLock.LockedWord(BucketLock.Writer, word))
  {
    ExpectedBits(w);
    LockBits(w);
  }

  lemma FlagBits(w: Bits)
    ensures Readers(w | 0x4000_0000) == Readers(w) && Lock(w | 0x4000_0000) == Lock(w)
    ensures Killed(w | 0x4000_0000) == Killed(w) && Waiting(w | 0x4000_0000)
    ensures Readers(w | 0x8000_0000) == Readers(w) && Lock(w | 0x8000_0000) == Lock(w)
    ensures Killed(w | 0x8000_0000) && Waiting(w | 0x8000_0000) == Waiting(w)
  {
  }

  /** Marking that someone waits and killing set one flag each. */
  lemma FlagsUnpacked(w: Bits, word: BucketLock.Word)
    requires StandsFor(w, word)
    ensures StandsFor(w | 0x4000_0000, word.(waiting := true))
    ensures StandsFor(w | 0x8000_0000, word.(killed := true))
  {
    FlagBits(w);
  }

  lemma UnlockBits(w: Bits)
    ensures Readers(w & !0x6000_0000) == Readers(w) && !Lock(w & !0x6000_0000)
    ensures Killed(w & !0x6000_0000) == Killed(w) && !Waiting(w & !0x6000_0000)
  {
  }

  /** What dropping a lock puts in place: the flag that someone waits is taken away in any case. */
  lemma ReleaseUnpacked(w: Bits, word: BucketLock.Word)
    requires StandsFor(w, word)
    ensures StandsFor(w & !0x6000_0000, word.(waiting := false, lock := false))
    ensures word.readers > 0 ==>
              StandsFor((w - 1) & !0x4000_0000, word.(waiting := false, readers := word.readers - 1))
  {
    UnlockBits(w);
    if word.readers > 0 { FewerReaders(w); }
  }
}
