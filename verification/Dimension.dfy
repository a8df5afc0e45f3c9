/** The bits of the metadata word: 14 ranks of four bits, a frozen bit and a retired bit. */
module DimensionBits {
  type Word = bv64
  type Slot = i: bv64 | i < 14 witness 0

  predicate Frozen(w: Word) { w & 0x4000_0000_0000_0000 != 0 }

  function FreezeWord(w: Word): Word { w | 0x4000_0000_0000_0000 }

  function ThawWord(w: Word): Word { w & !0x4000_0000_0000_0000 }

  predicate Retired(w: Word) { w & 0x8000_0000_0000_0000 != 0 }

  function RetireWord(w: Word): Word { w | 0x8000_0000_0000_0000 }

  function RankMask(i: Slot): Word { 15 << (4 * i) }

  function Rank(w: Word, i: Slot): Word { (w >> (4 * i)) % 16 }

  function Augment(w: Word, i: Slot, r: Word): Word {
    (w & !RankMask(i)) | (r << (4 * i))
  }

  /** The bits between the ranks and the flags are never set. */
  predicate WordOk(w: Word) { w & 0x3F00_0000_0000_0000 == 0 }

  // ---------------------------------------------------------------- bits

  lemma AugmentRank(w: Word, i: Slot, j: Slot, r: Word)
    requires r < 16
    ensures Rank(Augment(w, i, r), j) == if i == j then r else Rank(w, j)
  {
  }

  lemma AugmentFrozen(w: Word, i: Slot, r: Word)
    requires r < 16
    ensures Frozen(Augment(w, i, r)) == Frozen(w)
  {
  }

  lemma AugmentRetired(w: Word, i: Slot, r: Word)
    requires r < 16
    ensures Retired(Augment(w, i, r)) == Retired(w)
  {
  }

  lemma FreezeRank(w: Word, j: Slot)
    ensures Rank(FreezeWord(w), j) == Rank(w, j)
  {
  }

  lemma ThawRank(w: Word, j: Slot)
    ensures Rank(ThawWord(w), j) == Rank(w, j)
  {
  }

  lemma RetireRank(w: Word, j: Slot)
    ensures Rank(RetireWord(w), j) == Rank(w, j)
  {
  }

  lemma FreezeFlags(w: Word)
    ensures Frozen(FreezeWord(w)) && Retired(FreezeWord(w)) == Retired(w)
  {
  }

  lemma ThawFlags(w: Word)
    ensures !Frozen(ThawWord(w)) && Retired(ThawWord(w)) == Retired(w)
  {
  }

  lemma RetireFlags(w: Word)
    ensures Retired(RetireWord(w)) && Frozen(RetireWord(w)) == Frozen(w)
  {
  }

  lemma ZeroRank(w: Word, i: Slot, j: Slot)
    requires i <= j && w >> (4 * i) == 0
    ensures Rank(w, j) == 0
  {
  }

  lemma ZeroFlags(w: Word, i: Slot)
    requires w >> (4 * i) == 0
    ensures !Frozen(w) && !Retired(w)
  {
  }

  lemma MasksSetExtremes(w: Word, i: Slot)
    ensures w | RankMask(i) == Augment(w, i, 15)
    ensures w & !RankMask(i) == Augment(w, i, 0)
  {
  }

  lemma SameBits(w: Word, v: Word)
    requires WordOk(w) && WordOk(v) && Frozen(w) == Frozen(v) && Retired(w) == Retired(v)
    requires Rank(w, 0) == Rank(v, 0) && Rank(w, 1) == Rank(v, 1) && Rank(w, 2) == Rank(v, 2) && Rank(w, 3) == Rank(v, 3)
    requires Rank(w, 4) == Rank(v, 4) && Rank(w, 5) == Rank(v, 5) && Rank(w, 6) == Rank(v, 6) && Rank(w, 7) == Rank(v, 7)
    requires Rank(w, 8) == Rank(v, 8) && Rank(w, 9) == Rank(v, 9) && Rank(w, 10) == Rank(v, 10)
    requires Rank(w, 11) == Rank(v, 11) && Rank(w, 12) == Rank(v, 12) && Rank(w, 13) == Rank(v, 13)
    ensures w == v
  {
  }
}

/**
  The metadata word of a leaf: 14 ranks of four bits, a frozen bit and a retired bit, packed into 64
  bits. Each operation on the word is the operation of the same name on the unpacked ranks.
 */
module Dimension {
  import opened Common
  import opened Entries
  import opened Leaf
  import opened LeafSearch
  import opened DimensionBits

  // ---------------------------------------------------------------- unpacking

  function SlotOf(i: nat): (s: Slot)
    requires i < N
  {
    if i == 0 then 0 else if i == 1 then 1 else if i == 2 then 2 else if i == 3 then 3 else if i == 4 then 4
    else if i == 5 then 5 else if i == 6 then 6 else if i == 7 then 7 else if i == 8 then 8 else if i == 9 then 9
    else if i == 10 then 10 else if i == 11 then 11 else if i == 12 then 12 else 13
  }

  lemma SlotsDiffer(i: nat, j: nat)
    requires i < N && j < N
    ensures SlotOf(i) == SlotOf(j) <==> i == j
  {
  }

  function Unpack(w: Word): Meta {
    Meta(seq(N, i requires 0 <= i < N => Rank(w, SlotOf(i)) as nat), Frozen(w), Retired(w))
  }

  /** Setting a rank of the word sets that rank and nothing else. */
  lemma AugmentSetsRank(w: Word, i: nat, r: Word)
    requires i < N && r < 16
    ensures Unpack(Augment(w, SlotOf(i), r)) == Unpack(w).(ranks := Unpack(w).ranks[i := r as nat])
  {
    var u := Augment(w, SlotOf(i), r);
    AugmentFrozen(w, SlotOf(i), r);
    AugmentRetired(w, SlotOf(i), r);
    forall j | 0 <= j < N ensures Unpack(u).ranks[j] == Unpack(w).ranks[i := r as nat][j] {
      AugmentRank(w, SlotOf(i), SlotOf(j), r);
      SlotsDiffer(i, j);
    }
  }

  lemma UnpackIs(w: Word, m: Meta)
    requires |m.ranks| == N && m.frozen == Frozen(w) && m.retired == Retired(w)
    requires forall i :: 0 <= i < N ==> m.ranks[i] == Rank(w, SlotOf(i)) as nat
    ensures Unpack(w) == m
  {
  }

  lemma FreezeUnpacked(w: Word)
    ensures Unpack(FreezeWord(w)) == Unpack(w).(frozen := true)
  {
    FreezeFlags(w);
    forall i | 0 <= i < N ensures Unpack(w).ranks[i] == Rank(FreezeWord(w), SlotOf(i)) as nat {
      FreezeRank(w, SlotOf(i));
    }
    UnpackIs(FreezeWord(w), Unpack(w).(frozen := true));
  }

  lemma ThawUnpacked(w: Word)
    ensures Unpack(ThawWord(w)) == Unpack(w).(frozen := false)
  {
    ThawFlags(w);
    forall i | 0 <= i < N ensures Unpack(w).ranks[i] == Rank(ThawWord(w), SlotOf(i)) as nat {
      ThawRank(w, SlotOf(i));
    }
    UnpackIs(ThawWord(w), Unpack(w).(frozen := false));
  }

  lemma RetireUnpacked(w: Word)
    ensures Unpack(RetireWord(w)) == Unpack(w).(retired := true)
  {
    RetireFlags(w);
    forall i | 0 <= i < N ensures Unpack(w).ranks[i] == Rank(RetireWord(w), SlotOf(i)) as nat {
      RetireRank(w, SlotOf(i));
    }
    UnpackIs(RetireWord(w), Unpack(w).(retired := true));
  }

  function WordWithout(w: Word, i: nat): Word
    requires i < N
  {
    var u := w | RankMask(SlotOf(i));
    if OnlyLive(Unpack(w), i) then RetireWord(u) else u
  }

  /** The word that `remove_if` puts in place is the one without the slot. */
  lemma RemovalUnpacked(w: Word, i: nat)
    requires i < N
    ensures Unpack(WordWithout(w, i)) == WithoutSlot(Unpack(w), i)
  {
    MaskSetsRemoved(w, i, w | RankMask(SlotOf(i)));
    RetireUnpacked(w | RankMask(SlotOf(i)));
  }

  lemma MaskSetsRemoved(w: Word, i: nat, u: Word)
    requires i < N && u == w | RankMask(SlotOf(i))
    ensures Unpack(u) == Unpack(w).(ranks := Unpack(w).ranks[i := REMOVED])
  {
    MasksSetExtremes(w, SlotOf(i));
    AugmentSetsRank(w, i, 15);
  }

  /** Giving a slot back clears its rank. */
  lemma RollBackUnpacked(w: Word, i: nat)
    requires i < N
    ensures Unpack(w & !RankMask(SlotOf(i))) == Unpack(w).(ranks := Unpack(w).ranks[i := UNINIT])
  {
    MasksSetExtremes(w, SlotOf(i));
    AugmentSetsRank(w, i, 0);
  }

  lemma SameNumber(a: Word, b: Word)
    requires a < 16 && b < 16 && a as nat == b as nat
    ensures a == b
  {
  }

  /** Words are equal exactly if what they stand for is, so comparing words compares ranks and flags. */
  lemma UnpackIsInjective(w: Word, v: Word)
    requires WordOk(w) && WordOk(v) && Unpack(w) == Unpack(v)
    ensures w == v
  {
    forall i | 0 <= i < N ensures Rank(w, SlotOf(i)) == Rank(v, SlotOf(i)) {
      assert Unpack(w).ranks[i] == Unpack(v).ranks[i];
      SameNumber(Rank(w, SlotOf(i)), Rank(v, SlotOf(i)));
    }
    assert Rank(w, SlotOf(0)) == Rank(v, SlotOf(0)) && Rank(w, SlotOf(1)) == Rank(v, SlotOf(1));
    assert Rank(w, SlotOf(2)) == Rank(v, SlotOf(2)) && Rank(w, SlotOf(3)) == Rank(v, SlotOf(3));
    assert Rank(w, SlotOf(4)) == Rank(v, SlotOf(4)) && Rank(w, SlotOf(5)) == Rank(v, SlotOf(5));
    assert Rank(w, SlotOf(6)) == Rank(v, SlotOf(6)) && Rank(w, SlotOf(7)) == Rank(v, SlotOf(7));
    assert Rank(w, SlotOf(8)) == Rank(v, SlotOf(8)) && Rank(w, SlotOf(9)) == Rank(v, SlotOf(9));
    assert Rank(w, SlotOf(10)) == Rank(v, SlotOf(10)) && Rank(w, SlotOf(11)) == Rank(v, SlotOf(11));
    assert Rank(w, SlotOf(12)) == Rank(v, SlotOf(12)) && Rank(w, SlotOf(13)) == Rank(v, SlotOf(13));
    SameBits(w, v);
  }

  lemma SlotsOrdered(i: nat, j: nat)
    requires i <= j < N
    ensures SlotOf(i) <= SlotOf(j)
  {
  }

  /** Where the loops stop because the shifted word is zero, all further slots are free. */
  lemma ZeroMeansExhausted(w: Word, i: nat)
    requires i < N && w >> (4 * SlotOf(i)) == 0
    ensures Exhausted(Unpack(w), i)
  {
    ZeroFlags(w, SlotOf(i));
    forall j | i <= j < N ensures Unpack(w).ranks[j] == UNINIT {
      SlotsOrdered(i, j);
      ZeroRank(w, SlotOf(i), SlotOf(j));
    }
  }
}
