/**
  A leaf used by one thread: its operations update the metadata word and the slots in place, and
  together they are a map of up to 14 slots.
 */
module LeafObject {
  import opened Common
  import opened Entries
  import opened Leaf
  import opened LeafSafety
  import opened LeafSearch

  // ---------------------------------------------------------------- contents

  ghost function Contents(m: Meta, entries: seq<Option<Entry>>): map<Key, Val>
    requires Ordered(m, entries)
  {
    map k | k in LiveKeys(m, entries) :: ValueOf(m, entries, k)
  }

  ghost function LiveKeys(m: Meta, entries: seq<Option<Entry>>): set<Key>
    requires Ordered(m, entries)
  {
    set i | 0 <= i < N && Live(m, i) :: entries[i].value.key
  }

  ghost function ValueOf(m: Meta, entries: seq<Option<Entry>>, k: Key): Val
    requires Ordered(m, entries) && k in LiveKeys(m, entries)
  {
    var i :| 0 <= i < N && Live(m, i) && entries[i].value.key == k;
    entries[i].value.val
  }

  lemma ContentsHas(m: Meta, entries: seq<Option<Entry>>, i: int)
    requires Ordered(m, entries) && Live(m, i)
    ensures var e := entries[i].value; e.key in Contents(m, entries) && Contents(m, entries)[e.key] == e.val
  {
    var e := entries[i].value;
    assert e.key in LiveKeys(m, entries);
    forall j | 0 <= j < N && Live(m, j) && entries[j].value.key == e.key ensures j == i {
      if j != i { KeysDistinct(m, entries, i, j); }
    }
  }

  lemma ContentsKeys(m: Meta, entries: seq<Option<Entry>>, k: Key)
    requires Ordered(m, entries)
    ensures k in Contents(m, entries) <==> Contains(m, entries, k)
  {
    if k in Contents(m, entries) {
      var i :| 0 <= i < N && Live(m, i) && entries[i].value.key == k;
      assert HasKey(m, entries, i, k);
    }
  }

  /** The contents are determined by the entries of the live slots. */
  lemma ContentsAre(m: Meta, entries: seq<Option<Entry>>, c: map<Key, Val>)
    requires Ordered(m, entries)
    requires forall i :: Live(m, i) ==> entries[i].value.key in c && c[entries[i].value.key] == entries[i].value.val
    requires forall k :: k in c ==> Contains(m, entries, k)
    ensures Contents(m, entries) == c
  {
    forall k | k in Contents(m, entries) ensures k in c && c[k] == Contents(m, entries)[k] {
      ContentsKeys(m, entries, k);
      var i :| HasKey(m, entries, i, k);
      ContentsHas(m, entries, i);
    }
    forall k | k in c ensures k in Contents(m, entries) {
      ContentsKeys(m, entries, k);
    }
  }

  lemma SameContents(m: Meta, entries: seq<Option<Entry>>, n: Meta, after: seq<Option<Entry>>)
    requires Ordered(m, entries) && SameLive(m, entries, n, after)
    ensures Ordered(n, after) && Contents(n, after) == Contents(m, entries)
  {
    SameLiveOrdered(m, entries, n, after);
    forall i | Live(n, i) ensures after[i].value.key in Contents(m, entries)
      ensures Contents(m, entries)[after[i].value.key] == after[i].value.val
    {
      ContentsHas(m, entries, i);
    }
    forall k | k in Contents(m, entries) ensures Contains(n, after, k) {
      ContentsKeys(m, entries, k);
      var i :| HasKey(m, entries, i, k);
      assert HasKey(n, after, i, k);
    }
    ContentsAre(n, after, Contents(m, entries));
  }

  // ---------------------------------------------------------------- slots in use

  /** The slots that are not free. */
  ghost function Taken(m: Meta): set<nat> {
    set i: nat | i < |m.ranks| && m.ranks[i] != UNINIT
  }

  ghost predicate RanksOk(m: Meta) {
    && |m.ranks| == N
    && (forall i :: 0 <= i < N ==> m.ranks[i] <= REMOVED)
    && (forall i :: Live(m, i) ==> m.ranks[i] <= |Taken(m)|)
  }

  ghost function UpTo(n: nat): (s: set<nat>)
    ensures forall i: nat :: i in s <==> i < n
    ensures |s| == n
  {
    if n == 0 then {} else UpTo(n - 1) + {n - 1}
  }

  lemma TakenAtMostN(m: Meta)
    requires |m.ranks| == N
    ensures |Taken(m)| <= N
    ensures |Taken(m)| == N <==> FirstFree(m.ranks).None?
  {
    TakenAtMost(m, |m.ranks|);
  }

  lemma TakenAtMost(m: Meta, n: nat)
    requires |m.ranks| == n
    ensures |Taken(m)| <= n
    ensures |Taken(m)| == n <==> FirstFree(m.ranks).None?
  {
    assert Taken(m) <= UpTo(n);
    SubsetSize(Taken(m), UpTo(n));
    if FirstFree(m.ranks).None? {
      assert UpTo(n) <= Taken(m);
      SubsetSize(UpTo(n), Taken(m));
    } else {
      var i := FirstFree(m.ranks).value;
      assert Taken(m) <= UpTo(n) - {i};
      SubsetSize(Taken(m), UpTo(n) - {i});
    }
  }

  lemma {:induction false} SubsetSize(a: set<nat>, b: set<nat>)
    requires a <= b
    ensures |a| <= |b|
    decreases a
  {
    if a != {} {
      var x :| x in a;
      SubsetSize(a - {x}, b - {x});
    }
  }

  // ---------------------------------------------------------------- the effects of operations

  lemma InsertedContents(m: Meta, entries: seq<Option<Entry>>, slot: nat, e: Entry)
    requires Ordered(m, entries) && slot < N && !Live(m, slot) && entries[slot] == Some(e)
    requires !Contains(m, entries, e.key) && forall i :: Live(m, i) ==> m.ranks[i] < REMOVED - 1
    ensures Ordered(Ranked(m, entries, slot, e.key), entries)
    ensures Contents(Ranked(m, entries, slot, e.key), entries) == Contents(m, entries)[e.key := e.val]
  {
    var u := Ranked(m, entries, slot, e.key);
    RankedIsOrdered(m, entries, slot, e.key);
    var c := Contents(m, entries)[e.key := e.val];
    forall i | Live(u, i)
      ensures entries[i].value.key in c && c[entries[i].value.key] == entries[i].value.val
    {
      if i != slot {
        ContentsHas(m, entries, i);
        assert entries[i].value.key == e.key ==> HasKey(m, entries, i, e.key);
      }
    }
    forall k | k in c ensures Contains(u, entries, k) {
      if k == e.key {
        assert HasKey(u, entries, slot, k);
      } else {
        ContentsKeys(m, entries, k);
        var i :| HasKey(m, entries, i, k);
        assert HasKey(u, entries, i, k);
      }
    }
    ContentsAre(u, entries, c);
  }

  lemma RemovedContents(m: Meta, entries: seq<Option<Entry>>, slot: nat)
    requires Ordered(m, entries) && Live(m, slot)
    ensures Ordered(WithoutSlot(m, slot), entries)
    ensures Contents(WithoutSlot(m, slot), entries) == Contents(m, entries) - {entries[slot].value.key}
    ensures OnlyLive(m, slot) <==> Contents(m, entries) - {entries[slot].value.key} == map[]
  {
    var u := WithoutSlot(m, slot);
    var k := entries[slot].value.key;
    var c := Contents(m, entries) - {k};
    RemovedOrdered(m, entries, slot);
    forall i | Live(u, i) ensures entries[i].value.key in c && c[entries[i].value.key] == entries[i].value.val {
      ContentsHas(m, entries, i);
      KeysDistinct(m, entries, i, slot);
    }
    forall x | x in c ensures Contains(u, entries, x) {
      ContentsKeys(m, entries, x);
      var i :| HasKey(m, entries, i, x);
      assert HasKey(u, entries, i, x);
    }
    ContentsAre(u, entries, c);
    if OnlyLive(m, slot) {
      assert forall x :: !Contains(u, entries, x);
      assert forall x :: x !in c;
    } else {
      var j :| 0 <= j < N && j != slot && IsLive(m.ranks[j]);
      assert Live(u, j);
    }
  }

  lemma InsertedRanks(m: Meta, entries: seq<Option<Entry>>, slot: nat, k: Key)
    requires Ordered(m, entries) && slot < N && RanksOk(m) && m.ranks[slot] == REMOVED
    requires forall i :: Live(m, i) ==> m.ranks[i] < |Taken(m)|
    ensures RanksOk(Ranked(m, entries, slot, k)) && Taken(Ranked(m, entries, slot, k)) == Taken(m)
  {
    var u := Ranked(m, entries, slot, k);
    RankBetween(m, entries, k);
    TakenAtMostN(m);
    assert slot in Taken(m);
    assert forall i :: 0 <= i < N ==> (u.ranks[i] == UNINIT <==> m.ranks[i] == UNINIT);
    assert Taken(u) == Taken(m);
  }

  // ---------------------------------------------------------------- outcomes of operations

  lemma FlagContents(m: Meta, entries: seq<Option<Entry>>, n: Meta)
    requires Ordered(m, entries) && RanksOk(m) && n.ranks == m.ranks
    ensures Ordered(n, entries) && RanksOk(n) && Contents(n, entries) == Contents(m, entries)
    ensures Taken(n) == Taken(m)
  {
    assert forall i :: Live(n, i) <==> Live(m, i);
    SameContents(m, entries, n, entries);
  }

  lemma ReservedSlot(m: Meta, entries: seq<Option<Entry>>, slot: nat, e: Entry)
    requires Ordered(m, entries) && RanksOk(m) && slot < N && m.ranks[slot] == UNINIT
    ensures var n, es := m.(ranks := m.ranks[slot := REMOVED]), entries[slot := Some(e)];
            && Ordered(n, es) && RanksOk(n) && Contents(n, es) == Contents(m, entries)
            && |Taken(n)| == |Taken(m)| + 1 && (forall i :: Live(n, i) ==> n.ranks[i] < |Taken(n)|)
            && (forall i :: Live(n, i) ==> n.ranks[i] < REMOVED - 1)
  {
    var n, es := m.(ranks := m.ranks[slot := REMOVED]), entries[slot := Some(e)];
    assert forall i :: i != slot ==> (Live(n, i) <==> Live(m, i));
    SameContents(m, entries, n, es);
    assert Taken(n) == Taken(m) + {slot};
    TakenAtMostN(n);
  }

  lemma RemovedRanks(m: Meta, slot: nat)
    requires RanksOk(m) && Live(m, slot)
    ensures RanksOk(WithoutSlot(m, slot)) && Taken(WithoutSlot(m, slot)) == Taken(m)
  {
    var u := WithoutSlot(m, slot);
    assert Taken(u) == Taken(m);
    assert forall i :: Live(u, i) ==> Live(m, i) && u.ranks[i] == m.ranks[i];
  }

  /** A slot that is reserved and then given back leaves the leaf as it was. */
  lemma RolledBack(m: Meta, entries: seq<Option<Entry>>, slot: nat)
    requires Ordered(m, entries) && slot < N && m.ranks[slot] == UNINIT
    ensures Ordered(m, entries[slot := None]) && Contents(m, entries[slot := None]) == Contents(m, entries)
  {
    SameContents(m, entries, m, entries[slot := None]);
  }

  /** A slot that is reserved and then ranked adds the entry. */
  lemma Added(m: Meta, entries: seq<Option<Entry>>, slot: nat, e: Entry)
    requires Ordered(m, entries) && RanksOk(m) && slot < N && m.ranks[slot] == UNINIT
    requires e.key !in Contents(m, entries)
    ensures var n, es := m.(ranks := m.ranks[slot := REMOVED]), entries[slot := Some(e)];
            var u := Ranked(n, es, slot, e.key);
            && Ordered(u, es) && RanksOk(u) && |Taken(u)| == |Taken(m)| + 1
            && Contents(u, es) == Contents(m, entries)[e.key := e.val]
  {
    var n, es := m.(ranks := m.ranks[slot := REMOVED]), entries[slot := Some(e)];
    ReservedSlot(m, entries, slot, e);
    ContentsKeys(n, es, e.key);
    InsertedContents(n, es, slot, e);
    InsertedRanks(n, es, slot, e.key);
  }

  lemma Dropped(m: Meta, entries: seq<Option<Entry>>, slot: nat, k: Key)
    requires Ordered(m, entries) && RanksOk(m) && HasKey(m, entries, slot, k)
    requires m.retired ==> Contents(m, entries) == map[]
    ensures var u := WithoutSlot(m, slot);
            && Ordered(u, entries) && RanksOk(u) && Taken(u) == Taken(m) && Contents(u, entries) == Contents(m, entries) - {k}
            && (u.retired <==> Contents(u, entries) == map[])
    ensures OnlyLive(m, slot) <==> Contents(m, entries) - {k} == map[]
    ensures !m.retired && k in Contents(m, entries) && Contents(m, entries)[k] == entries[slot].value.val
  {
    RemovedContents(m, entries, slot);
    RemovedRanks(m, slot);
    ContentsHas(m, entries, slot);
  }

  // ---------------------------------------------------------------- distribution

  /** How far to the right the boundary moves: up for each rise of the rank, down otherwise. */
  function Score(ranks: seq<nat>, prev: nat): int {
    if ranks == [] then 0
    else if !IsLive(ranks[0]) then Score(ranks[1..], prev)
    else (if prev < ranks[0] then 1 else -1) + Score(ranks[1..], ranks[0])
  }

  function Clamp(x: int, lo: int, hi: int): int
    requires lo <= hi
  {
    if x < lo then lo else if x > hi then hi else x
  }

  lemma {:induction false} RisingScore(ranks: seq<nat>, prev: nat)
    requires forall i :: 0 <= i < |ranks| ==> IsLive(ranks[i]) && prev < ranks[i]
    requires forall i, j :: 0 <= i < j < |ranks| ==> ranks[i] < ranks[j]
    ensures Score(ranks, prev) == |ranks|
  {
    if ranks != [] { RisingScore(ranks[1..], ranks[0]); }
  }

  lemma {:induction false} FallingScore(ranks: seq<nat>, prev: nat)
    requires forall i :: 0 <= i < |ranks| ==> IsLive(ranks[i]) && ranks[i] <= prev
    requires forall i, j :: 0 <= i < j < |ranks| ==> ranks[i] >= ranks[j]
    ensures Score(ranks, prev) == -|ranks|
  {
    if ranks != [] { FallingScore(ranks[1..], ranks[0]); }
  }

  /**
    A leaf filled in ascending order keeps all but one of its entries in the lower half, one filled
    in descending order only one.
   */
  lemma BoundaryFollowsOrder(m: Meta)
    requires |m.ranks| == N && forall i :: 0 <= i < N ==> IsLive(m.ranks[i])
    ensures (forall i, j :: 0 <= i < j < N ==> m.ranks[i] < m.ranks[j]) ==>
              Clamp(N / 2 + Score(m.ranks, 1), 1, N - 1) == N - 1
    ensures (forall i, j :: 0 <= i < j < N ==> m.ranks[i] > m.ranks[j]) ==>
              Clamp(N / 2 + Score(m.ranks, 1), 1, N - 1) == 1
  {
    var rest := m.ranks[1..];
    assert Score(m.ranks, 1) == (if 1 < m.ranks[0] then 1 else -1) + Score(rest, m.ranks[0]);
    if forall i, j :: 0 <= i < j < N ==> m.ranks[i] < m.ranks[j] {
      RisingScore(rest, m.ranks[0]);
    }
    if forall i, j :: 0 <= i < j < N ==> m.ranks[i] > m.ranks[j] {
      FallingScore(rest, m.ranks[0]);
    }
  }

  /** The number of entries for the lower half: neither half can be empty if the leaf is full. */
  method OptimalBoundary(m: Meta) returns (b: nat)
    requires |m.ranks| == N && forall i :: 0 <= i < N ==> m.ranks[i] <= REMOVED
    ensures 1 <= b <= N - 1
    ensures b == Clamp(N / 2 + Score(m.ranks, 1), 1, N - 1)
  {
    var boundary := N;
    var prev := 1;
    var i := 0;
    assert m.ranks[i..] == m.ranks;
    while i < N
      invariant i <= N && boundary >= N - i
      invariant boundary + Score(m.ranks[i..], prev) == N + Score(m.ranks, 1)
    {
      var rank := m.ranks[i];
      assert m.ranks[i..][1..] == m.ranks[i + 1..];
      if rank != UNINIT && rank != REMOVED {
        if prev < rank { boundary := boundary + 1; } else { boundary := boundary - 1; }
        prev := rank;
      }
      i := i + 1;
    }
    b := Clamp(boundary, N / 2 + 1, N + N / 2 - 1) - N / 2;
  }

  ghost predicate Increasing(list: seq<Entry>) {
    forall i, j :: 0 <= i < j < |list| ==> list[i].key < list[j].key
  }

  /** The leaf holds exactly the entries of the list, in slots from the first on. */
  ghost predicate Dense(m: Meta, entries: seq<Option<Entry>>, list: seq<Entry>) {
    && |m.ranks| == N && |entries| == N && |list| <= N && Increasing(list)
    && (forall i :: 0 <= i < N ==> m.ranks[i] == if i < |list| then i + 1 else UNINIT)
    && (forall i :: 0 <= i < |list| ==> entries[i] == Some(list[i]))
  }

  /** The list has exactly the entries of the map, by increasing key. */
  ghost predicate Lists(list: seq<Entry>, c: map<Key, Val>) {
    && Increasing(list)
    && (forall i :: 0 <= i < |list| ==> list[i].key in c && c[list[i].key] == list[i].val)
    && (forall k :: k in c ==> Entry(k, c[k]) in list)
  }

  lemma DenseOrdered(m: Meta, entries: seq<Option<Entry>>, list: seq<Entry>)
    requires Dense(m, entries, list)
    ensures Ordered(m, entries) && forall i :: Live(m, i) <==> 0 <= i < |list|
  {
  }

  lemma DenseLists(m: Meta, entries: seq<Option<Entry>>, list: seq<Entry>)
    requires Dense(m, entries, list)
    ensures Ordered(m, entries) && RanksOk(m) && Lists(list, Contents(m, entries)) && |Taken(m)| == |list|
  {
    DenseOrdered(m, entries, list);
    var slots := Indices(|list|);
    forall j ensures Live(m, j) <==> j in slots {
      assert 0 <= j < |list| ==> slots[j] == j;
    }
    EnumeratesLists(m, entries, slots);
    assert EntriesAt(m, entries, slots) == list;
    ListSlots(m, |list|);
  }

  lemma ListSlots(m: Meta, n: nat)
    requires |m.ranks| == N && n <= N
    requires forall i :: 0 <= i < N ==> m.ranks[i] == if i < n then i + 1 else UNINIT
    ensures |Taken(m)| == n && RanksOk(m)
  {
    assert Taken(m) == UpTo(n);
  }

  function Indices(n: nat): (s: seq<nat>)
    ensures |s| == n && forall i :: 0 <= i < n ==> s[i] == i
  {
    seq(n, i => i)
  }

  ghost function EntriesAt(m: Meta, entries: seq<Option<Entry>>, slots: seq<nat>): seq<Entry>
    requires Ordered(m, entries) && forall i :: 0 <= i < |slots| ==> Live(m, slots[i])
  {
    seq(|slots|, i requires 0 <= i < |slots| => entries[slots[i]].value)
  }

  /** The slot of a key. */
  lemma SlotOfKey(m: Meta, entries: seq<Option<Entry>>, k: Key) returns (i: nat)
    requires Ordered(m, entries) && k in Contents(m, entries)
    ensures Live(m, i) && entries[i].value == Entry(k, Contents(m, entries)[k])
  {
    ContentsKeys(m, entries, k);
    i :| HasKey(m, entries, i, k);
    ContentsHas(m, entries, i);
  }

  lemma EnumeratesLists(m: Meta, entries: seq<Option<Entry>>, slots: seq<nat>)
    requires Ordered(m, entries) && forall j :: Live(m, j) <==> j in slots
    requires forall i :: 0 <= i < |slots| ==> Live(m, slots[i])
    requires forall i, j :: 0 <= i < j < |slots| ==> KeyAt(entries, slots[i]) < KeyAt(entries, slots[j])
    ensures Lists(EntriesAt(m, entries, slots), Contents(m, entries))
  {
    var list, c := EntriesAt(m, entries, slots), Contents(m, entries);
    forall i | 0 <= i < |list| ensures list[i].key in c && c[list[i].key] == list[i].val {
      ContentsHas(m, entries, slots[i]);
    }
    forall k | k in c ensures Entry(k, c[k]) in list {
      var j := SlotOfKey(m, entries, k);
      var i :| 0 <= i < |slots| && slots[i] == j;
      assert list[i] == Entry(k, c[k]);
    }
  }

  lemma {:induction false} FewSlots(slots: seq<nat>)
    requires forall i :: 0 <= i < |slots| ==> slots[i] < N
    requires forall i, j :: 0 <= i < j < |slots| ==> slots[i] != slots[j]
    ensures |slots| <= N
  {
    var s := set i | 0 <= i < |slots| :: slots[i];
    SetOfDistinct(slots);
    FewPublished(s, N);
  }

  lemma {:induction false} SetOfDistinct(slots: seq<nat>)
    requires forall i, j :: 0 <= i < j < |slots| ==> slots[i] != slots[j]
    ensures |(set i | 0 <= i < |slots| :: slots[i])| == |slots|
  {
    var all := set i | 0 <= i < |slots| :: slots[i];
    if slots != [] {
      var init := slots[..|slots| - 1];
      SetOfDistinct(init);
      assert all == (set i | 0 <= i < |init| :: init[i]) + {slots[|slots| - 1]} by {
        forall x | x in all ensures x in (set i | 0 <= i < |init| :: init[i]) + {slots[|slots| - 1]} {
          var i :| 0 <= i < |slots| && slots[i] == x;
          assert i < |init| ==> init[i] == x;
        }
        forall x | x in (set i | 0 <= i < |init| :: init[i]) ensures x in all {
          var i :| 0 <= i < |init| && init[i] == x;
          assert slots[i] == x;
        }
      }
    }
  }

  /** Ranks the entry of a reserved slot, or finds its key there already. */
  method Settle(n: Meta, fs: seq<Option<Entry>>, slot: nat, k: Key, v: Val, ghost m: Meta, ghost entries: seq<Option<Entry>>)
    returns (r: Option<Meta>)
    requires Ordered(m, entries) && RanksOk(m) && slot < N && m.ranks[slot] == UNINIT
    requires n == m.(ranks := m.ranks[slot := REMOVED]) && fs == entries[slot := Some(Entry(k, v))]
    ensures r.None? <==> k in Contents(m, entries)
    ensures r.None? ==> Ordered(m, entries[slot := None]) && Contents(m, entries[slot := None]) == Contents(m, entries)
    ensures r.Some? ==>
              && Ordered(r.value, fs) && RanksOk(r.value) && |Taken(r.value)| == |Taken(m)| + 1
              && r.value.frozen == m.frozen && r.value.retired == m.retired
              && Contents(r.value, fs) == Contents(m, entries)[k := v]
  {
    ReservedSlot(m, entries, slot, Entry(k, v));
    ContentsKeys(n, fs, k);
    r := RankScan(n, fs, slot, k);
    if r.Some? {
      Added(m, entries, slot, Entry(k, v));
    } else {
      RolledBack(m, entries, slot);
    }
  }

  /** Finds the slot to be removed. */
  method FindToRemove(m: Meta, entries: seq<Option<Entry>>, k: Key) returns (r: Option<nat>)
    requires Ordered(m, entries)
    ensures r.None? <==> k !in Contents(m, entries)
    ensures r.Some? ==>
              && r.value < N && HasKey(m, entries, r.value, k) && Contents(m, entries)[k] == entries[r.value].value.val
  {
    ContentsKeys(m, entries, k);
    r := SearchSlot(m, entries, k);
    if r.Some? { ContentsHas(m, entries, r.value); }
  }

  /** The word with the slot marked removed, and retired if no other entry is live. */
  method Unranked(m: Meta, entries: seq<Option<Entry>>, slot: nat, k: Key) returns (after: Meta, empty: bool)
    requires Ordered(m, entries) && RanksOk(m) && HasKey(m, entries, slot, k)
    requires m.retired ==> Contents(m, entries) == map[]
    ensures Ordered(after, entries) && RanksOk(after) && Taken(after) == Taken(m)
    ensures Contents(after, entries) == Contents(m, entries) - {k}
    ensures after.frozen == m.frozen && after.retired == empty && !m.retired
    ensures empty <==> Contents(after, entries) == map[]
  {
    Dropped(m, entries, slot, k);
    empty := IsOnlyLive(m, slot);
    after := Meta(m.ranks[slot := REMOVED], m.frozen, m.retired || empty);
    assert after == WithoutSlot(m, slot);
  }

  // ---------------------------------------------------------------- the leaf

  class LeafCell {
    var metadata: Meta
    var entries: seq<Option<Entry>>

    ghost predicate Valid()
      reads this
    {
      && Ordered(metadata, entries) && RanksOk(metadata)
      && (metadata.retired ==> Contents(metadata, entries) == map[])
    }

    ghost function Map(): map<Key, Val>
      requires Valid()
      reads this
    {
      Contents(metadata, entries)
    }

    constructor ()
      ensures Valid() && Map() == map[] && !metadata.frozen && !metadata.retired && Taken(metadata) == {}
      ensures Dense(metadata, entries, [])
    {
      metadata := Meta(seq(N, _ => UNINIT), false, false);
      entries := seq(N, _ => None);
      new;
      DenseLists(metadata, entries, []);
      assert forall k :: !Contains(metadata, entries, k);
      forall k ensures k !in Map() { ContentsKeys(metadata, entries, k); }
    }

    /** Reserves a slot, writes the entry and ranks it; gives the slot back if the key is there. */
    method Insert(k: Key, v: Val) returns (r: InsertResult)
      requires Valid()
      modifies this
      ensures Valid()
      ensures metadata.frozen == old(metadata.frozen) && metadata.retired == old(metadata.retired)
      ensures r == if old(metadata.retired) then InsertRetired
                   else if old(metadata.frozen) then InsertFrozen
                   else if k in old(Map()) then Duplicate
                   else if |old(Taken(metadata))| == N then Full
                   else Inserted
      ensures Map() == if r == Inserted then old(Map())[k := v] else old(Map())
      ensures |Taken(metadata)| == |old(Taken(metadata))| + if r == Inserted then 1 else 0
    {
      if metadata.retired { return InsertRetired; }
      if metadata.frozen { return InsertFrozen; }
      TakenAtMostN(metadata);
      ContentsKeys(metadata, entries, k);
      match FirstFree(metadata.ranks) {
        case Some(slot) =>
          r := InsertAt(slot, k, v);
        case None =>
          var found := SearchSlot(metadata, entries, k);
          r := if found.Some? then Duplicate else Full;
      }
    }

    method InsertAt(slot: nat, k: Key, v: Val) returns (r: InsertResult)
      requires Valid() && !metadata.retired && slot < N && metadata.ranks[slot] == UNINIT
      modifies this
      ensures Valid() && metadata.frozen == old(metadata.frozen) && !metadata.retired
      ensures r == if k in old(Map()) then Duplicate else Inserted
      ensures Map() == if r == Inserted then old(Map())[k := v] else old(Map())
      ensures |Taken(metadata)| == |old(Taken(metadata))| + if r == Inserted then 1 else 0
    {
      ghost var m, es := metadata, entries;
      metadata := metadata.(ranks := metadata.ranks[slot := REMOVED]);
      entries := entries[slot := Some(Entry(k, v))];
      var settled := Settle(metadata, entries, slot, k, v, m, es);
      match settled {
        case Some(final) =>
          metadata := final;
          r := Inserted;
        case None =>
          metadata := metadata.(ranks := metadata.ranks[slot := UNINIT]);
          entries := entries[slot := None];
          assert metadata == m && entries == es[slot := None];
          r := Duplicate;
      }
    }

    method RemoveIf(k: Key, condition: Val -> bool) returns (r: RemoveResult)
      requires Valid()
      modifies this
      ensures Valid() && metadata.frozen == old(metadata.frozen)
      ensures r == if old(metadata.frozen) then RemoveFrozen
                   else if k in old(Map()) && condition(old(Map())[k]) then
                     if old(Map()) - {k} == map[] then RemovedLast else Removed
                   else NotRemoved
      ensures Map() == if r == Removed || r == RemovedLast then old(Map()) - {k} else old(Map())
      ensures metadata.retired == (old(metadata.retired) || r == RemovedLast)
      ensures Taken(metadata) == old(Taken(metadata))
    {
      if metadata.frozen { return RemoveFrozen; }
      var found := FindToRemove(metadata, entries, k);
      if found.None? { return NotRemoved; }
      if !condition(entries[found.value].value.val) { return NotRemoved; }
      r := RemoveAt(found.value, k);
    }

    /** Marks the slot removed; the leaf retires with its last live entry. */
    method RemoveAt(slot: nat, k: Key) returns (r: RemoveResult)
      requires Valid() && HasKey(metadata, entries, slot, k)
      modifies this`metadata
      ensures Valid() && metadata.frozen == old(metadata.frozen)
      ensures Map() == old(Map()) - {k} && Taken(metadata) == old(Taken(metadata))
      ensures r == if Map() == map[] then RemovedLast else Removed
      ensures metadata.retired == (old(metadata.retired) || r == RemovedLast)
    {
      var after, empty := Unranked(metadata, entries, slot, k);
      metadata := after;
      r := if empty then RemovedLast else Removed;
    }

    method Freeze() returns (done: bool)
      requires Valid()
      modifies this`metadata
      ensures Valid() && Map() == old(Map()) && done == !old(metadata.frozen)
      ensures metadata == old(metadata).(frozen := true)
    {
      done := !metadata.frozen;
      ghost var m := metadata;
      metadata := metadata.(frozen := true);
      FlagContents(m, entries, metadata);
    }

    method Thaw() returns (done: bool)
      requires Valid()
      modifies this`metadata
      ensures Valid() && Map() == old(Map()) && done == old(metadata.frozen)
      ensures metadata == old(metadata).(frozen := false)
    {
      done := metadata.frozen;
      ghost var m := metadata;
      metadata := metadata.(frozen := false);
      FlagContents(m, entries, metadata);
    }

    /** Writes an entry into the next slot of a leaf that is being filled in key order. */
    method InsertUnchecked(k: Key, v: Val, index: nat, ghost list: seq<Entry>)
      requires index < N && |list| == index && Dense(metadata, entries, list)
      requires (list == [] || list[index - 1].key < k) && !metadata.frozen && !metadata.retired
      modifies this
      ensures Filled(list + [Entry(k, v)])
    {
      metadata := metadata.(ranks := metadata.ranks[index := index + 1]);
      entries := entries[index := Some(Entry(k, v))];
    }

    /**
      Freezes the leaf and distributes its entries to two new leaves at the boundary: the lower half
      gets as many of the least entries as the boundary says, the upper half all others.
     */
    method FreezeAndDistribute() returns (low: LeafCell?, high: LeafCell?, ghost lows: seq<Entry>, ghost highs: seq<Entry>)
      requires Valid() && !metadata.frozen
      modifies this`metadata
      ensures Valid() && Map() == old(Map()) && metadata == old(metadata).(frozen := true)
      ensures Lists(lows + highs, Map())
      ensures |lows + highs| == N ==> lows != [] && highs != []
      ensures if lows == [] then low == null else low != null && fresh(low) && low.Filled(lows)
      ensures if highs == [] then high == null else high != null && fresh(high) && high.Filled(highs)
    {
      ghost var m := metadata;
      metadata := metadata.(frozen := true);
      FlagContents(m, entries, metadata);
      var boundary := OptimalBoundary(metadata);
      var slots := Enumerate(metadata, entries);
      assert forall i :: 0 <= i < |slots| ==> slots[i] in slots;
      EnumeratesLists(metadata, entries, slots);
      FewSlots(slots);
      low, high, lows, highs := Distribute(metadata, entries, slots, boundary);
    }

    /** A new leaf that has been filled with the list. */
    ghost predicate Filled(list: seq<Entry>)
      reads this
    {
      Dense(metadata, entries, list) && !metadata.frozen && !metadata.retired
    }
  }

  /** A filled leaf is a proper leaf with the entries of the list. */
  lemma FilledIsValid(leaf: LeafCell, list: seq<Entry>)
    requires leaf.Filled(list)
    ensures leaf.Valid() && Lists(list, leaf.Map()) && |Taken(leaf.metadata)| == |list|
  {
    DenseLists(leaf.metadata, leaf.entries, list);
  }

  method Distribute(m: Meta, es: seq<Option<Entry>>, slots: seq<nat>, boundary: nat)
    returns (low: LeafCell?, high: LeafCell?, ghost lows: seq<Entry>, ghost highs: seq<Entry>)
    requires Ordered(m, es) && (forall i :: 0 <= i < |slots| ==> Live(m, slots[i]))
    requires Increasing(EntriesAt(m, es, slots)) && |slots| <= N && 1 <= boundary <= N - 1
    ensures lows + highs == EntriesAt(m, es, slots) && |lows| == if |slots| <= boundary then |slots| else boundary
    ensures if lows == [] then low == null else low != null && fresh(low) && low.Filled(lows)
    ensures if highs == [] then high == null else high != null && fresh(high) && high.Filled(highs)
  {
    low, high, lows, highs := null, null, [], [];
    ghost var list := EntriesAt(m, es, slots);
    var i := 0;
    while i < |slots|
      invariant i <= |slots| && lows + highs == list[..i] && |lows| == if i <= boundary then i else boundary
      invariant if lows == [] then low == null else low != null && fresh(low) && low.Filled(lows)
      invariant if highs == [] then high == null else high != null && fresh(high) && high.Filled(highs)
      invariant low != null && high != null ==> low != high
    {
      var e := es[slots[i]].value;
      assert e == list[i] && list[..i + 1] == list[..i] + [e];
      assert forall j :: 0 <= j < i ==> list[j].key < e.key && list[j] == (lows + highs)[j];
      if i < boundary {
        assert highs == [] && lows == list[..i];
        if low == null { low := new LeafCell(); }
        low.InsertUnchecked(e.key, e.val, i, lows);
        lows := lows + [e];
      } else {
        assert highs == list[boundary..i];
        if high == null { high := new LeafCell(); }
        high.InsertUnchecked(e.key, e.val, i - boundary, highs);
        highs := highs + [e];
      }
      i := i + 1;
    }
    assert list[..|slots|] == list;
  }
}
