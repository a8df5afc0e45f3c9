/**
  The loops over the ranks of a leaf: unsorted slots are searched by narrowing an interval of ranks.
 */
module LeafSearch {
  import opened Common
  import opened Entries
  import opened Leaf
  import opened LeafSafety

  /** The rest of the word is zero, so the loops stop. */
  predicate Exhausted(m: Meta, i: nat) {
    !m.frozen && !m.retired && forall j :: i <= j < |m.ranks| ==> m.ranks[j] == UNINIT
  }

  function KeyAt(entries: seq<Option<Entry>>, i: nat): Key
    requires i < |entries| && entries[i].Some?
  {
    entries[i].value.key
  }

  /** Ranks up to `lo` belong to smaller keys, ranks from `hi` on to greater ones. */
  ghost predicate Narrowed(m: Meta, entries: seq<Option<Entry>>, k: Key, lo: nat, hi: nat, i: nat) {
    && lo < hi <= REMOVED
    && (lo > 0 ==> exists j :: 0 <= j < i && Below(m, entries, j, k) && m.ranks[j] == lo)
    && (hi < REMOVED ==> exists j :: 0 <= j < i && Above(m, entries, j, k) && m.ranks[j] == hi)
    && (forall j :: 0 <= j < i && Live(m, j) ==> m.ranks[j] <= lo || m.ranks[j] >= hi)
  }

  /** What the interval says of a slot. */
  lemma NarrowedTells(m: Meta, entries: seq<Option<Entry>>, k: Key, lo: nat, hi: nat, i: nat, j: int)
    requires Ordered(m, entries) && Narrowed(m, entries, k, lo, hi, i) && Live(m, j)
    ensures m.ranks[j] <= lo ==> Below(m, entries, j, k)
    ensures m.ranks[j] >= hi ==> Above(m, entries, j, k)
  {
    if m.ranks[j] <= lo {
      var b :| 0 <= b < i && Below(m, entries, b, k) && m.ranks[b] == lo;
    } else if m.ranks[j] >= hi {
      var a :| 0 <= a < i && Above(m, entries, a, k) && m.ranks[a] == hi;
    }
  }

  lemma StartsNarrowed(m: Meta, entries: seq<Option<Entry>>, k: Key)
    ensures Narrowed(m, entries, k, 0, REMOVED, 0)
  {
  }

  lemma NarrowsBelow(m: Meta, entries: seq<Option<Entry>>, k: Key, lo: nat, hi: nat, i: nat)
    requires Narrowed(m, entries, k, lo, hi, i) && Below(m, entries, i, k) && lo < m.ranks[i] < hi
    ensures Narrowed(m, entries, k, m.ranks[i], hi, i + 1)
  {
  }

  lemma NarrowsAbove(m: Meta, entries: seq<Option<Entry>>, k: Key, lo: nat, hi: nat, i: nat)
    requires Narrowed(m, entries, k, lo, hi, i) && Above(m, entries, i, k) && lo < m.ranks[i] < hi
    ensures Narrowed(m, entries, k, lo, m.ranks[i], i + 1)
  {
  }

  lemma StaysNarrowed(m: Meta, entries: seq<Option<Entry>>, k: Key, lo: nat, hi: nat, i: nat)
    requires Narrowed(m, entries, k, lo, hi, i) && i < |m.ranks| && !(lo < m.ranks[i] < hi)
    ensures Narrowed(m, entries, k, lo, hi, i + 1)
  {
  }

  lemma ExhaustedNarrowed(m: Meta, entries: seq<Option<Entry>>, k: Key, lo: nat, hi: nat, i: nat)
    requires Narrowed(m, entries, k, lo, hi, i) && i <= |m.ranks| && Exhausted(m, i)
    ensures Narrowed(m, entries, k, lo, hi, |m.ranks|)
  {
  }

  /** When all slots have been narrowed away the key is not there. */
  lemma NarrowedAll(m: Meta, entries: seq<Option<Entry>>, k: Key, lo: nat, hi: nat)
    requires Ordered(m, entries) && Narrowed(m, entries, k, lo, hi, N)
    ensures forall j :: Live(m, j) ==> (if m.ranks[j] <= lo then Below(m, entries, j, k) else Above(m, entries, j, k))
    ensures !Contains(m, entries, k)
  {
    forall j | Live(m, j) ensures if m.ranks[j] <= lo then Below(m, entries, j, k) else Above(m, entries, j, k) {
      NarrowedTells(m, entries, k, lo, hi, N, j);
    }
  }

  /** Finds the slot of the key. */
  method SearchSlot(m: Meta, entries: seq<Option<Entry>>, k: Key) returns (r: Option<nat>)
    requires Ordered(m, entries)
    ensures r.Some? ==> HasKey(m, entries, r.value, k)
    ensures r.None? ==> !Contains(m, entries, k)
  {
    var lo, hi := 0, REMOVED;
    var i := 0;
    StartsNarrowed(m, entries, k);
    while i < N
      invariant i <= N && Narrowed(m, entries, k, lo, hi, i)
    {
      if Exhausted(m, i) {
        ExhaustedNarrowed(m, entries, k, lo, hi, i);
        break;
      }
      var rank := m.ranks[i];
      if rank < hi && rank > lo {
        assert Live(m, i);
        if KeyAt(entries, i) < k {
          NarrowsBelow(m, entries, k, lo, hi, i);
          lo := rank;
        } else if KeyAt(entries, i) > k {
          NarrowsAbove(m, entries, k, lo, hi, i);
          hi := rank;
        } else {
          return Some(i);
        }
      } else {
        StaysNarrowed(m, entries, k, lo, hi, i);
      }
      i := i + 1;
    }
    NarrowedAll(m, entries, k, lo, hi);
    r := None;
  }

  /** Finds the slot of the greatest key below `k`; `N` if there is none. */
  method MaxLess(m: Meta, entries: seq<Option<Entry>>, k: Key) returns (r: nat)
    requires Ordered(m, entries)
    ensures r == N ==> forall j :: !Below(m, entries, j, k)
    ensures r != N ==> Below(m, entries, r, k) && forall j :: Below(m, entries, j, k) ==> KeyAt(entries, j) <= KeyAt(entries, r)
  {
    var lo, hi := 0, REMOVED;
    r := N;
    var i := 0;
    while i < N
      invariant i <= N && lo < hi <= REMOVED
      invariant if r == N then lo == 0 else r < i && Below(m, entries, r, k) && m.ranks[r] == lo
      invariant hi < REMOVED ==> exists j :: Live(m, j) && m.ranks[j] == hi && !Below(m, entries, j, k)
      invariant forall j :: 0 <= j < i && Below(m, entries, j, k) ==> m.ranks[j] <= lo
    {
      if Exhausted(m, i) { break; }
      var rank := m.ranks[i];
      if rank < hi && rank > lo {
        assert Live(m, i);
        if KeyAt(entries, i) < k {
          if lo < rank {
            lo := rank;
            r := i;
          }
        } else if KeyAt(entries, i) > k {
          if hi > rank { hi := rank; }
        } else {
          hi := rank;
        }
      }
      i := i + 1;
    }
    assert forall j :: Below(m, entries, j, k) ==> m.ranks[j] <= lo;
  }

  /** Finds the slot of the least key not below `k`. */
  method MinGreaterEqual(m: Meta, entries: seq<Option<Entry>>, k: Key) returns (r: Option<nat>)
    requires Ordered(m, entries)
    ensures r.None? ==> forall j :: Live(m, j) ==> Below(m, entries, j, k)
    ensures r.Some? ==> Live(m, r.value) && KeyAt(entries, r.value) >= k
    ensures r.Some? ==> forall j :: Live(m, j) && KeyAt(entries, j) >= k ==> KeyAt(entries, r.value) <= KeyAt(entries, j)
  {
    var lo, hi := 0, REMOVED;
    var index := N;
    var i := 0;
    StartsNarrowed(m, entries, k);
    while i < N
      invariant i <= N && Narrowed(m, entries, k, lo, hi, i)
      invariant if index == N then hi == REMOVED else index < i && Above(m, entries, index, k) && m.ranks[index] == hi
    {
      if Exhausted(m, i) {
        ExhaustedNarrowed(m, entries, k, lo, hi, i);
        break;
      }
      var rank := m.ranks[i];
      if rank < hi && rank > lo {
        assert Live(m, i);
        if KeyAt(entries, i) < k {
          NarrowsBelow(m, entries, k, lo, hi, i);
          lo := rank;
        } else if KeyAt(entries, i) > k {
          NarrowsAbove(m, entries, k, lo, hi, i);
          hi := rank;
          index := i;
        } else {
          return Some(i);
        }
      } else {
        StaysNarrowed(m, entries, k, lo, hi, i);
      }
      i := i + 1;
    }
    NarrowedAll(m, entries, k, lo, hi);
    r := if index == N then None else Some(index);
  }

  /** In the first `i` slots the ranks of greater entries have been raised. */
  ghost predicate Raised(m: Meta, entries: seq<Option<Entry>>, k: Key, ranks: seq<nat>, i: nat) {
    && |ranks| == |m.ranks|
    && (forall j :: 0 <= j < |ranks| ==> ranks[j] == if j < i && Above(m, entries, j, k) then m.ranks[j] + 1 else m.ranks[j])
  }

  lemma ExhaustedRaised(m: Meta, entries: seq<Option<Entry>>, k: Key, ranks: seq<nat>, i: nat)
    requires Raised(m, entries, k, ranks, i) && i <= |m.ranks| && Exhausted(m, i)
    ensures Raised(m, entries, k, ranks, |m.ranks|)
  {
  }

  /** Of the slots outside the interval, those above it hold greater keys. */
  lemma SkippedRank(m: Meta, entries: seq<Option<Entry>>, k: Key, lo: nat, hi: nat, i: nat)
    requires Ordered(m, entries) && Narrowed(m, entries, k, lo, hi, i) && i < N
    requires m.ranks[i] <= REMOVED && !(lo < m.ranks[i] < hi)
    ensures Above(m, entries, i, k) <==> m.ranks[i] != REMOVED && m.ranks[i] > hi
  {
    if Live(m, i) { NarrowedTells(m, entries, k, lo, hi, i, i); }
  }

  lemma RaisedAll(m: Meta, entries: seq<Option<Entry>>, slot: nat, k: Key, lo: nat, hi: nat, ranks: seq<nat>)
    requires Ordered(m, entries) && slot < N && Narrowed(m, entries, k, lo, hi, N) && Raised(m, entries, k, ranks, N)
    ensures !Contains(m, entries, k) && Ranked(m, entries, slot, k) == m.(ranks := ranks[slot := lo + 1])
  {
    NarrowedAll(m, entries, k, lo, hi);
    LowIsMaxBelow(m, entries, k, lo, hi);
    assert Ranked(m, entries, slot, k).ranks == ranks[slot := lo + 1];
  }

  /**
    The scan after a slot has been reserved: `None` if the key is there already, or else the word
    with the reserved slot ranked and all greater entries moved up.
   */
  method RankScan(m: Meta, entries: seq<Option<Entry>>, slot: nat, k: Key) returns (r: Option<Meta>)
    requires Ordered(m, entries) && slot < N && m.ranks[slot] == REMOVED
    requires forall i :: 0 <= i < N ==> m.ranks[i] <= REMOVED
    ensures r == if Contains(m, entries, k) then None else Some(Ranked(m, entries, slot, k))
  {
    var lo, hi := 0, REMOVED;
    var ranks := m.ranks;
    var i := 0;
    StartsNarrowed(m, entries, k);
    while i < N
      invariant i <= N && Narrowed(m, entries, k, lo, hi, i) && Raised(m, entries, k, ranks, i)
    {
      if Exhausted(m, i) {
        ExhaustedNarrowed(m, entries, k, lo, hi, i);
        ExhaustedRaised(m, entries, k, ranks, i);
        break;
      }
      var rank := m.ranks[i];
      if rank < hi && rank > lo {
        assert Live(m, i);
        if KeyAt(entries, i) < k {
          NarrowsBelow(m, entries, k, lo, hi, i);
          lo := rank;
        } else if KeyAt(entries, i) > k {
          NarrowsAbove(m, entries, k, lo, hi, i);
          hi := rank;
          ranks := ranks[i := rank + 1];
        } else {
          assert HasKey(m, entries, i, k);
          return None;
        }
      } else {
        SkippedRank(m, entries, k, lo, hi, i);
        StaysNarrowed(m, entries, k, lo, hi, i);
        if rank != REMOVED && rank > hi {
          ranks := ranks[i := rank + 1];
        }
      }
      i := i + 1;
    }
    RaisedAll(m, entries, slot, k, lo, hi, ranks);
    r := Some(m.(ranks := ranks[slot := lo + 1]));
  }

  lemma LowIsMaxBelow(m: Meta, entries: seq<Option<Entry>>, k: Key, lo: nat, hi: nat)
    requires Ordered(m, entries) && Narrowed(m, entries, k, lo, hi, N)
    ensures lo == MaxBelow(m, entries, k, N)
  {
    NarrowedAll(m, entries, k, lo, hi);
  }

  /** Looks for another live entry before the last one is removed. */
  method IsOnlyLive(m: Meta, slot: nat) returns (empty: bool)
    requires |m.ranks| == N && forall i :: 0 <= i < N ==> m.ranks[i] <= REMOVED
    ensures empty == OnlyLive(m, slot)
  {
    empty := true;
    var j := 0;
    while j < N
      invariant j <= N && empty
      invariant forall i :: 0 <= i < j && i != slot ==> !IsLive(m.ranks[i])
    {
      if Exhausted(m, j) { break; }
      if j != slot && m.ranks[j] != UNINIT && m.ranks[j] != REMOVED {
        empty := false;
        break;
      }
      j := j + 1;
    }
  }

  // ---------------------------------------------------------------- in key order

  function RankOf(m: Meta, index: nat): nat
    requires |m.ranks| == N
  {
    if index < N then m.ranks[index] else 0
  }

  /** The live slot with the next higher rank; `N` if there is none. `N` stands before all slots. */
  method Next(index: nat, m: Meta) returns (r: nat)
    requires |m.ranks| == N && index <= N
    requires index < N ==> Live(m, index)
    ensures r == N ==> forall j :: Live(m, j) ==> m.ranks[j] <= RankOf(m, index)
    ensures r != N ==> Live(m, r) && m.ranks[r] > RankOf(m, index)
    ensures r != N ==> forall j :: Live(m, j) && m.ranks[j] > RankOf(m, index) ==> m.ranks[r] <= m.ranks[j]
  {
    var current := RankOf(m, index);
    r := N;
    if current < N {
      var next := REMOVED;
      var i := 0;
      while i < N
        invariant i <= N && (r == N ==> next == REMOVED)
        invariant r != N ==> Live(m, r) && m.ranks[r] == next && next > current
        invariant forall j :: 0 <= j < i && Live(m, j) && m.ranks[j] > current ==> next <= m.ranks[j]
      {
        if Exhausted(m, i) { break; }
        if i != index {
          var rank := m.ranks[i];
          if rank != UNINIT && rank < next {
            if rank == current + 1 {
              return i;
            } else if rank > current {
              next := rank;
              r := i;
            }
          }
        }
        i := i + 1;
      }
    }
  }

  /** The slots in `slots` are all live slots with keys up to the last of them, in key order. */
  ghost predicate InOrder(m: Meta, entries: seq<Option<Entry>>, slots: seq<nat>) {
    && (forall i :: 0 <= i < |slots| ==> Live(m, slots[i]))
    && (forall i, j :: 0 <= i < j < |slots| ==> m.ranks[slots[i]] < m.ranks[slots[j]])
  }

  ghost predicate CompleteTo(m: Meta, slots: seq<nat>, rank: nat) {
    forall j :: Live(m, j) && m.ranks[j] <= rank ==> j in slots
  }

  /** Repeated `Next` lists exactly the live slots, in the order of their keys. */
  lemma OneMoreSlot(m: Meta, entries: seq<Option<Entry>>, slots: seq<nat>, index: nat, next: nat)
    requires Ordered(m, entries) && InOrder(m, entries, slots) && CompleteTo(m, slots, RankOf(m, index))
    requires if slots == [] then index == N else index == slots[|slots| - 1]
    requires Live(m, next) && m.ranks[next] > RankOf(m, index)
    requires forall j :: Live(m, j) && m.ranks[j] > RankOf(m, index) ==> m.ranks[next] <= m.ranks[j]
    ensures InOrder(m, entries, slots + [next]) && CompleteTo(m, slots + [next], RankOf(m, next))
  {
    var more := slots + [next];
    forall j | Live(m, j) && m.ranks[j] <= RankOf(m, next) ensures j in more {
      if m.ranks[j] <= RankOf(m, index) {
        assert j in slots;
      } else {
        assert j == next && more[|slots|] == next;
      }
    }
  }

  method Enumerate(m: Meta, entries: seq<Option<Entry>>) returns (slots: seq<nat>)
    requires Ordered(m, entries)
    ensures forall j :: Live(m, j) <==> j in slots
    ensures forall i, j :: 0 <= i < j < |slots| ==> Live(m, slots[i]) && Live(m, slots[j])
                                                    && KeyAt(entries, slots[i]) < KeyAt(entries, slots[j])
  {
    slots := [];
    var index := N;
    while true
      invariant index <= N && (index < N ==> Live(m, index))
      invariant InOrder(m, entries, slots) && CompleteTo(m, slots, RankOf(m, index))
      invariant if slots == [] then index == N else index == slots[|slots| - 1]
      decreases REMOVED - RankOf(m, index)
    {
      var next := Next(index, m);
      if next == N { break; }
      OneMoreSlot(m, entries, slots, index, next);
      slots := slots + [next];
      index := next;
    }
  }
}
