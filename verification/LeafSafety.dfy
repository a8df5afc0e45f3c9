/**
  What every run of a leaf keeps: live ranks are distinct and ordered as their keys and never reach
  the rank that marks removal, and the live entries are the map the insertions and removals make.
 */
module LeafSafety {
  import opened Common
  import opened Entries
  import opened Leaf

  // ---------------------------------------------------------------- invariant

  /** Live slots hold entries, and their ranks are distinct and ordered as their keys. */
  ghost predicate Ordered(m: Meta, entries: seq<Option<Entry>>) {
    && |m.ranks| == N && |entries| == N
    && (forall i :: Live(m, i) ==> entries[i].Some?)
    && (forall i, j :: Live(m, i) && Live(m, j) && i != j ==>
          m.ranks[i] != m.ranks[j]
          && (m.ranks[i] < m.ranks[j] <==> entries[i].value.key < entries[j].value.key))
  }

  /** No two live slots hold the same key. */
  lemma KeysDistinct(m: Meta, entries: seq<Option<Entry>>, i: int, j: int)
    requires Ordered(m, entries) && Live(m, i) && Live(m, j) && i != j
    ensures entries[i].value.key != entries[j].value.key
  {
    assert m.ranks[i] < m.ranks[j] || m.ranks[j] < m.ranks[i];
  }

  ghost predicate Sized(s: State) {
    |s.meta.ranks| == N && |s.entries| == N
  }

  /** The slot a thread has reserved. */
  function Reserves(pc: Pc): Option<nat> {
    match pc
    case Publishing(slot, _) => Some(slot)
    case RollingBack(slot) => Some(slot)
    case _ => None
  }

  ghost predicate ReservedBy(s: State, i: int, t: nat) {
    i >= 0 && t in s.threads && Reserves(s.threads[t]) == Some(i)
  }

  /** Ranked slots stay taken; a slot that is neither free nor ranked is reserved by one thread. */
  ghost predicate Slots(s: State)
    requires Sized(s)
  {
    && (forall i :: i in s.published ==> i < N && s.meta.ranks[i] != UNINIT && s.entries[i].Some?)
    && (forall i :: 0 <= i < N ==> s.meta.ranks[i] <= REMOVED)
    && (forall i :: Live(s.meta, i) ==> i in s.published && s.meta.ranks[i] <= |s.published|)
    && (forall i, t :: ReservedBy(s, i, t) ==> i < N && s.meta.ranks[i] == REMOVED && i !in s.published)
    && (forall i, t, u :: ReservedBy(s, i, t) && ReservedBy(s, i, u) ==> t == u)
  }

  /** A word loaded earlier: its live slots are still there and ordered as their keys. */
  ghost predicate SnapshotOk(s: State, seen: Meta) {
    Ordered(seen, s.entries) && forall i :: Live(seen, i) ==> i in s.published
  }

  ghost predicate PcOk(s: State, pc: Pc)
    requires Sized(s)
  {
    match pc
    case Reserving(_, _, seen) => SnapshotOk(s, seen)
    case Publishing(slot, seen) => slot < N && SnapshotOk(s, seen) && !seen.frozen && !seen.retired
    case RollingBack(slot) => slot < N
    case Removing(k, slot, seen) =>
      && SnapshotOk(s, seen) && !seen.frozen && Live(seen, slot)
      && slot in s.published && slot < N && s.entries[slot].Some? && s.entries[slot].value.key == k
    case _ => true
  }

  ghost predicate Threads(s: State)
    requires Sized(s)
  {
    && (forall t :: t in s.threads ==> PcOk(s, s.threads[t]))
    && (forall i, t :: ReservedBy(s, i, t) ==> i < N && s.entries[i].Some?)
  }

  /** The live entries are the map. */
  ghost predicate OneMap(s: State)
    requires Ordered(s.meta, s.entries)
  {
    && (forall i :: Live(s.meta, i) ==>
          && s.entries[i].value.key in s.model
          && s.model[s.entries[i].value.key] == s.entries[i].value.val)
    && (forall k :: k in s.model ==> Contains(s.meta, s.entries, k))
  }

  ghost predicate Inv(s: State) {
    && Ordered(s.meta, s.entries) && Slots(s) && Threads(s) && OneMap(s)
    && (s.meta.retired ==> s.model == map[])
  }

  lemma InitialInv()
    ensures Inv(Initial())
  {
  }

  lemma SizesFromInv(s: State)
    requires Inv(s)
    ensures SizesOk(s)
  {
    forall t | t in s.threads ensures PcOk(s, s.threads[t]) {}
    assert forall t :: t in s.threads && Reserves(s.threads[t]).Some? ==> ReservedBy(s, Reserves(s.threads[t]).value, t);
  }

  // ---------------------------------------------------------------- a thread goes on

  lemma GoesOn(s: State, t: nat, q: Pc)
    requires Inv(s) && PcOk(s, q)
    requires Reserves(q).Some? ==> Reserves(q) == Reserves(PcOf(s, t))
    ensures Inv(WithPc(s, t, q))
  {
    var u := WithPc(s, t, q);
    assert forall i, v :: ReservedBy(u, i, v) ==> ReservedBy(s, i, v);
    forall v | v in u.threads ensures PcOk(u, u.threads[v]) {
      assert PcOk(s, u.threads[v]);
    }
  }

  // ---------------------------------------------------------------- flags

  lemma FlagsKeep(s: State, frozen: bool)
    requires Inv(s)
    ensures Inv(s.(meta := s.meta.(frozen := frozen)))
  {
    var u := s.(meta := s.meta.(frozen := frozen));
    assert forall i :: Live(u.meta, i) <==> Live(s.meta, i);
    assert forall i, t :: ReservedBy(u, i, t) <==> ReservedBy(s, i, t);
    assert forall i, k :: HasKey(s.meta, s.entries, i, k) ==> HasKey(u.meta, u.entries, i, k);
    forall t | t in u.threads ensures PcOk(u, u.threads[t]) {
      assert PcOk(s, u.threads[t]);
    }
  }

  // ---------------------------------------------------------------- changing a slot that is not live

  /** Slot `i`, not live before, gets a rank that is not live either, and an entry or none. */
  ghost predicate Alters(s: State, u: State, i: nat) {
    && |s.meta.ranks| == N && |s.entries| == N && i < N
    && !Live(s.meta, i) && i !in s.published && !Live(u.meta, i)
    && |u.meta.ranks| == N && |u.entries| == N
    && u.meta == s.meta.(ranks := s.meta.ranks[i := u.meta.ranks[i]])
    && u.entries == s.entries[i := u.entries[i]]
    && u == s.(meta := u.meta, entries := u.entries, threads := u.threads)
  }

  /** The live slots are the same, with the same ranks and entries. */
  ghost predicate SameLive(m: Meta, entries: seq<Option<Entry>>, n: Meta, after: seq<Option<Entry>>) {
    && |m.ranks| == |n.ranks| == N && |entries| == |after| == N
    && (forall j :: Live(n, j) <==> Live(m, j))
    && (forall j :: Live(m, j) ==> n.ranks[j] == m.ranks[j] && after[j] == entries[j])
  }

  lemma SameLiveOrdered(m: Meta, entries: seq<Option<Entry>>, n: Meta, after: seq<Option<Entry>>)
    requires SameLive(m, entries, n, after) && Ordered(m, entries)
    ensures Ordered(n, after)
    ensures forall j, k :: HasKey(m, entries, j, k) ==> HasKey(n, after, j, k)
  {
  }

  lemma AltersSameLive(s: State, u: State, i: nat)
    requires Alters(s, u, i)
    ensures SameLive(s.meta, s.entries, u.meta, u.entries)
  {
    assert forall j :: j != i ==> (Live(u.meta, j) <==> Live(s.meta, j));
  }

  lemma SameLiveOneMap(s: State, u: State)
    requires SameLive(s.meta, s.entries, u.meta, u.entries) && u.model == s.model
    requires Ordered(s.meta, s.entries) && Ordered(u.meta, u.entries) && OneMap(s)
    requires forall j, k :: HasKey(s.meta, s.entries, j, k) ==> HasKey(u.meta, u.entries, j, k)
    ensures OneMap(u)
  {
    forall k | k in u.model ensures Contains(u.meta, u.entries, k) {
      var j :| HasKey(s.meta, s.entries, j, k);
      assert HasKey(u.meta, u.entries, j, k);
    }
  }

  lemma AltersLive(s: State, u: State, i: nat)
    requires Alters(s, u, i) && Ordered(s.meta, s.entries) && OneMap(s)
    ensures Ordered(u.meta, u.entries) && OneMap(u)
  {
    AltersSameLive(s, u, i);
    SameLiveOrdered(s.meta, s.entries, u.meta, u.entries);
    SameLiveOneMap(s, u);
  }

  lemma AltersPcOk(s: State, u: State, i: nat, pc: Pc)
    requires Sized(s) && Alters(s, u, i) && PcOk(s, pc)
    ensures PcOk(u, pc)
  {
  }

  /** Nobody but `t` has to do with slot `i`, before and after. */
  ghost predicate OwnSlot(s: State, u: State, i: nat, t: nat) {
    && t in u.threads && u.threads == s.threads[t := u.threads[t]]
    && (forall w :: ReservedBy(s, i, w) ==> w == t)
    && (forall j :: ReservedBy(s, j, t) ==> j == i)
    && (forall j :: ReservedBy(u, j, t) ==> j == i)
  }

  lemma AltersSlots(s: State, u: State, i: nat, t: nat)
    requires Sized(s) && Alters(s, u, i) && Slots(s) && OwnSlot(s, u, i, t)
    requires u.meta.ranks[i] <= REMOVED && (ReservedBy(u, i, t) ==> u.meta.ranks[i] == REMOVED)
    ensures Slots(u)
  {
    AltersSameLive(s, u, i);
    assert forall j, w :: w != t ==> (ReservedBy(u, j, w) <==> ReservedBy(s, j, w));
  }

  lemma AltersThreads(s: State, u: State, i: nat, t: nat)
    requires Sized(s) && Alters(s, u, i) && Threads(s) && OwnSlot(s, u, i, t)
    requires PcOk(u, u.threads[t]) && (ReservedBy(u, i, t) ==> u.entries[i].Some?)
    ensures Threads(u)
  {
    assert forall j, w :: w != t ==> (ReservedBy(u, j, w) <==> ReservedBy(s, j, w));
    forall w | w in u.threads ensures PcOk(u, u.threads[w]) {
      if w != t { AltersPcOk(s, u, i, s.threads[w]); }
    }
  }

  lemma ReserveKeeps(s: State, t: nat, slot: nat, k: Key, v: Val)
    requires Inv(s) && slot < N && s.meta.ranks[slot] == UNINIT && !s.meta.frozen && !s.meta.retired
    requires Reserves(PcOf(s, t)).None?
    ensures Inv(Reserved(s, t, slot, k, v))
  {
    var u := Reserved(s, t, slot, k, v);
    assert Alters(s, u, slot);
    assert OwnSlot(s, u, slot, t);
    AltersLive(s, u, slot);
    AltersSlots(s, u, slot, t);
    AltersThreads(s, u, slot, t);
  }

  lemma RollBackKeeps(s: State, t: nat)
    requires Inv(s) && SizesOk(s) && PcOf(s, t).RollingBack?
    ensures Inv(RollBackStep(s, t))
  {
    var u := RollBackStep(s, t);
    var slot := PcOf(s, t).slot;
    assert ReservedBy(s, slot, t);
    assert Alters(s, u, slot);
    assert OwnSlot(s, u, slot, t);
    AltersLive(s, u, slot);
    AltersSlots(s, u, slot, t);
    AltersThreads(s, u, slot, t);
  }

  // ---------------------------------------------------------------- publishing

  /** Ranking an entry keeps live ranks distinct and ordered as their keys. */
  lemma RankedIsOrdered(m: Meta, entries: seq<Option<Entry>>, slot: nat, k: Key)
    requires Ordered(m, entries) && slot < N && !Live(m, slot)
    requires entries[slot].Some? && entries[slot].value.key == k && !Contains(m, entries, k)
    requires forall i :: Live(m, i) ==> m.ranks[i] < REMOVED - 1
    ensures Ordered(Ranked(m, entries, slot, k), entries)
    ensures forall i :: Live(Ranked(m, entries, slot, k), i) <==> Live(m, i) || i == slot
  {
    var u := Ranked(m, entries, slot, k);
    var top := MaxBelow(m, entries, k, N);
    RankBetween(m, entries, k);
    forall i | 0 <= i < N && Live(m, i) ensures entries[i].value.key != k {
      assert entries[i].value.key == k ==> HasKey(m, entries, i, k);
    }
    forall i, j | Live(u, i) && Live(u, j) && i != j
      ensures u.ranks[i] != u.ranks[j]
      ensures u.ranks[i] < u.ranks[j] <==> entries[i].value.key < entries[j].value.key
    {
      assert i != slot ==> Live(m, i) && (Above(m, entries, i, k) || Below(m, entries, i, k));
      assert j != slot ==> Live(m, j) && (Above(m, entries, j, k) || Below(m, entries, j, k));
    }
  }

  /** The greatest rank below a key separates the ranks below it from those above it. */
  lemma RankBetween(m: Meta, entries: seq<Option<Entry>>, k: Key)
    requires Ordered(m, entries)
    ensures forall i :: Below(m, entries, i, k) ==> m.ranks[i] <= MaxBelow(m, entries, k, N)
    ensures forall i :: Above(m, entries, i, k) ==> m.ranks[i] > MaxBelow(m, entries, k, N)
    ensures MaxBelow(m, entries, k, N) == 0 || exists i :: Live(m, i) && m.ranks[i] == MaxBelow(m, entries, k, N)
  {
    var top := MaxBelow(m, entries, k, N);
    if top > 0 {
      var b :| b < N && Below(m, entries, b, k) && m.ranks[b] == top;
      assert Live(m, b);
      forall i | Above(m, entries, i, k) ensures m.ranks[i] > top {
        assert i != b;
      }
    }
  }

  lemma {:induction false} FewPublished(p: set<nat>, n: nat)
    requires forall i :: i in p ==> i < n
    ensures |p| <= n
    decreases n
  {
    if n > 0 {
      FewPublished(p - {n - 1}, n - 1);
    } else {
      assert p == {};
    }
  }

  /** A reserved slot leaves room among the ranks. */
  lemma RoomForRank(s: State, slot: nat)
    requires Sized(s) && Slots(s) && slot < N && slot !in s.published
    ensures |s.published| < N && |s.published + {slot}| == |s.published| + 1
    ensures forall i :: Live(s.meta, i) ==> s.meta.ranks[i] < REMOVED - 1
  {
    assert forall i :: i in s.published + {slot} ==> i < N;
    FewPublished(s.published + {slot}, N);
  }

  lemma PublishedOneMap(s: State, t: nat, slot: nat, e: Entry)
    requires Ordered(s.meta, s.entries) && OneMap(s) && slot < N && s.entries[slot] == Some(e)
    requires !Contains(s.meta, s.entries, e.key)
    requires var u := Published(s, t, slot, e);
             Ordered(u.meta, u.entries) && forall i :: Live(u.meta, i) <==> Live(s.meta, i) || i == slot
    ensures OneMap(Published(s, t, slot, e))
    ensures e.key !in s.model
  {
    var u := Published(s, t, slot, e);
    forall k | k in u.model ensures Contains(u.meta, u.entries, k) {
      if k == e.key {
        assert HasKey(u.meta, u.entries, slot, k);
      } else {
        var j :| HasKey(s.meta, s.entries, j, k);
        assert HasKey(u.meta, u.entries, j, k);
      }
    }
    forall i | Live(s.meta, i) ensures s.entries[i].value.key != e.key {
      assert s.entries[i].value.key == e.key ==> HasKey(s.meta, s.entries, i, e.key);
    }
  }

  lemma PublishedSlots(s: State, t: nat, slot: nat, e: Entry)
    requires Ordered(s.meta, s.entries) && Slots(s) && ReservedBy(s, slot, t) && slot < N && s.entries[slot] == Some(e)
    requires var u := Published(s, t, slot, e); forall i :: Live(u.meta, i) <==> Live(s.meta, i) || i == slot
    ensures Slots(Published(s, t, slot, e))
  {
    var u := Published(s, t, slot, e);
    RoomForRank(s, slot);
    RankBetween(s.meta, s.entries, e.key);
    assert forall i, w :: ReservedBy(u, i, w) ==> w != t && ReservedBy(s, i, w);
    assert forall i :: 0 <= i < N && i != slot && !Live(s.meta, i) ==> u.meta.ranks[i] == s.meta.ranks[i];
    assert forall i :: 0 <= i < N && s.meta.ranks[i] == REMOVED ==> !Live(s.meta, i);
  }

  lemma PublishedThreads(s: State, t: nat, slot: nat, e: Entry)
    requires Sized(s) && Threads(s)
    ensures Threads(Published(s, t, slot, e))
  {
    var u := Published(s, t, slot, e);
    assert forall i, w :: ReservedBy(u, i, w) ==> ReservedBy(s, i, w);
    forall w | w in u.threads ensures PcOk(u, u.threads[w]) {
      if w != t { assert PcOk(s, s.threads[w]); }
    }
  }

  lemma PublishKeeps(s: State, t: nat, slot: nat, e: Entry)
    requires Inv(s) && ReservedBy(s, slot, t) && slot < N && s.entries[slot] == Some(e)
    requires !s.meta.retired && !Contains(s.meta, s.entries, e.key)
    ensures Inv(Published(s, t, slot, e))
    ensures e.key !in s.model
  {
    RoomForRank(s, slot);
    RankedIsOrdered(s.meta, s.entries, slot, e.key);
    PublishedSlots(s, t, slot, e);
    PublishedThreads(s, t, slot, e);
    PublishedOneMap(s, t, slot, e);
  }

  // ---------------------------------------------------------------- removing

  lemma RemovedOrdered(m: Meta, entries: seq<Option<Entry>>, slot: nat)
    requires Ordered(m, entries) && Live(m, slot)
    ensures Ordered(WithoutSlot(m, slot), entries)
    ensures forall i :: Live(WithoutSlot(m, slot), i) <==> Live(m, i) && i != slot
  {
    var u := WithoutSlot(m, slot);
    assert forall i :: Live(u, i) <==> Live(m, i) && i != slot;
  }

  lemma RemovedOneMap(s: State, t: nat, k: Key, slot: nat)
    requires Ordered(s.meta, s.entries) && OneMap(s) && HasKey(s.meta, s.entries, slot, k)
    requires Ordered(WithoutSlot(s.meta, slot), s.entries)
    requires forall i :: Live(WithoutSlot(s.meta, slot), i) <==> Live(s.meta, i) && i != slot
    ensures OneMap(Unpublished(s, t, k, slot))
    ensures k in s.model
  {
    var u := Unpublished(s, t, k, slot);
    forall x | x in u.model ensures Contains(u.meta, u.entries, x) {
      var j :| HasKey(s.meta, s.entries, j, x);
      assert HasKey(u.meta, u.entries, j, x);
    }
    forall i | Live(u.meta, i) ensures s.entries[i].value.key != k {
      KeysDistinct(s.meta, s.entries, i, slot);
    }
  }

  /** With the last live entry the map becomes empty. */
  lemma NoneLeft(s: State)
    requires Ordered(s.meta, s.entries) && OneMap(s) && forall i :: !Live(s.meta, i)
    ensures s.model == map[]
  {
    assert forall k :: !Contains(s.meta, s.entries, k);
    assert forall k :: k !in s.model;
  }

  lemma RemovedSlots(s: State, t: nat, k: Key, slot: nat)
    requires Sized(s) && Slots(s) && Live(s.meta, slot) && Reserves(PcOf(s, t)).None?
    ensures Slots(Unpublished(s, t, k, slot))
  {
    var u := Unpublished(s, t, k, slot);
    assert forall i, w :: ReservedBy(u, i, w) ==> ReservedBy(s, i, w);
    assert forall i :: Live(u.meta, i) ==> Live(s.meta, i) && u.meta.ranks[i] == s.meta.ranks[i];
  }

  lemma RemovedThreads(s: State, t: nat, k: Key, slot: nat)
    requires Sized(s) && Threads(s) && slot < N && Reserves(PcOf(s, t)).None?
    ensures Threads(Unpublished(s, t, k, slot))
  {
    var u := Unpublished(s, t, k, slot);
    assert forall i, w :: ReservedBy(u, i, w) ==> ReservedBy(s, i, w);
    forall w | w in u.threads ensures PcOk(u, u.threads[w]) {
      if w != t { assert PcOk(s, s.threads[w]); }
    }
  }

  lemma RemoveKeeps(s: State, t: nat, k: Key, slot: nat)
    requires Inv(s) && HasKey(s.meta, s.entries, slot, k) && Reserves(PcOf(s, t)).None?
    ensures Inv(Unpublished(s, t, k, slot))
    ensures k in s.model
  {
    RemovedOrdered(s.meta, s.entries, slot);
    RemovedOneMap(s, t, k, slot);
    RemovedSlots(s, t, k, slot);
    RemovedThreads(s, t, k, slot);
    if OnlyLive(s.meta, slot) { NoneLeft(Unpublished(s, t, k, slot)); }
  }

  // ---------------------------------------------------------------- every step

  lemma ReserveStepKeeps(s: State, t: nat)
    requires Inv(s) && SizesOk(s) && PcOf(s, t).Reserving?
    ensures Inv(ReserveStep(s, t)) && ReserveStep(s, t).model == s.model
  {
    var pc := PcOf(s, t);
    var free := FirstFree(pc.seen.ranks);
    if !pc.seen.retired && !pc.seen.frozen && free.Some? && s.meta == pc.seen {
      ReserveKeeps(s, t, free.value, pc.k, pc.v);
    } else {
      GoesOn(s, t, ReserveStep(s, t).threads[t]);
    }
  }

  lemma PublishStepKeeps(s: State, t: nat)
    requires Inv(s) && SizesOk(s) && PcOf(s, t).Publishing?
    ensures Inv(PublishStep(s, t))
  {
    var Publishing(slot, seen) := PcOf(s, t);
    var e := s.entries[slot].value;
    assert PcOk(s, s.threads[t]) && ReservedBy(s, slot, t);
    if !Contains(seen, s.entries, e.key) && s.meta == seen {
      PublishKeeps(s, t, slot, e);
    } else {
      GoesOn(s, t, PublishStep(s, t).threads[t]);
    }
  }

  lemma RemoveStepKeeps(s: State, t: nat)
    requires Inv(s) && SizesOk(s) && PcOf(s, t).Removing?
    ensures Inv(RemoveStep(s, t))
  {
    var Removing(k, slot, seen) := PcOf(s, t);
    assert PcOk(s, s.threads[t]);
    if s.meta == seen {
      assert HasKey(s.meta, s.entries, slot, k);
      RemoveKeeps(s, t, k, slot);
    } else {
      if s.meta.ranks[slot] != REMOVED { assert Live(s.meta, slot); }
      GoesOn(s, t, RemoveStep(s, t).threads[t]);
    }
  }

  lemma BeginRemoveKeeps(s: State, t: nat, k: Key)
    requires Inv(s) && Idling(PcOf(s, t))
    ensures Inv(RemoveBegun(s, t, k))
  {
    GoesOn(s, t, RemoveBegun(s, t, k).threads[t]);
  }

  lemma InvKept(s: State, a: Action)
    requires Inv(s) && Enabled(s, a)
    ensures Inv(Apply(s, a))
  {
    match a
    case BeginInsert(t, k, v) => GoesOn(s, t, Reserving(k, v, s.meta));
    case BeginRemove(t, k) => BeginRemoveKeeps(s, t, k);
    case Step(t) =>
      match s.threads[t] {
        case Reserving(_, _, _) => ReserveStepKeeps(s, t);
        case Publishing(_, _) => PublishStepKeeps(s, t);
        case RollingBack(_) => RollBackKeeps(s, t);
        case _ => RemoveStepKeeps(s, t);
      }
    case Decline(t) => GoesOn(s, t, RemoveDone(NotRemoved));
    case Freeze => FlagsKeep(s, true);
    case Thaw => FlagsKeep(s, false);
  }
}
