/**
  The slots of a cache bucket together with its list of recently used slots: a full bucket gives up
  the entry that was touched longest ago.
 */
module CacheBucket {
  import opened Common
  import opened Lru

  type Key = int
  type Val = nat

  datatype Entry = Entry(key: Key, val: Val)

  ghost predicate Occupied(slots: seq<Option<Entry>>, x: int) {
    0 <= x < |slots| && slots[x].Some?
  }

  predicate HoldsKey(slots: seq<Option<Entry>>, x: nat, k: Key) {
    x < |slots| && slots[x].Some? && slots[x].value.key == k
  }

  ghost predicate Full(slots: seq<Option<Entry>>) {
    forall x :: 0 <= x < |slots| ==> slots[x].Some?
  }

  /** The slots are in the order of their stamps, the latest first. */
  ghost predicate ByStamp(order: seq<nat>, stamps: map<nat, nat>) {
    && (forall i :: 0 <= i < |order| ==> order[i] in stamps)
    && (forall i, j :: 0 <= i < j < |order| ==> stamps[order[i]] > stamps[order[j]])
  }

  lemma {:induction false} WithoutByStamp(order: seq<nat>, stamps: map<nat, nat>, e: nat)
    requires SlotsOk(order) && ByStamp(order, stamps)
    ensures ByStamp(Without(order, e), stamps) && SlotsOk(Without(order, e))
    ensures forall x :: x in Without(order, e) <==> x in order && x != e
  {
    if e in order {
      var i :| 0 <= i < |order| && order[i] == e;
      WithoutOk(order, i);
      WithoutAt(order, i);
      var r := order[..i] + order[i + 1..];
      assert forall j :: 0 <= j < |r| ==> r[j] == order[if j < i then j else j + 1];
    }
  }

  lemma PromotedByStamp(order: seq<nat>, stamps: map<nat, nat>, e: nat, clock: nat)
    requires SlotsOk(order) && ByStamp(order, stamps) && forall x :: x in stamps ==> stamps[x] < clock
    ensures ByStamp([e] + Without(order, e), stamps[e := clock])
    ensures forall x :: x in [e] + Without(order, e) <==> x in order || x == e
  {
    WithoutByStamp(order, stamps, e);
    var rest := Without(order, e);
    assert forall i :: 0 <= i < |rest| ==> rest[i] in rest;
    assert forall i :: 0 < i < |[e] + rest| ==> ([e] + rest)[i] == rest[i - 1];
    forall x | x in order ensures x in [e] + rest {
      if x != e { assert x in rest; }
    }
  }

  lemma LastDropped(order: seq<nat>, stamps: map<nat, nat>)
    requires SlotsOk(order) && ByStamp(order, stamps) && order != []
    ensures ByStamp(order[..|order| - 1], stamps) && order[|order| - 1] in order
    ensures forall x :: x in order[..|order| - 1] <==> x in order && x != order[|order| - 1]
  {
    var init := order[..|order| - 1];
    forall x | x in order && x != order[|order| - 1] ensures x in init {
      var i :| 0 <= i < |order| && order[i] == x;
      assert init[i] == x;
    }
  }

  ghost predicate KeysDiffer(slots: seq<Option<Entry>>) {
    forall x, y :: Occupied(slots, x) && Occupied(slots, y) && x != y ==> slots[x].value.key != slots[y].value.key
  }

  ghost predicate HasNo(slots: seq<Option<Entry>>, k: Key) {
    forall x :: Occupied(slots, x) ==> slots[x].value.key != k
  }

  lemma Cleared(slots: seq<Option<Entry>>, x: nat)
    requires x < |slots| && KeysDiffer(slots)
    ensures KeysDiffer(slots[x := None])
    ensures forall y :: Occupied(slots[x := None], y) <==> Occupied(slots, y) && y != x
    ensures forall k :: HasNo(slots, k) ==> HasNo(slots[x := None], k)
  {
  }

  lemma Filled(slots: seq<Option<Entry>>, x: nat, e: Entry)
    requires x < |slots| && KeysDiffer(slots) && slots[x].None? && HasNo(slots, e.key)
    ensures KeysDiffer(slots[x := Some(e)])
    ensures forall y :: Occupied(slots[x := Some(e)], y) <==> Occupied(slots, y) || y == x
  {
  }

  /** The slots after an entry has been evicted, if one has. */
  function Emptied(slots: seq<Option<Entry>>, evicted: Option<nat>): (r: seq<Option<Entry>>)
    ensures |r| == |slots|
  {
    if evicted.Some? && evicted.value < |slots| then slots[evicted.value := None] else slots
  }

  class CacheBucket {
    const lru: LruList
    var slots: seq<Option<Entry>>
    /** When each slot was last touched, and the time that has passed. */
    ghost var stamps: map<nat, nat>
    ghost var clock: nat

    ghost predicate Valid()
      reads this, lru, lru.links
    {
      && lru.Valid() && |slots| == LEN
      && (forall x :: x in lru.order ==> Occupied(slots, x))
      && ByStamp(lru.order, stamps)
      && (forall x :: x in stamps ==> stamps[x] < clock)
      && KeysDiffer(slots)
    }

    /** Every entry has been touched since it came in, as entries that came through `Put` have. */
    ghost predicate AllTouched()
      reads this, lru
    {
      forall x :: Occupied(slots, x) ==> x in lru.order
    }

    constructor ()
      ensures Valid() && AllTouched() && slots == seq(LEN, _ => None) && fresh(lru) && fresh(lru.links)
    {
      lru := new LruList();
      slots, stamps, clock := seq(LEN, _ => None), map[], 0;
    }

    method Find(k: Key) returns (r: Option<nat>)
      requires Valid()
      ensures r.Some? ==> HoldsKey(slots, r.value, k)
      ensures r.None? <==> HasNo(slots, k)
    {
      var x := 0;
      while x < LEN
        invariant x <= LEN && forall y :: 0 <= y < x && Occupied(slots, y) ==> slots[y].value.key != k
      {
        if HoldsKey(slots, x, k) {
          assert Occupied(slots, x);
          return Some(x);
        }
        x := x + 1;
      }
      r := None;
    }

    /** `update_lru_tail` */
    method Touch(x: nat)
      requires Valid() && Occupied(slots, x)
      modifies this`stamps, this`clock, lru, lru.links
      ensures Valid() && lru.links == old(lru.links)
      ensures lru.order == [x] + Without(old(lru.order), x)
      ensures stamps == old(stamps)[x := old(clock)] && clock == old(clock) + 1
      ensures forall y :: y in lru.order <==> y in old(lru.order) || y == x
    {
      PromotedByStamp(lru.order, stamps, x, clock);
      lru.Promote(x);
      stamps, clock := stamps[x := clock], clock + 1;
    }

    /** The slot touched longest ago leaves the list; without a list it is the first slot. */
    method TakeOldest() returns (x: nat)
      requires Valid()
      modifies lru, lru.links
      ensures Valid() && lru.links == old(lru.links) && x < LEN
      ensures if old(lru.order) == [] then lru.order == [] else old(LeastRecent(x))
      ensures forall y :: y in lru.order <==> y in old(lru.order) && y != x
    {
      if lru.tail != 0 {
        LastDropped(lru.order, stamps);
        LastIsLeastRecent();
      }
      var oldest := lru.Evict();
      x := if oldest.Some? then oldest.value else 0;
    }

    /** Clears a slot that is not in the list. */
    method Clear(x: nat)
      requires Valid() && x < LEN && x !in lru.order
      modifies this`slots
      ensures Valid() && slots == old(slots)[x := None]
      ensures forall k :: HasNo(old(slots), k) ==> HasNo(slots, k)
    {
      Cleared(slots, x);
      slots := slots[x := None];
    }

    /** `evict_lru_head`: makes room if there is none. */
    method Evict() returns (r: Option<nat>)
      requires Valid()
      modifies this`slots, lru, lru.links
      ensures Valid() && lru.links == old(lru.links) && !Full(slots) && slots == Emptied(old(slots), r)
      ensures r.Some? <==> Full(old(slots))
      ensures r.Some? ==> r.value < LEN && (old(lru.order) != [] ==> old(LeastRecent(r.value)))
      ensures r.None? ==> lru.order == old(lru.order)
      ensures old(AllTouched()) ==> AllTouched()
      ensures forall k :: HasNo(old(slots), k) ==> HasNo(slots, k)
    {
      var free := FirstFree();
      if free.Some? { return None; }
      var x := TakeOldest();
      Clear(x);
      assert slots[x].None?;
      r := Some(x);
    }

    method FirstFree() returns (r: Option<nat>)
      requires Valid()
      ensures r.Some? ==> r.value < LEN && slots[r.value].None? && forall y :: 0 <= y < r.value ==> slots[y].Some?
      ensures r.None? <==> Full(slots)
    {
      var x := 0;
      while x < LEN
        invariant x <= LEN && forall y :: 0 <= y < x ==> slots[y].Some?
      {
        if slots[x].None? { return Some(x); }
        x := x + 1;
      }
      r := None;
    }

    /** Fills the first free slot without touching it, as relocation does. */
    method InsertWith(e: Entry) returns (x: nat)
      requires Valid() && !Full(slots) && HasNo(slots, e.key)
      modifies this`slots
      ensures Valid() && x < LEN && old(slots)[x].None? && slots == old(slots)[x := Some(e)]
    {
      var free := FirstFree();
      x := free.value;
      Filled(slots, x, e);
      slots := slots[x := Some(e)];
    }

    /** A slot that holds an entry touched no later than any other that has been touched. */
    ghost predicate LeastRecent(x: nat)
      reads this, lru
      requires ByStamp(lru.order, stamps)
    {
      x in lru.order && forall y :: y in lru.order ==> stamps[x] <= stamps[y]
    }

    lemma LastIsLeastRecent()
      requires Valid() && lru.order != []
      ensures LeastRecent(lru.order[|lru.order| - 1])
    {
      var order := lru.order;
      forall y | y in order ensures stamps[order[|order| - 1]] <= stamps[y] {
        var i :| 0 <= i < |order| && order[i] == y;
      }
    }

    /** When all entries have been touched, the least recent one is the least recent of all. */
    lemma LeastRecentOfAll(x: nat)
      requires Valid() && AllTouched() && Full(slots) && LeastRecent(x)
      ensures lru.order != [] && Occupied(slots, x)
      ensures forall y :: Occupied(slots, y) ==> y in stamps && stamps[x] <= stamps[y]
    {
      forall y | Occupied(slots, y) ensures y in stamps && stamps[x] <= stamps[y] {
        var i :| 0 <= i < |lru.order| && lru.order[i] == y;
      }
    }

    /**
      Stores a new entry as the most recently used; if there is no room, the entry that was touched
      longest ago has to go.
     */
    method Put(e: Entry) returns (stored: bool, evicted: Option<nat>)
      requires Valid()
      modifies this, lru, lru.links
      ensures Valid() && lru.links == old(lru.links)
      ensures stored <==> HasNo(old(slots), e.key)
      ensures !stored ==> slots == old(slots) && lru.order == old(lru.order) && evicted.None?
      ensures evicted.Some? <==> stored && Full(old(slots))
      ensures evicted.Some? ==> evicted.value < LEN && (old(lru.order) != [] ==> old(LeastRecent(evicted.value)))
      ensures stored ==> lru.order != [] && lru.order[0] < LEN && slots == Emptied(old(slots), evicted)[lru.order[0] := Some(e)]
      ensures old(AllTouched()) ==> AllTouched()
    {
      var found := Find(e.key);
      if found.Some? { return false, None; }
      evicted := PutNew(e);
      stored := true;
    }

    method PutNew(e: Entry) returns (evicted: Option<nat>)
      requires Valid() && HasNo(slots, e.key)
      modifies this, lru, lru.links
      ensures Valid() && lru.links == old(lru.links)
      ensures evicted.Some? <==> Full(old(slots))
      ensures evicted.Some? ==> evicted.value < LEN && (old(lru.order) != [] ==> old(LeastRecent(evicted.value)))
      ensures lru.order != [] && lru.order[0] < LEN && slots == Emptied(old(slots), evicted)[lru.order[0] := Some(e)]
      ensures old(AllTouched()) ==> AllTouched()
    {
      evicted := Evict();
      Store(e);
    }

    /** Stores an entry in a free slot as the most recently used. */
    method Store(e: Entry)
      requires Valid() && !Full(slots) && HasNo(slots, e.key)
      modifies this, lru, lru.links
      ensures Valid() && lru.links == old(lru.links)
      ensures lru.order != [] && lru.order[0] < LEN && slots == old(slots)[lru.order[0] := Some(e)]
      ensures old(AllTouched()) ==> AllTouched()
    {
      var x := InsertWith(e);
      Touch(x);
    }

    /** Finds an entry and makes it the most recently used. */
    method Get(k: Key) returns (r: Option<Entry>)
      requires Valid()
      modifies this`stamps, this`clock, lru, lru.links
      ensures Valid() && lru.links == old(lru.links)
      ensures r.None? <==> HasNo(slots, k)
      ensures r.Some? ==> r.value.key == k && lru.order != [] && Occupied(slots, lru.order[0]) && slots[lru.order[0]] == r
      ensures r.None? ==> lru.order == old(lru.order)
      ensures old(AllTouched()) ==> AllTouched()
    {
      var found := Find(k);
      if found.None? { return None; }
      Touch(found.value);
      r := slots[found.value];
    }

    /** Takes an entry out. */
    method Remove(k: Key) returns (r: Option<Entry>)
      requires Valid()
      modifies this`slots, lru, lru.links
      ensures Valid() && lru.links == old(lru.links)
      ensures r.None? <==> HasNo(old(slots), k)
      ensures r.None? ==> slots == old(slots)
      ensures r.Some? ==> exists x :: 0 <= x < LEN && old(slots)[x] == r && r.value.key == k && slots == old(slots)[x := None]
                                      && lru.order == Without(old(lru.order), x)
      ensures old(AllTouched()) ==> AllTouched()
    {
      var found := Find(k);
      if found.None? { return None; }
      var x := found.value;
      WithoutByStamp(lru.order, stamps, x);
      lru.Remove(x);
      r := slots[x];
      Clear(x);
    }
  }
}
