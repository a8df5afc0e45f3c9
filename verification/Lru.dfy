/**
  The list of recently used slots of a bucket, kept in an array of links: each slot in the list has
  the slots used right after and right before it, in a circle; a slot outside has (0, 0).

  A slot whose two neighbours are slot 0 has (0, 0) as well, so membership is not obvious from its
  own links.
 */
module Lru {
  import opened Common

  /** The number of slots of a bucket. */
  const LEN: nat := 32

  /** `prev`: the slot used next after this one; `next`: the slot used last before it. */
  datatype Link = Link(prev: nat, next: nat)

  const ABSENT: Link := Link(0, 0)

  // ---------------------------------------------------------------- the list as a sequence

  function PrevOf(s: seq<nat>, i: nat): nat
    requires i < |s|
  {
    if i == 0 then s[|s| - 1] else s[i - 1]
  }

  function NextOf(s: seq<nat>, i: nat): nat
    requires i < |s|
  {
    if i == |s| - 1 then s[0] else s[i + 1]
  }

  ghost predicate SlotsOk(s: seq<nat>) {
    Distinct(s) && forall i :: 0 <= i < |s| ==> s[i] < LEN
  }

  /** The links of the slots in `s` are those of the circle `s`. */
  ghost predicate Circle(a: seq<Link>, s: seq<nat>)
    requires |a| == LEN && SlotsOk(s)
  {
    forall i :: 0 <= i < |s| ==> a[s[i]] == Link(PrevOf(s, i), NextOf(s, i))
  }

  /** The array and the tail stand for the slots in `s`, the most recently used first. */
  ghost predicate Stands(a: seq<Link>, tail: nat, s: seq<nat>) {
    && |a| == LEN && SlotsOk(s) && Circle(a, s)
    && (forall x :: 0 <= x < LEN && x !in s ==> a[x] == ABSENT)
    && tail == if s == [] then 0 else s[0] + 1
  }

  /** The sequence without the element. */
  function Without(s: seq<nat>, e: nat): (r: seq<nat>)
    ensures e !in s ==> r == s
  {
    if s == [] then [] else if s[0] == e then s[1..] else [s[0]] + Without(s[1..], e)
  }

  lemma {:induction false} WithoutAt(s: seq<nat>, i: nat)
    requires Distinct(s) && i < |s|
    ensures Without(s, s[i]) == s[..i] + s[i + 1..]
  {
    if i > 0 {
      assert s[0] != s[i];
      WithoutAt(s[1..], i - 1);
      assert s[1..][..i - 1] == s[1..i] && s[1..][i..] == s[i + 1..];
      assert s[..i] == [s[0]] + s[1..i];
    }
  }

  lemma WithoutOk(s: seq<nat>, i: nat)
    requires SlotsOk(s) && i < |s|
    ensures SlotsOk(Without(s, s[i])) && |Without(s, s[i])| == |s| - 1
    ensures forall x :: x in Without(s, s[i]) <==> x in s && x != s[i]
  {
    WithoutAt(s, i);
    var r := s[..i] + s[i + 1..];
    assert forall j :: 0 <= j < |r| ==> r[j] == s[if j < i then j else j + 1];
    forall x | x in s && x != s[i] ensures x in r {
      var j :| 0 <= j < |s| && s[j] == x;
      assert r[if j < i then j else j - 1] == x;
    }
  }

  // ---------------------------------------------------------------- membership

  /** The test of `remove`: the slot is in the list. */
  predicate InList(a: seq<Link>, tail: nat, e: nat)
    requires |a| == LEN && e < LEN
  {
    !(tail == 0 || (a[e] == ABSENT && (a[0] != Link(e, e) || (tail != 1 && tail != e + 1))))
  }

  /** The test finds out whether the slot is in the list, whatever slot 0 is linked to. */
  lemma InListMeansMember(a: seq<Link>, tail: nat, s: seq<nat>, e: nat)
    requires Stands(a, tail, s) && e < LEN
    ensures InList(a, tail, e) <==> e in s
  {
    if e in s {
      var i :| 0 <= i < |s| && s[i] == e;
      if a[e] == ABSENT {
        NeighboursAreZero(a, s, i);
      }
    } else {
      ZeroIsLinkedInside(a, s);
      assert 0 !in s ==> a[0] == ABSENT;
    }
  }

  /** The test of `promote`, for a slot that is not the most recently used. */
  lemma PromoteTest(a: seq<Link>, tail: nat, s: seq<nat>, e: nat)
    requires Stands(a, tail, s) && e < LEN && s != [] && s[0] != e
    ensures a[e] != ABSENT || (a[0] == Link(e, e) && tail == 1) <==> e in s
  {
    InListMeansMember(a, tail, s, e);
  }

  lemma ZeroIsLinkedInside(a: seq<Link>, s: seq<nat>)
    requires |a| == LEN && SlotsOk(s) && Circle(a, s)
    ensures 0 in s ==> a[0].prev in s
  {
    if 0 in s {
      var j :| 0 <= j < |s| && s[j] == 0;
      assert a[s[j]].prev == PrevOf(s, j);
    }
  }

  lemma NeighboursDiffer(s: seq<nat>, i: nat)
    requires Distinct(s) && i < |s|
    ensures |s| > 2 ==> PrevOf(s, i) != NextOf(s, i)
  {
  }

  /** Between twice slot 0 there is slot 0 alone, or a single other slot. */
  lemma NeighboursAreZero(a: seq<Link>, s: seq<nat>, i: nat)
    requires |a| == LEN && SlotsOk(s) && Circle(a, s) && i < |s| && a[s[i]] == ABSENT
    ensures s == [0] || (|s| == 2 && s[1 - i] == 0 && a[0] == Link(s[i], s[i]))
  {
    assert PrevOf(s, i) == 0 && NextOf(s, i) == 0;
    NeighboursDiffer(s, i);
  }

  // ---------------------------------------------------------------- unlinking and linking

  /** The neighbours of `e` are linked to each other. */
  function Unlinked(a: seq<Link>, e: nat): (r: seq<Link>)
    requires e < |a| && a[e].prev < |a| && a[e].next < |a|
    ensures |r| == |a|
  {
    var b := a[a[e].prev := a[a[e].prev].(next := a[e].next)];
    b[b[e].next := b[b[e].next].(prev := b[e].prev)]
  }

  lemma UnlinkedAt(a: seq<Link>, e: nat, x: nat)
    requires e < |a| && x < |a| && a[e].prev < |a| && a[e].next < |a| && a[e].prev != e && a[e].next != e
    ensures Unlinked(a, e)[x] == Link(if x == a[e].next then a[e].prev else a[x].prev,
                                      if x == a[e].prev then a[e].next else a[x].next)
  {
  }

  /** Neighbours see each other. */
  lemma Adjacent(s: seq<nat>, i: nat, k: nat)
    requires Distinct(s) && i < |s| && k < |s|
    ensures PrevOf(s, k) == s[i] <==> s[k] == NextOf(s, i)
    ensures |s| > 1 ==> PrevOf(s, i) != s[i] && NextOf(s, i) != s[i]
  {
  }

  /** The circle without the slot at `i`. */
  lemma SmallerCircle(s: seq<nat>, i: nat, j: nat)
    requires Distinct(s) && i < |s| && j < |s| - 1
    ensures var r, k := s[..i] + s[i + 1..], if j < i then j else j + 1;
            && r[j] == s[k]
            && PrevOf(r, j) == (if PrevOf(s, k) == s[i] then PrevOf(s, i) else PrevOf(s, k))
            && NextOf(r, j) == (if NextOf(s, k) == s[i] then NextOf(s, i) else NextOf(s, k))
  {
    var r := s[..i] + s[i + 1..];
    assert forall x :: 0 <= x < |r| ==> r[x] == s[if x < i then x else x + 1];
  }

  lemma UnlinkedCircle(a: seq<Link>, s: seq<nat>, i: nat)
    requires |a| == LEN && SlotsOk(s) && Circle(a, s) && i < |s| && |s| > 1
    ensures a[s[i]].prev < LEN && a[s[i]].next < LEN
    ensures SlotsOk(Without(s, s[i])) && Circle(Unlinked(a, s[i]), Without(s, s[i]))
    ensures forall x :: 0 <= x < LEN && x !in s ==> Unlinked(a, s[i])[x] == a[x]
  {
    var e := s[i];
    WithoutOk(s, i);
    WithoutAt(s, i);
    Adjacent(s, i, i);
    assert a[e] == Link(PrevOf(s, i), NextOf(s, i));
    var r := Without(s, e);
    forall j | 0 <= j < |r| ensures Unlinked(a, e)[r[j]] == Link(PrevOf(r, j), NextOf(r, j)) {
      UnlinkedCircleAt(a, s, i, j);
    }
    forall x | 0 <= x < LEN && x !in s ensures Unlinked(a, e)[x] == a[x] {
      UnlinkedAt(a, e, x);
      assert PrevOf(s, i) in s && NextOf(s, i) in s;
    }
  }

  lemma UnlinkedCircleAt(a: seq<Link>, s: seq<nat>, i: nat, j: nat)
    requires |a| == LEN && SlotsOk(s) && Circle(a, s) && i < |s| && j < |s| - 1
    requires a[s[i]].prev < LEN && a[s[i]].next < LEN
    ensures var r := s[..i] + s[i + 1..]; Unlinked(a, s[i])[r[j]] == Link(PrevOf(r, j), NextOf(r, j))
  {
    var k := if j < i then j else j + 1;
    SmallerCircle(s, i, j);
    Adjacent(s, i, i);
    Adjacent(s, i, k);
    Adjacent(s, k, i);
    assert a[s[k]] == Link(PrevOf(s, k), NextOf(s, k));
    assert a[s[i]] == Link(PrevOf(s, i), NextOf(s, i));
    UnlinkedAt(a, s[i], s[k]);
  }

  /** `e` is linked between the least and the most recently used slot. */
  function LinkedFirst(a: seq<Link>, head: nat, e: nat): (r: seq<Link>)
    requires head < |a| && e < |a| && a[head].prev < |a|
    ensures |r| == |a|
  {
    var oldest := a[head].prev;
    var b := a[oldest := a[oldest].(next := e)];
    var c := b[head := b[head].(prev := e)];
    c[e := Link(oldest, head)]
  }

  lemma LinkedFirstAt(a: seq<Link>, head: nat, e: nat, x: nat)
    requires head < |a| && e < |a| && x < |a| && a[head].prev < |a| && e != head && e != a[head].prev
    ensures LinkedFirst(a, head, e)[x] ==
            if x == e then Link(a[head].prev, head)
            else Link(if x == head then e else a[x].prev, if x == a[head].prev then e else a[x].next)
  {
  }

  lemma LargerCircle(s: seq<nat>, e: nat, j: nat)
    requires j < |s|
    ensures var r := [e] + s;
            && PrevOf(r, j + 1) == (if j == 0 then e else PrevOf(s, j))
            && NextOf(r, j + 1) == (if j == |s| - 1 then e else NextOf(s, j))
            && PrevOf(r, 0) == s[|s| - 1] && NextOf(r, 0) == s[0]
  {
  }

  lemma LinkedFirstCircleAt(a: seq<Link>, s: seq<nat>, e: nat, j: nat)
    requires |a| == LEN && SlotsOk(s) && Circle(a, s) && j < |s| && e < LEN && e !in s && a[s[0]] == Link(s[|s| - 1], NextOf(s, 0))
    ensures var r := [e] + s; LinkedFirst(a, s[0], e)[s[j]] == Link(PrevOf(r, j + 1), NextOf(r, j + 1))
  {
    assert s[0] in s && s[j] in s && s[|s| - 1] in s;
    LinkedFirstAt(a, s[0], e, s[j]);
    LargerCircle(s, e, j);
    assert a[s[j]] == Link(PrevOf(s, j), NextOf(s, j));
  }

  lemma LinkedFirstSlots(s: seq<nat>, e: nat)
    requires SlotsOk(s) && e < LEN && e !in s
    ensures SlotsOk([e] + s)
  {
  }

  lemma LinkedFirstCircle(a: seq<Link>, s: seq<nat>, e: nat)
    requires |a| == LEN && SlotsOk(s) && Circle(a, s) && s != [] && e < LEN && e !in s
    ensures a[s[0]].prev < LEN && SlotsOk([e] + s) && Circle(LinkedFirst(a, s[0], e), [e] + s)
  {
    var r := [e] + s;
    LinkedFirstSlots(s, e);
    assert a[s[0]] == Link(s[|s| - 1], NextOf(s, 0)) && s[0] in s && s[|s| - 1] in s;
    forall j | 0 <= j < |r| ensures LinkedFirst(a, s[0], e)[r[j]] == Link(PrevOf(r, j), NextOf(r, j)) {
      if j > 0 {
        LinkedFirstCircleAt(a, s, e, j - 1);
        assert r[j] == s[j - 1];
      } else {
        LinkedFirstAt(a, s[0], e, e);
        LargerCircle(s, e, 0);
      }
    }
  }

  lemma LinkedFirstElsewhere(a: seq<Link>, s: seq<nat>, e: nat, x: nat)
    requires |a| == LEN && SlotsOk(s) && Circle(a, s) && s != [] && e < LEN && e !in s && x < LEN && x !in s && x != e
    ensures a[s[0]].prev < LEN && LinkedFirst(a, s[0], e)[x] == a[x]
  {
    assert a[s[0]] == Link(s[|s| - 1], NextOf(s, 0)) && s[0] in s && s[|s| - 1] in s;
    LinkedFirstAt(a, s[0], e, x);
  }

  /** Linked first, the slot is the most recently used. */
  lemma StandsWithFirst(a: seq<Link>, s: seq<nat>, e: nat)
    requires |a| == LEN && SlotsOk(s) && Circle(a, s) && s != [] && e < LEN && e !in s
    requires forall x :: 0 <= x < LEN && x !in s && x != e ==> a[x] == ABSENT
    ensures a[s[0]].prev < LEN && Stands(LinkedFirst(a, s[0], e), e + 1, [e] + s)
  {
    LinkedFirstCircle(a, s, e);
    forall x | 0 <= x < LEN && x !in [e] + s ensures LinkedFirst(a, s[0], e)[x] == ABSENT {
      LinkedFirstElsewhere(a, s, e, x);
    }
  }

  lemma MemberLinks(a: seq<Link>, s: seq<nat>, e: nat)
    requires |a| == LEN && SlotsOk(s) && Circle(a, s) && e in s && s[0] != e
    ensures e < LEN && a[e].prev < LEN && a[e].next < LEN && a[e].prev != e && a[e].next != e
  {
    var i :| 0 <= i < |s| && s[i] == e;
    Adjacent(s, i, i);
    assert a[s[i]] == Link(PrevOf(s, i), NextOf(s, i));
  }

  /** The slot is unlinked if it is in the list. */
  function TakenOut(a: seq<Link>, s: seq<nat>, e: nat): (r: seq<Link>)
    requires |a| == LEN
    ensures |r| == LEN
  {
    if e in s && e < LEN && a[e].prev < LEN && a[e].next < LEN then Unlinked(a, e) else a
  }

  /** Taken out and linked first, the slot is the most recently used, and the others follow as before. */
  lemma Promoted(a: seq<Link>, tail: nat, s: seq<nat>, e: nat)
    requires Stands(a, tail, s) && e < LEN && s != [] && s[0] != e && s[0] < LEN
    ensures TakenOut(a, s, e)[s[0]].prev < LEN
    ensures Stands(LinkedFirst(TakenOut(a, s, e), s[0], e), e + 1, [e] + Without(s, e))
  {
    FirstStays(s, e);
    if e in s {
      var i :| 0 <= i < |s| && s[i] == e;
      UnlinkedCircle(a, s, i);
      WithoutOk(s, i);
    }
    StandsWithFirst(TakenOut(a, s, e), Without(s, e), e);
  }

  /** With a slot unlinked and marked absent, the array stands for the others. */
  lemma StandsWithoutOne(a: seq<Link>, s: seq<nat>, i: nat, tail: nat)
    requires |a| == LEN && SlotsOk(s) && Circle(a, s) && i < |s| && |s| > 1
    requires forall x :: 0 <= x < LEN && x !in s ==> a[x] == ABSENT
    requires tail == (if i == 0 then s[1] else s[0]) + 1
    ensures a[s[i]].prev < LEN && a[s[i]].next < LEN
    ensures Stands(Unlinked(a, s[i])[s[i] := ABSENT], tail, Without(s, s[i]))
  {
    WithoutOk(s, i);
    WithoutAt(s, i);
    UnlinkedCircle(a, s, i);
    var r := Without(s, s[i]);
    assert r[0] == if i == 0 then s[1] else s[0];
    StandsErased(Unlinked(a, s[i]), r, s[i], tail);
  }

  lemma FirstPrev(a: seq<Link>, b: seq<Link>, x: nat)
    requires a == b && x < |a| && b[x].prev < LEN
    ensures a[x].prev < LEN
  {
  }

  lemma StandsErased(a: seq<Link>, s: seq<nat>, e: nat, tail: nat)
    requires |a| == LEN && SlotsOk(s) && Circle(a, s) && s != [] && e < LEN && e !in s
    requires forall x :: 0 <= x < LEN && x !in s && x != e ==> a[x] == ABSENT
    requires tail == s[0] + 1
    ensures Stands(a[e := ABSENT], tail, s)
  {
    forall i | 0 <= i < |s| ensures a[e := ABSENT][s[i]] == a[s[i]] { assert s[i] in s; }
  }

  lemma StandsWithoutOnly(a: seq<Link>, s: seq<nat>)
    requires |a| == LEN && SlotsOk(s) && |s| == 1
    requires forall x :: 0 <= x < LEN && x !in s ==> a[x] == ABSENT
    ensures Stands(a[s[0] := ABSENT], 0, []) && Without(s, s[0]) == []
  {
  }

  // ---------------------------------------------------------------- the list

  class LruList {
    var links: array<Link>
    var tail: nat
    /** The slots in the list, the most recently used first. */
    ghost var order: seq<nat>

    ghost predicate Valid()
      reads this, links
    {
      links.Length == LEN && Stands(links[..], tail, order)
    }

    constructor ()
      ensures Valid() && order == [] && fresh(links)
    {
      links := new Link[LEN](_ => ABSENT);
      tail, order := 0, [];
    }

    /** Takes the least recently used slot out of the list. */
    method Evict() returns (r: Option<nat>)
      requires Valid()
      modifies this, links
      ensures Valid() && links == old(links)
      ensures r == if old(order) == [] then None else Some(old(order)[|old(order)| - 1])
      ensures order == if old(order) == [] then [] else old(order)[..|old(order)| - 1]
    {
      if tail == 0 { return None; }
      var lru := links[tail - 1].prev;
      OldestIsPrev(links[..], order);
      TakeOldest(lru);
      r := Some(lru);
    }

    method TakeOldest(lru: nat)
      requires Valid() && order != [] && lru == order[|order| - 1] && lru == links[tail - 1].prev
      modifies this, links
      ensures Valid() && links == old(links) && order == old(order)[..|old(order)| - 1]
    {
      ghost var a, s := links[..], order;
      OldestIsPrev(a, s);
      WithoutAt(s, |s| - 1);
      assert s[..|s| - 1] + s[|s|..] == s[..|s| - 1];
      if tail - 1 == lru {
        StandsWithoutOnly(a, s);
        tail := 0;
        links[lru] := ABSENT;
        assert links[..] == a[lru := ABSENT];
      } else {
        StandsWithoutOne(a, s, |s| - 1, tail);
        UnlinkOldest(lru);
        links[lru] := ABSENT;
        assert links[..] == Unlinked(a, lru)[lru := ABSENT];
      }
      order := s[..|s| - 1];
    }

    /** The least recently used slot but one becomes the least recently used. */
    method UnlinkOldest(lru: nat)
      requires links.Length == LEN && 0 < tail <= LEN && lru < LEN && lru != tail - 1
      requires links[lru].prev < LEN && links[lru].prev != lru && links[lru].next == tail - 1
      modifies links
      ensures links[..] == Unlinked(old(links[..]), lru)
    {
      var newLru := links[lru].prev;
      links[newLru] := links[newLru].(next := tail - 1);
      links[tail - 1] := links[tail - 1].(prev := newLru);
    }

    /** Takes the slot out of the list if it is in it. */
    method Remove(e: nat)
      requires Valid() && e < LEN
      modifies this, links
      ensures Valid() && links == old(links)
      ensures order == Without(old(order), e)
    {
      InListMeansMember(links[..], tail, order, e);
      if tail == 0 || (links[e] == ABSENT && (links[0] != Link(e, e) || (tail != 1 && tail != e + 1))) {
        return;
      }
      ghost var s := order;
      ghost var i :| 0 <= i < |s| && s[i] == e;
      Adjacent(s, i, i);
      assert links[..][s[i]] == Link(PrevOf(s, i), NextOf(s, i));
      if links[e].prev == e {
        assert s == [e];
        StandsWithoutOnly(links[..], s);
        tail := 0;
      } else {
        StandsWithoutOne(links[..], s, i, if tail == e + 1 then links[e].next + 1 else tail);
        Unlink(e);
        if tail == e + 1 { tail := links[e].next + 1; }
      }
      links[e] := ABSENT;
      order := Without(s, e);
    }

    /** Links the neighbours of a slot to each other. */
    method Unlink(e: nat)
      requires links.Length == LEN && e < LEN && links[e].prev < LEN && links[e].next < LEN
      requires links[e].prev != e && links[e].next != e
      modifies links
      ensures links[..] == Unlinked(old(links[..]), e) && links[e] == old(links[e])
    {
      var prev := links[e].prev;
      links[prev] := links[prev].(next := links[e].next);
      var next := links[e].next;
      links[next] := links[next].(prev := links[e].prev);
    }

    /** Makes the slot the most recently used. */
    method Promote(e: nat)
      requires Valid() && e < LEN
      modifies this, links
      ensures Valid() && links == old(links)
      ensures order == [e] + Without(old(order), e)
    {
      if tail == e + 1 {
        assert order == [order[0]] + order[1..];
        return;
      } else if tail == 0 {
        links[e] := Link(e, e);
        tail, order := e + 1, [e];
        return;
      }
      MoveFirst(e);
    }

    method MoveFirst(e: nat)
      requires Valid() && e < LEN && order != [] && order[0] != e
      modifies this, links
      ensures Valid() && links == old(links) && order == [e] + Without(old(order), e)
    {
      Promoted(links[..], tail, order, e);
      ghost var moved := [e] + Without(order, e);
      ghost var out := TakenOut(links[..], order, e);
      TakeOut(e);
      FirstPrev(links[..], out, tail - 1);
      BecomeFirst(e, moved);
    }

    /** The slot goes in front of the circle, and the tail points to it. */
    method BecomeFirst(e: nat, ghost moved: seq<nat>)
      requires links.Length == LEN && 0 < tail <= LEN && e < LEN && e != tail - 1 && links[tail - 1].prev < LEN
      requires Stands(LinkedFirst(links[..], tail - 1, e), e + 1, moved)
      modifies this, links
      ensures Valid() && links == old(links) && order == moved
    {
      LinkFirst(e);
      ghost var after := links[..];
      assert Stands(after, e + 1, moved);
      tail, order := e + 1, moved;
      assert links[..] == after;
    }

    /** Removes the slot from the circle only if it is a part of it. */
    method TakeOut(e: nat)
      requires Valid() && e < LEN && order != [] && order[0] != e
      modifies links
      ensures links[..] == TakenOut(old(links[..]), order, e)
    {
      PromoteTest(links[..], tail, order, e);
      if links[e] != ABSENT || (links[0] == Link(e, e) && tail == 1) {
        MemberLinks(links[..], order, e);
        Unlink(e);
      }
    }

    /** Links the slot between the least and the most recently used slot. */
    method LinkFirst(e: nat)
      requires links.Length == LEN && 0 < tail <= LEN && e < LEN && e != tail - 1 && links[tail - 1].prev < LEN
      modifies links
      ensures links[..] == LinkedFirst(old(links[..]), tail - 1, e)
    {
      var oldest := links[tail - 1].prev;
      links[oldest] := links[oldest].(next := e);
      links[e] := links[e].(prev := oldest);
      links[tail - 1] := links[tail - 1].(prev := e);
      links[e] := links[e].(next := tail - 1);
    }
  }

  lemma OldestIsPrev(a: seq<Link>, s: seq<nat>)
    requires |a| == LEN && SlotsOk(s) && Circle(a, s) && s != []
    ensures a[s[0]].prev == s[|s| - 1] && (s[0] == s[|s| - 1] <==> |s| == 1)
    ensures |s| > 1 ==> a[s[|s| - 1]] == Link(s[|s| - 2], s[0]) && s[|s| - 2] != s[|s| - 1]
  {
    assert a[s[0]] == Link(PrevOf(s, 0), NextOf(s, 0));
    assert a[s[|s| - 1]] == Link(PrevOf(s, |s| - 1), NextOf(s, |s| - 1));
  }

  lemma FirstStays(s: seq<nat>, e: nat)
    requires Distinct(s) && s != [] && s[0] != e
    ensures Without(s, e) != [] && Without(s, e)[0] == s[0]
  {
  }
}
