/**
  The chain of leaves: every leaf links to the next, new leaves are put in right behind the leaf
  they replace, and deleted leaves are skipped.
 */
module TreeLinks {
  import opened Common

  /** `chain`: all leaves ever linked, in link order; `next`: the next unused name for a leaf. */
  datatype Links = Links(chain: seq<nat>, deleted: set<nat>, next: nat)

  function Filter(chain: seq<nat>, deleted: set<nat>): seq<nat> {
    if chain == [] then []
    else (if chain[0] in deleted then [] else [chain[0]]) + Filter(chain[1..], deleted)
  }

  /** The leaves a scan of the chain stops at. */
  function Visible(l: Links): seq<nat> { Filter(l.chain, l.deleted) }

  ghost predicate LinksOk(l: Links) {
    && Distinct(l.chain)
    && (forall i :: 0 <= i < |l.chain| ==> l.chain[i] < l.next)
    && (forall x :: x in l.deleted ==> x < l.next)
  }

  function PutAfter(chain: seq<nat>, target: nat, x: nat): seq<nat> {
    if chain == [] then []
    else if chain[0] == target then [target, x] + chain[1..]
    else [chain[0]] + PutAfter(chain[1..], target, x)
  }

  /** `target.push_back`: a new leaf directly behind the target. */
  function PushBack(l: Links, target: nat): Links {
    l.(chain := PutAfter(l.chain, target, l.next), next := l.next + 1)
  }

  /** `leaf.delete_self` */
  function Delete(l: Links, leaf: nat): Links {
    l.(deleted := l.deleted + {leaf})
  }

  // ---------------------------------------------------------------- the effect on the visible leaves

  lemma {:induction false} FilterMembers(chain: seq<nat>, deleted: set<nat>, x: nat)
    ensures x in Filter(chain, deleted) <==> x in chain && x !in deleted
  {
    if chain != [] { FilterMembers(chain[1..], deleted, x); }
  }

  lemma {:induction false} PutAfterMembers(chain: seq<nat>, target: nat, x: nat, y: nat)
    ensures y in PutAfter(chain, target, x) ==> y in chain || y == x
    ensures target in chain ==> |PutAfter(chain, target, x)| == |chain| + 1
  {
    if chain != [] { PutAfterMembers(chain[1..], target, x, y); }
  }

  lemma DistinctTail(chain: seq<nat>)
    requires chain != [] && Distinct(chain)
    ensures Distinct(chain[1..]) && chain[0] !in chain[1..]
  {
  }

  lemma {:induction false} PutAfterDistinct(chain: seq<nat>, target: nat, x: nat)
    requires Distinct(chain) && x !in chain
    ensures Distinct(PutAfter(chain, target, x))
  {
    if chain != [] {
      DistinctTail(chain);
      PutAfterDistinct(chain[1..], target, x);
      if chain[0] == target {
        Prepend([x] + chain[1..], target);
        Prepend(chain[1..], x);
        assert [target, x] + chain[1..] == [target] + ([x] + chain[1..]);
      } else {
        PutAfterMembers(chain[1..], target, x, chain[0]);
        Prepend(PutAfter(chain[1..], target, x), chain[0]);
      }
    }
  }

  lemma Prepend(chain: seq<nat>, x: nat)
    requires x !in chain
    ensures Distinct(chain) ==> Distinct([x] + chain)
  {
  }

  /** The visible chain begins with its first leaf that is not deleted. */
  lemma FirstVisible(chain: seq<nat>, deleted: set<nat>, a: seq<nat>, t: nat, b: seq<nat>)
    requires chain != [] && Distinct(chain) && Filter(chain, deleted) == a + [t] + b
    ensures chain[0] in deleted ==> Filter(chain[1..], deleted) == a + [t] + b && chain[0] != t
    ensures chain[0] !in deleted && chain[0] == t ==> a == [] && Filter(chain[1..], deleted) == b
    ensures chain[0] !in deleted && chain[0] != t ==>
              a != [] && a[0] == chain[0] && Filter(chain[1..], deleted) == a[1..] + [t] + b
  {
    var f := Filter(chain, deleted);
    DistinctTail(chain);
    FilterMembers(chain, deleted, t);
    FilterMembers(chain[1..], deleted, t);
    assert f[|a|] == t;
    if chain[0] !in deleted {
      assert f[0] == chain[0] && f[1..] == Filter(chain[1..], deleted);
      if a == [] {
        assert f[1..] == b;
      } else {
        assert f[1..] == a[1..] + [t] + b && t in f[1..];
      }
    }
  }

  lemma {:induction false} FilterPutAfter(chain: seq<nat>, deleted: set<nat>, a: seq<nat>, t: nat, b: seq<nat>, x: nat)
    requires Distinct(chain) && x !in deleted && Filter(chain, deleted) == a + [t] + b
    ensures Filter(PutAfter(chain, t, x), deleted) == a + [t, x] + b
    decreases |chain|
  {
    if chain != [] {
      FirstVisible(chain, deleted, a, t, b);
      DistinctTail(chain);
      var r := PutAfter(chain, t, x);
      if chain[0] == t {
        FilterMembers(chain, deleted, t);
        assert (a + [t] + b)[|a|] == t;
        assert r[1..] == [x] + chain[1..] && r[1..][1..] == chain[1..];
      } else {
        assert r[1..] == PutAfter(chain[1..], t, x);
        if chain[0] in deleted {
          FilterPutAfter(chain[1..], deleted, a, t, b, x);
        } else {
          FilterPutAfter(chain[1..], deleted, a[1..], t, b, x);
        }
      }
    }
  }

  lemma {:induction false} FilterDelete(chain: seq<nat>, deleted: set<nat>, a: seq<nat>, t: nat, b: seq<nat>)
    requires Distinct(chain) && Filter(chain, deleted) == a + [t] + b
    ensures Filter(chain, deleted + {t}) == a + b
    decreases |chain|
  {
    if chain != [] {
      FirstVisible(chain, deleted, a, t, b);
      DistinctTail(chain);
      if chain[0] == t {
        FilterMore(chain[1..], deleted, t);
      } else if chain[0] in deleted {
        FilterDelete(chain[1..], deleted, a, t, b);
      } else {
        FilterDelete(chain[1..], deleted, a[1..], t, b);
        assert a + b == [a[0]] + (a[1..] + b);
      }
    }
  }

  lemma {:induction false} FilterMore(chain: seq<nat>, deleted: set<nat>, t: nat)
    requires t !in chain
    ensures Filter(chain, deleted + {t}) == Filter(chain, deleted)
  {
    if chain != [] { FilterMore(chain[1..], deleted, t); }
  }

  /** A new leaf becomes visible directly behind its target. */
  lemma PushBackShows(l: Links, a: seq<nat>, t: nat, b: seq<nat>)
    requires LinksOk(l) && Visible(l) == a + [t] + b
    ensures LinksOk(PushBack(l, t)) && Visible(PushBack(l, t)) == a + [t, l.next] + b
  {
    FilterPutAfter(l.chain, l.deleted, a, t, b, l.next);
    PutAfterDistinct(l.chain, t, l.next);
    var u := PushBack(l, t);
    forall i | 0 <= i < |u.chain| ensures u.chain[i] < u.next {
      PutAfterMembers(l.chain, t, l.next, u.chain[i]);
    }
  }

  /** A deleted leaf is no longer visible, and all others stay. */
  lemma DeleteShows(l: Links, a: seq<nat>, t: nat, b: seq<nat>)
    requires LinksOk(l) && Visible(l) == a + [t] + b
    ensures LinksOk(Delete(l, t)) && Visible(Delete(l, t)) == a + b
  {
    FilterDelete(l.chain, l.deleted, a, t, b);
    FilterMembers(l.chain, l.deleted, t);
    assert t in a + [t] + b;
  }
}
