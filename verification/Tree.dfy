/**
  The tree as a value: leaves with their entries in key order, and nodes with their children in key
  order. A node of height 1 is a leaf node, a higher one an internal node.

  What a leaf does with its slots is proved of `LeafObject.LeafCell`; here a leaf is its live
  entries, the number of its slots in use, and whether it has retired. The children of a node are
  kept in an array of the same kind, so a node, too, has a number of slots in use, and it is worn
  once the last key has been removed from that array.
 */
module Tree {
  import opened Common
  import opened Entries

  datatype Node =
    | Leaf(id: nat, list: seq<Entry>, used: nat, retired: bool)
    | Inner(keys: seq<Key>, kids: seq<Node>, slots: nat, worn: bool)   // the last child has no key

  // ---------------------------------------------------------------- contents

  function Leaves(n: Node): seq<Node> {
    match n
    case Leaf(_, _, _, _) => [n]
    case Inner(_, kids, _, _) => LeavesAll(kids)
  }

  function LeavesAll(kids: seq<Node>): seq<Node> {
    if kids == [] then [] else Leaves(kids[0]) + LeavesAll(kids[1..])
  }

  function ListOf(n: Node): seq<Entry> {
    if n.Leaf? then n.list else []
  }

  function Lists(leaves: seq<Node>): seq<Entry> {
    if leaves == [] then [] else ListOf(leaves[0]) + Lists(leaves[1..])
  }

  function IdOf(n: Node): nat {
    if n.Leaf? then n.id else 0
  }

  function IdsOf(leaves: seq<Node>): seq<nat> {
    seq(|leaves|, i requires 0 <= i < |leaves| => IdOf(leaves[i]))
  }

  /** All entries in order. */
  function Flat(n: Node): seq<Entry> { Lists(Leaves(n)) }

  /** The leaves in order. */
  function Ids(n: Node): seq<nat> { IdsOf(Leaves(n)) }

  lemma Regroup<T>(a: seq<T>, b: seq<T>, c: seq<T>)
    ensures a + (b + c) == a + b + c
  {
  }

  lemma {:induction false} LeavesAllSplit(a: seq<Node>, b: seq<Node>)
    ensures LeavesAll(a + b) == LeavesAll(a) + LeavesAll(b)
  {
    if a == [] {
      assert a + b == b;
    } else {
      LeavesAllSplit(a[1..], b);
      assert (a + b)[0] == a[0] && (a + b)[1..] == a[1..] + b;
      Regroup(Leaves(a[0]), LeavesAll(a[1..]), LeavesAll(b));
    }
  }

  lemma {:induction false} ListsSplit(a: seq<Node>, b: seq<Node>)
    ensures Lists(a + b) == Lists(a) + Lists(b)
  {
    if a == [] {
      assert a + b == b;
    } else {
      ListsSplit(a[1..], b);
      assert (a + b)[0] == a[0] && (a + b)[1..] == a[1..] + b;
      Regroup(ListOf(a[0]), Lists(a[1..]), Lists(b));
    }
  }

  /** The leaves and entries around child `i`. */
  lemma AroundKid(kids: seq<Node>, i: nat)
    requires i < |kids|
    ensures LeavesAll(kids) == LeavesAll(kids[..i]) + Leaves(kids[i]) + LeavesAll(kids[i + 1..])
    ensures Lists(LeavesAll(kids)) == Lists(LeavesAll(kids[..i])) + Flat(kids[i]) + Lists(LeavesAll(kids[i + 1..]))
  {
    var a, c := kids[..i], kids[i + 1..];
    assert kids == a + kids[i..] && kids[i..][1..] == c;
    LeavesAllSplit(a, kids[i..]);
    Regroup(LeavesAll(a), Leaves(kids[i]), LeavesAll(c));
    ThreeParts(LeavesAll(a), Leaves(kids[i]), LeavesAll(c));
  }

  lemma ThreeParts(a: seq<Node>, b: seq<Node>, c: seq<Node>)
    ensures Lists(a + b + c) == Lists(a) + Lists(b) + Lists(c)
  {
    ListsSplit(a + b, c);
    ListsSplit(a, b);
  }

  lemma FlatLeaf(n: Node)
    requires n.Leaf?
    ensures Leaves(n) == [n] && Flat(n) == n.list
  {
    assert [n][1..] == [] && Lists([]) == [];
    assert Lists([n]) == n.list + Lists([n][1..]);
  }

  // ---------------------------------------------------------------- order

  ghost predicate Above(lo: Option<Key>, k: Key) { lo.Some? ==> lo.value < k }

  ghost predicate UpTo(k: Key, hi: Option<Key>) { hi.Some? ==> k <= hi.value }

  ghost predicate Within(k: Key, lo: Option<Key>, hi: Option<Key>) { Above(lo, k) && UpTo(k, hi) }

  ghost predicate Increasing(list: seq<Entry>) {
    forall i, j :: 0 <= i < j < |list| ==> list[i].key < list[j].key
  }

  ghost predicate AllWithin(list: seq<Entry>, lo: Option<Key>, hi: Option<Key>) {
    forall i :: 0 <= i < |list| ==> Within(list[i].key, lo, hi)
  }

  predicate HasKey(list: seq<Entry>, k: Key) {
    exists i :: 0 <= i < |list| && list[i].key == k
  }

  /** The range of the keys in child `i`. */
  function LoAt(keys: seq<Key>, i: nat, lo: Option<Key>): Option<Key>
    requires i <= |keys|
  {
    if i == 0 then lo else Some(keys[i - 1])
  }

  function HiAt(keys: seq<Key>, i: nat, hi: Option<Key>): Option<Key>
    requires i <= |keys|
  {
    if i == |keys| then hi else Some(keys[i])
  }

  /** Keys separate the children: they increase and lie strictly inside the range. */
  ghost predicate Separates(keys: seq<Key>, lo: Option<Key>, hi: Option<Key>) {
    && (forall i, j :: 0 <= i < j < |keys| ==> keys[i] < keys[j])
    && (forall i :: 0 <= i < |keys| ==> Above(lo, keys[i]) && (hi.Some? ==> keys[i] < hi.value))
  }

  ghost predicate LeafOk(n: Node, lo: Option<Key>, hi: Option<Key>)
    requires n.Leaf?
  {
    Increasing(n.list) && AllWithin(n.list, lo, hi) && |n.list| <= n.used <= N && (n.retired ==> n.list == [])
  }

  /** A tree of height `h` whose keys are above `lo` and up to `hi`; all leaves are at one depth. */
  ghost predicate Valid(n: Node, h: nat, lo: Option<Key>, hi: Option<Key>)
    decreases h, 1
  {
    match n
    case Leaf(_, _, _, _) => h == 0 && LeafOk(n, lo, hi)
    case Inner(keys, kids, slots, worn) => h > 0 && |keys| <= slots <= N && ValidKids(keys, kids, h, lo, hi)
  }

  /** The children of the node are leaves, not nodes. */
  predicate IsLeafNode(n: Node) {
    n.Inner? && n.kids != [] && n.kids[0].Leaf?
  }

  lemma LeafNodesAreLow(n: Node, h: nat, lo: Option<Key>, hi: Option<Key>)
    requires n.Inner? && Valid(n, h, lo, hi)
    ensures (IsLeafNode(n) <==> h == 1) && |n.kids| == |n.keys| + 1
  {
    assert ValidKids(n.keys, n.kids, h, lo, hi);
    assert Valid(n.kids[0], h - 1, LoAt(n.keys, 0, lo), HiAt(n.keys, 0, hi));
  }

  lemma KidIsNode(n: Node, h: nat, lo: Option<Key>, hi: Option<Key>, i: nat)
    requires n.Inner? && h > 1 && Valid(n, h, lo, hi) && i < |n.kids| == |n.keys| + 1
    ensures n.kids[i].Inner? && Valid(n.kids[i], h - 1, LoAt(n.keys, i, lo), HiAt(n.keys, i, hi))
  {
    assert ValidKids(n.keys, n.kids, h, lo, hi);
  }

  /** Children of a node of height `h`; only the last leaf of a leaf node may have retired. */
  ghost predicate ValidKids(keys: seq<Key>, kids: seq<Node>, h: nat, lo: Option<Key>, hi: Option<Key>)
    decreases h, 0
  {
    && h > 0 && |kids| == |keys| + 1 && Separates(keys, lo, hi)
    && (forall i :: 0 <= i < |kids| ==> Valid(kids[i], h - 1, LoAt(keys, i, lo), HiAt(keys, i, hi)))
    && (h == 1 ==> forall i :: 0 <= i < |keys| ==> kids[i].Leaf? && !kids[i].retired)
  }

  /** The child that `min_greater_equal` finds: the first whose key is not below `k`, or the last. */
  function Pick(keys: seq<Key>, k: Key): (r: nat)
    ensures r <= |keys|
    ensures forall i :: 0 <= i < r ==> keys[i] < k
    ensures r < |keys| ==> k <= keys[r]
  {
    if keys == [] || k <= keys[0] then 0 else
    var r := 1 + Pick(keys[1..], k);
    assert forall i :: 0 < i < r ==> keys[i] == keys[1..][i - 1];
    r
  }

  lemma PickIs(keys: seq<Key>, lo: Option<Key>, hi: Option<Key>, k: Key, i: nat)
    requires Separates(keys, lo, hi) && i <= |keys|
    requires (i > 0 ==> keys[i - 1] < k) && (i < |keys| ==> k <= keys[i])
    ensures Pick(keys, k) == i
  {
  }

  lemma PickWithin(keys: seq<Key>, lo: Option<Key>, hi: Option<Key>, k: Key)
    requires Separates(keys, lo, hi) && Within(k, lo, hi)
    ensures var i := Pick(keys, k); Within(k, LoAt(keys, i, lo), HiAt(keys, i, hi))
  {
  }

  // ---------------------------------------------------------------- entries of a valid tree

  lemma {:induction false} LeavesOrdered(n: Node, h: nat, lo: Option<Key>, hi: Option<Key>)
    requires Valid(n, h, lo, hi)
    ensures Increasing(Flat(n)) && AllWithin(Flat(n), lo, hi)
    decreases h, 1, 0
  {
    if n.Leaf? {
      FlatLeaf(n);
    } else {
      KidsOrdered(n.keys, n.kids, h, lo, hi, |n.kids|);
      assert n.kids[..|n.kids|] == n.kids;
    }
  }

  lemma {:induction false} KidsOrdered(keys: seq<Key>, kids: seq<Node>, h: nat, lo: Option<Key>, hi: Option<Key>, i: nat)
    requires ValidKids(keys, kids, h, lo, hi) && i <= |kids|
    ensures var list := Lists(LeavesAll(kids[..i]));
            Increasing(list) && AllWithin(list, lo, if i == 0 then hi else HiAt(keys, i - 1, hi))
    decreases h, 0, i
  {
    if i > 0 {
      KidsOrdered(keys, kids, h, lo, hi, i - 1);
      LeavesOrdered(kids[i - 1], h - 1, LoAt(keys, i - 1, lo), HiAt(keys, i - 1, hi));
      assert kids[..i] == kids[..i - 1] + [kids[i - 1]];
      LeavesAllSplit(kids[..i - 1], [kids[i - 1]]);
      assert LeavesAll([kids[i - 1]]) == Leaves(kids[i - 1]);
      ListsSplit(LeavesAll(kids[..i - 1]), Leaves(kids[i - 1]));
      if i > 1 {
        Joined(Lists(LeavesAll(kids[..i - 1])), Flat(kids[i - 1]), lo, keys[i - 2], HiAt(keys, i - 1, hi));
      } else {
        assert kids[..0] == [];
      }
    }
  }

  lemma Joined(a: seq<Entry>, b: seq<Entry>, lo: Option<Key>, mid: Key, hi: Option<Key>)
    requires Increasing(a) && AllWithin(a, lo, Some(mid)) && Increasing(b) && AllWithin(b, Some(mid), hi)
    requires Above(lo, mid) && UpTo(mid, hi)
    ensures Increasing(a + b) && AllWithin(a + b, lo, hi)
  {
  }

  /** A key is in a node exactly if it is in the child that is picked for it. */
  lemma KeyInPicked(keys: seq<Key>, kids: seq<Node>, h: nat, lo: Option<Key>, hi: Option<Key>, k: Key)
    requires ValidKids(keys, kids, h, lo, hi)
    ensures HasKey(Lists(LeavesAll(kids)), k) <==> HasKey(Flat(kids[Pick(keys, k)]), k)
    ensures forall v :: Entry(k, v) in Lists(LeavesAll(kids)) <==> Entry(k, v) in Flat(kids[Pick(keys, k)])
  {
    var i := Pick(keys, k);
    AroundKid(kids, i);
    var a, b, c := Lists(LeavesAll(kids[..i])), Flat(kids[i]), Lists(LeavesAll(kids[i + 1..]));
    KeysBefore(keys, kids, h, lo, hi, k, i);
    KeysAfter(keys, kids, h, lo, hi, k, i);
    HasKeyInMiddle(a, b, c, k);
  }

  lemma HasKeyInMiddle(a: seq<Entry>, b: seq<Entry>, c: seq<Entry>, k: Key)
    requires !HasKey(a, k) && !HasKey(c, k)
    ensures HasKey(a + b + c, k) <==> HasKey(b, k)
    ensures forall v :: Entry(k, v) in a + b + c <==> Entry(k, v) in b
  {
    var l := a + b + c;
    assert forall j :: 0 <= j < |a| ==> l[j] == a[j];
    assert forall j :: 0 <= j < |b| ==> l[|a| + j] == b[j];
    assert forall j :: 0 <= j < |c| ==> l[|a| + |b| + j] == c[j];
    if HasKey(b, k) {
      var j :| 0 <= j < |b| && b[j].key == k;
      assert l[|a| + j].key == k;
    }
    if HasKey(l, k) {
      var j :| 0 <= j < |l| && l[j].key == k;
      MiddleOf(a, b, c, j);
    }
    forall v ensures Entry(k, v) in l <==> Entry(k, v) in b {
      assert Entry(k, v) in a ==> HasKey(a, k);
      assert Entry(k, v) in c ==> HasKey(c, k);
    }
  }

  lemma MiddleOf(a: seq<Entry>, b: seq<Entry>, c: seq<Entry>, j: nat)
    requires j < |a + b + c|
    ensures var x := (a + b + c)[j]; x in a || x in b || x in c
  {
  }

  lemma KeysBefore(keys: seq<Key>, kids: seq<Node>, h: nat, lo: Option<Key>, hi: Option<Key>, k: Key, i: nat)
    requires ValidKids(keys, kids, h, lo, hi) && i == Pick(keys, k)
    ensures !HasKey(Lists(LeavesAll(kids[..i])), k)
  {
    KidsOrdered(keys, kids, h, lo, hi, i);
  }

  lemma KeysAfter(keys: seq<Key>, kids: seq<Node>, h: nat, lo: Option<Key>, hi: Option<Key>, k: Key, i: nat)
    requires ValidKids(keys, kids, h, lo, hi) && i == Pick(keys, k)
    ensures !HasKey(Lists(LeavesAll(kids[i + 1..])), k)
  {
    if i < |keys| {
      RestAbove(keys, kids, h, lo, hi, i + 1);
    }
  }

  lemma {:induction false} RestAbove(keys: seq<Key>, kids: seq<Node>, h: nat, lo: Option<Key>, hi: Option<Key>, i: nat)
    requires ValidKids(keys, kids, h, lo, hi) && 0 < i <= |keys|
    ensures AllWithin(Lists(LeavesAll(kids[i..])), Some(keys[i - 1]), hi)
    decreases |kids| - i
  {
    if i < |keys| { RestAbove(keys, kids, h, lo, hi, i + 1); }
    LeavesOrdered(kids[i], h - 1, LoAt(keys, i, lo), HiAt(keys, i, hi));
    assert kids[i..][1..] == kids[i + 1..];
    ListsSplit(Leaves(kids[i]), LeavesAll(kids[i + 1..]));
  }

  // ---------------------------------------------------------------- search

  /** The value under `k`, if there is one. */
  function Search(n: Node, k: Key): Option<Val> {
    match n
    case Leaf(_, list, _, _) => FindIn(list, k)
    case Inner(keys, kids, _, _) =>
      var i := Pick(keys, k);
      if i < |kids| then Search(kids[i], k) else None
  }

  function FindIn(list: seq<Entry>, k: Key): (r: Option<Val>)
    ensures r.None? <==> !HasKey(list, k)
    ensures r.Some? ==> Entry(k, r.value) in list
  {
    if list == [] then None
    else if list[0].key == k then Some(list[0].val)
    else
      var r := FindIn(list[1..], k);
      assert HasKey(list, k) ==> HasKey(list[1..], k) by {
        if HasKey(list, k) {
          var i :| 0 <= i < |list| && list[i].key == k;
          assert list[1..][i - 1].key == k;
        }
      }
      assert HasKey(list[1..], k) ==> HasKey(list, k) by {
        if HasKey(list[1..], k) {
          var i :| 0 <= i < |list[1..]| && list[1..][i].key == k;
          assert list[i + 1].key == k;
        }
      }
      r
  }

  /** Searching from the root finds exactly what is stored. */
  lemma {:induction false} SearchFinds(n: Node, h: nat, lo: Option<Key>, hi: Option<Key>, k: Key)
    requires Valid(n, h, lo, hi)
    ensures Search(n, k).None? <==> !HasKey(Flat(n), k)
    ensures Search(n, k).Some? ==> Entry(k, Search(n, k).value) in Flat(n)
    decreases h
  {
    if n.Leaf? {
      FlatLeaf(n);
    } else {
      var i := Pick(n.keys, k);
      SearchFinds(n.kids[i], h - 1, LoAt(n.keys, i, lo), HiAt(n.keys, i, hi), k);
      KeyInPicked(n.keys, n.kids, h, lo, hi, k);
    }
  }

  // ---------------------------------------------------------------- one entry more or less

  /** `after` is `before` with one more entry. */
  ghost predicate Inserts(before: seq<Entry>, after: seq<Entry>, e: Entry) {
    exists p :: 0 <= p <= |before| && after == before[..p] + [e] + before[p..]
  }

  lemma InsertsInside(x: seq<Entry>, before: seq<Entry>, after: seq<Entry>, y: seq<Entry>, e: Entry)
    requires Inserts(before, after, e)
    ensures Inserts(x + before + y, x + after + y, e)
  {
    var p :| 0 <= p <= |before| && after == before[..p] + [e] + before[p..];
    var l := x + before + y;
    assert l[..|x| + p] == x + before[..p];
    assert l[|x| + p..] == before[p..] + y;
    assert x + after + y == l[..|x| + p] + [e] + l[|x| + p..];
  }

  /** Where an entry belongs among others. */
  function Place(list: seq<Entry>, k: Key): (p: nat)
    ensures p <= |list| && (forall i :: 0 <= i < p ==> list[i].key < k) && (p < |list| ==> list[p].key >= k)
  {
    if list == [] || list[0].key >= k then 0 else
    var p := 1 + Place(list[1..], k);
    assert forall i :: 0 < i < p ==> list[i] == list[1..][i - 1];
    p
  }

  function WithEntry(list: seq<Entry>, e: Entry): (r: seq<Entry>)
    ensures Inserts(list, r, e)
  {
    var p := Place(list, e.key);
    list[..p] + [e] + list[p..]
  }

  lemma AtInserted(list: seq<Entry>, p: nat, e: Entry, i: nat)
    requires p <= |list| && i <= |list|
    ensures (list[..p] + [e] + list[p..])[i] == if i < p then list[i] else if i == p then e else list[i - 1]
  {
  }

  lemma InsertedIncreasing(list: seq<Entry>, p: nat, e: Entry)
    requires Increasing(list) && p <= |list|
    requires forall i :: 0 <= i < p ==> list[i].key < e.key
    requires forall i :: p <= i < |list| ==> e.key < list[i].key
    ensures Increasing(list[..p] + [e] + list[p..])
  {
    var r := list[..p] + [e] + list[p..];
    forall i, j | 0 <= i < j < |r| ensures r[i].key < r[j].key {
      AtInserted(list, p, e, i);
      AtInserted(list, p, e, j);
    }
  }

  lemma WithEntryOk(list: seq<Entry>, e: Entry, lo: Option<Key>, hi: Option<Key>)
    requires Increasing(list) && AllWithin(list, lo, hi) && Within(e.key, lo, hi) && !HasKey(list, e.key)
    ensures Increasing(WithEntry(list, e)) && AllWithin(WithEntry(list, e), lo, hi)
  {
    var p := Place(list, e.key);
    forall i | p <= i < |list| ensures e.key < list[i].key {
      assert list[i].key != e.key;
      assert i > p ==> list[p].key < list[i].key;
    }
    InsertedIncreasing(list, p, e);
    forall i | 0 <= i <= |list| ensures Within(WithEntry(list, e)[i].key, lo, hi) {
      AtInserted(list, p, e, i);
    }
  }

  function WithoutKey(list: seq<Entry>, k: Key): seq<Entry> {
    var p := Place(list, k);
    if p < |list| && list[p].key == k then list[..p] + list[p + 1..] else list
  }

  lemma PlaceOf(list: seq<Entry>, i: nat)
    requires Increasing(list) && i < |list|
    ensures Place(list, list[i].key) == i
  {
  }

  lemma Cut(list: seq<Entry>, i: nat)
    requires i < |list|
    ensures Inserts(list[..i] + list[i + 1..], list, list[i])
  {
    var r := list[..i] + list[i + 1..];
    assert r[..i] == list[..i] && r[i..] == list[i + 1..];
    assert list == r[..i] + [list[i]] + r[i..];
  }

  lemma CutIncreasing(list: seq<Entry>, p: nat)
    requires Increasing(list) && p < |list|
    ensures Increasing(list[..p] + list[p + 1..])
  {
    var r := list[..p] + list[p + 1..];
    forall i | 0 <= i < |r| ensures r[i] == list[if i < p then i else i + 1] {
    }
  }

  lemma CutWithin(list: seq<Entry>, p: nat, lo: Option<Key>, hi: Option<Key>)
    requires AllWithin(list, lo, hi) && p < |list|
    ensures AllWithin(list[..p] + list[p + 1..], lo, hi)
  {
    var r := list[..p] + list[p + 1..];
    forall i | 0 <= i < |r| ensures Within(r[i].key, lo, hi) {
      assert r[i] == list[if i < p then i else i + 1];
    }
  }

  lemma WithoutKeyOk(list: seq<Entry>, e: Entry, lo: Option<Key>, hi: Option<Key>)
    requires Increasing(list) && AllWithin(list, lo, hi) && e in list
    ensures Inserts(WithoutKey(list, e.key), list, e)
    ensures Increasing(WithoutKey(list, e.key)) && AllWithin(WithoutKey(list, e.key), lo, hi)
  {
    var i :| 0 <= i < |list| && list[i] == e;
    PlaceOf(list, i);
    assert WithoutKey(list, e.key) == list[..i] + list[i + 1..];
    Cut(list, i);
    CutIncreasing(list, i);
    CutWithin(list, i, lo, hi);
  }
}
