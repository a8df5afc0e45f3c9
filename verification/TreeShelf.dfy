/**
  The structural changes of a node: a child is replaced, a child becomes two, a node becomes two.
 */
module TreeShelf {
  import opened Common
  import opened Entries
  import opened Tree

  // ---------------------------------------------------------------- room for a key

  /** The leaf for the key can take one more entry. */
  function HasRoom(n: Node, k: Key): bool {
    match n
    case Leaf(_, _, used, retired) => !retired && used < N
    case Inner(keys, kids, _, _) =>
      var i := Pick(keys, k);
      if i < |kids| then HasRoom(kids[i], k) else false
  }

  predicate RoomAt(keys: seq<Key>, kids: seq<Node>, k: Key) {
    var i := Pick(keys, k);
    i < |kids| && HasRoom(kids[i], k)
  }

  // ---------------------------------------------------------------- a child is replaced

  lemma ReplaceKid(keys: seq<Key>, kids: seq<Node>, h: nat, lo: Option<Key>, hi: Option<Key>, i: nat, c: Node)
    requires ValidKids(keys, kids, h, lo, hi) && i < |kids|
    requires Valid(c, h - 1, LoAt(keys, i, lo), HiAt(keys, i, hi))
    requires h == 1 && i < |keys| ==> !c.retired
    ensures ValidKids(keys, kids[i := c], h, lo, hi)
    ensures LeavesAll(kids[i := c]) == LeavesAll(kids[..i]) + Leaves(c) + LeavesAll(kids[i + 1..])
    ensures Lists(LeavesAll(kids[i := c])) == Lists(LeavesAll(kids[..i])) + Flat(c) + Lists(LeavesAll(kids[i + 1..]))
  {
    var after := kids[i := c];
    assert after[..i] == kids[..i] && after[i + 1..] == kids[i + 1..];
    AroundKid(after, i);
  }

  // ---------------------------------------------------------------- a child becomes two

  function Widened(keys: seq<Key>, i: nat, mid: Key): seq<Key>
    requires i <= |keys|
  {
    keys[..i] + [mid] + keys[i..]
  }

  function WidenedKids(kids: seq<Node>, i: nat, low: Node, high: Node): seq<Node>
    requires i < |kids|
  {
    kids[..i] + [low, high] + kids[i + 1..]
  }

  /** `low` and `high` can take the place of child `i`, with `mid` between them. */
  ghost predicate Halves(keys: seq<Key>, h: nat, lo: Option<Key>, hi: Option<Key>, i: nat, mid: Key, low: Node, high: Node)
    requires h > 0 && i <= |keys|
  {
    && Valid(low, h - 1, LoAt(keys, i, lo), Some(mid)) && Valid(high, h - 1, Some(mid), HiAt(keys, i, hi))
    && Above(LoAt(keys, i, lo), mid) && (HiAt(keys, i, hi).Some? ==> mid < HiAt(keys, i, hi).value)
    && (h == 1 ==> !low.retired && (i < |keys| ==> !high.retired))
  }

  lemma WidenSeparates(keys: seq<Key>, lo: Option<Key>, hi: Option<Key>, i: nat, mid: Key)
    requires Separates(keys, lo, hi) && i <= |keys|
    requires Above(LoAt(keys, i, lo), mid) && (HiAt(keys, i, hi).Some? ==> mid < HiAt(keys, i, hi).value)
    ensures Separates(Widened(keys, i, mid), lo, hi) && mid !in keys
  {
    var w := Widened(keys, i, mid);
    assert i > 0 ==> keys[i - 1] < mid;
    assert i < |keys| ==> mid < keys[i];
    forall j | 0 <= j < |w| ensures w[j] == if j < i then keys[j] else if j == i then mid else keys[j - 1] {
    }
    forall j, k | 0 <= j < k < |w| ensures w[j] < w[k] {
      assert j < i ==> keys[j] <= keys[i - 1];
      assert k > i ==> keys[i] <= keys[k - 1];
    }
  }

  lemma WidenRange(keys: seq<Key>, lo: Option<Key>, hi: Option<Key>, i: nat, mid: Key, j: nat)
    requires i <= |keys| && j <= |keys| + 1
    ensures var w := Widened(keys, i, mid);
            && (j < i ==> LoAt(w, j, lo) == LoAt(keys, j, lo) && HiAt(w, j, hi) == HiAt(keys, j, hi))
            && (j == i ==> LoAt(w, j, lo) == LoAt(keys, i, lo) && HiAt(w, j, hi) == Some(mid))
            && (j == i + 1 ==> LoAt(w, j, lo) == Some(mid) && HiAt(w, j, hi) == HiAt(keys, i, hi))
            && (j > i + 1 ==> LoAt(w, j, lo) == LoAt(keys, j - 1, lo) && HiAt(w, j, hi) == HiAt(keys, j - 1, hi))
  {
  }

  lemma WidenOk(keys: seq<Key>, kids: seq<Node>, h: nat, lo: Option<Key>, hi: Option<Key>,
                i: nat, mid: Key, low: Node, high: Node)
    requires ValidKids(keys, kids, h, lo, hi) && i < |kids| && Halves(keys, h, lo, hi, i, mid, low, high)
    ensures ValidKids(Widened(keys, i, mid), WidenedKids(kids, i, low, high), h, lo, hi)
  {
    var w, c := Widened(keys, i, mid), WidenedKids(kids, i, low, high);
    WidenSeparates(keys, lo, hi, i, mid);
    forall j | 0 <= j < |c| ensures Valid(c[j], h - 1, LoAt(w, j, lo), HiAt(w, j, hi)) {
      WidenRange(keys, lo, hi, i, mid, j);
      WidenKid(kids, i, low, high, j);
    }
    forall j | 0 <= j < |w| ensures h == 1 ==> c[j].Leaf? && !c[j].retired {
      WidenKid(kids, i, low, high, j);
    }
  }

  lemma WidenKid(kids: seq<Node>, i: nat, low: Node, high: Node, j: nat)
    requires i < |kids| && j <= |kids|
    ensures WidenedKids(kids, i, low, high)[j] ==
            if j < i then kids[j] else if j == i then low else if j == i + 1 then high else kids[j - 1]
  {
  }

  /** The leaves around the two. */
  lemma WidenLeaves(kids: seq<Node>, i: nat, low: Node, high: Node)
    requires i < |kids|
    ensures LeavesAll(WidenedKids(kids, i, low, high)) ==
            LeavesAll(kids[..i]) + (Leaves(low) + Leaves(high)) + LeavesAll(kids[i + 1..])
    ensures Lists(LeavesAll(WidenedKids(kids, i, low, high))) ==
            Lists(LeavesAll(kids[..i])) + (Flat(low) + Flat(high)) + Lists(LeavesAll(kids[i + 1..]))
  {
    LeavesAllSplit(kids[..i] + [low, high], kids[i + 1..]);
    LeavesAllSplit(kids[..i], [low, high]);
    assert [low, high][1..] == [high] && LeavesAll([high]) == Leaves(high);
    ThreeParts(LeavesAll(kids[..i]), Leaves(low) + Leaves(high), LeavesAll(kids[i + 1..]));
    ListsSplit(Leaves(low), Leaves(high));
  }

  /** What was picked before is found in one of the two. */
  lemma WidenRoom(keys: seq<Key>, kids: seq<Node>, lo: Option<Key>, hi: Option<Key>, i: nat, mid: Key, low: Node, high: Node, k: Key)
    requires |kids| == |keys| + 1 && Separates(keys, lo, hi) && i == Pick(keys, k)
    requires Separates(Widened(keys, i, mid), lo, hi)
    requires HasRoom(if k <= mid then low else high, k)
    ensures RoomAt(Widened(keys, i, mid), WidenedKids(kids, i, low, high), k)
  {
    PickIs(Widened(keys, i, mid), lo, hi, k, if k <= mid then i else i + 1);
  }

  // ---------------------------------------------------------------- a node becomes two

  function LowHalf(keys: seq<Key>, kids: seq<Node>, s: nat): Node
    requires 1 <= s <= |keys| && |kids| == |keys| + 1
  {
    Inner(keys[..s - 1], kids[..s], s - 1, false)
  }

  function HighHalf(keys: seq<Key>, kids: seq<Node>, s: nat): Node
    requires 1 <= s <= |keys| && |kids| == |keys| + 1
  {
    Inner(keys[s..], kids[s..], |keys| - s, false)
  }

  /**
    The children of a full node with one of them replaced by its halves, at most 16 in all, fit into
    two nodes of 15 children each, and the middle key separates them.
   */
  lemma HalveOk(keys: seq<Key>, kids: seq<Node>, h: nat, lo: Option<Key>, hi: Option<Key>, s: nat)
    requires ValidKids(keys, kids, h, lo, hi) && |kids| <= N + 2 && 1 <= s <= |keys|
    ensures Valid(LowHalf(keys, kids, s), h, lo, Some(keys[s - 1]))
    ensures Valid(HighHalf(keys, kids, s), h, Some(keys[s - 1]), hi)
    ensures Above(lo, keys[s - 1]) && (hi.Some? ==> keys[s - 1] < hi.value)
  {
    LowHalfOk(keys, kids, h, lo, hi, s);
    HighHalfOk(keys, kids, h, lo, hi, s);
  }

  lemma LowHalfOk(keys: seq<Key>, kids: seq<Node>, h: nat, lo: Option<Key>, hi: Option<Key>, s: nat)
    requires ValidKids(keys, kids, h, lo, hi) && |kids| <= N + 2 && 1 <= s <= |keys|
    ensures Valid(LowHalf(keys, kids, s), h, lo, Some(keys[s - 1]))
  {
    var w, c, mid := keys[..s - 1], kids[..s], Some(keys[s - 1]);
    forall j | 0 <= j < |c| ensures Valid(c[j], h - 1, LoAt(w, j, lo), HiAt(w, j, mid)) {
      assert LoAt(w, j, lo) == LoAt(keys, j, lo) && HiAt(w, j, mid) == HiAt(keys, j, hi) && c[j] == kids[j];
    }
    assert ValidKids(w, c, h, lo, mid);
  }

  lemma HighHalfOk(keys: seq<Key>, kids: seq<Node>, h: nat, lo: Option<Key>, hi: Option<Key>, s: nat)
    requires ValidKids(keys, kids, h, lo, hi) && |kids| <= N + 2 && 1 <= s <= |keys|
    ensures Valid(HighHalf(keys, kids, s), h, Some(keys[s - 1]), hi)
  {
    var w, c, mid := keys[s..], kids[s..], Some(keys[s - 1]);
    forall j | 0 <= j < |c| ensures Valid(c[j], h - 1, LoAt(w, j, mid), HiAt(w, j, hi)) {
      assert LoAt(w, j, mid) == LoAt(keys, j + s, lo) && HiAt(w, j, hi) == HiAt(keys, j + s, hi) && c[j] == kids[j + s];
    }
    assert ValidKids(w, c, h, mid, hi);
  }

  lemma HalveLeaves(keys: seq<Key>, kids: seq<Node>, s: nat)
    requires 1 <= s <= |keys| && |kids| == |keys| + 1
    ensures LeavesAll(kids) == Leaves(LowHalf(keys, kids, s)) + Leaves(HighHalf(keys, kids, s))
    ensures Lists(LeavesAll(kids)) == Flat(LowHalf(keys, kids, s)) + Flat(HighHalf(keys, kids, s))
  {
    assert kids == kids[..s] + kids[s..];
    LeavesAllSplit(kids[..s], kids[s..]);
    ListsSplit(LeavesAll(kids[..s]), LeavesAll(kids[s..]));
  }

  lemma HalveRoom(keys: seq<Key>, kids: seq<Node>, lo: Option<Key>, hi: Option<Key>, s: nat, k: Key)
    requires 1 <= s <= |keys| && |kids| == |keys| + 1 && Separates(keys, lo, hi) && RoomAt(keys, kids, k)
    ensures HasRoom(if k <= keys[s - 1] then LowHalf(keys, kids, s) else HighHalf(keys, kids, s), k)
  {
    var i := Pick(keys, k);
    if k <= keys[s - 1] {
      PickIs(keys[..s - 1], lo, Some(keys[s - 1]), k, i);
    } else {
      PickIs(keys[s..], Some(keys[s - 1]), hi, k, i - s);
    }
  }

  // ---------------------------------------------------------------- a leaf becomes two

  lemma LeafHalvesOk(n: Node, lo: Option<Key>, hi: Option<Key>, b: nat, low: Node, high: Node, k: Key)
    requires n.Leaf? && LeafOk(n, lo, hi) && 1 <= b < |n.list| && b < N
    requires low.Leaf? && low.list == n.list[..b] && low.used == b && !low.retired
    requires high.Leaf? && high.list == n.list[b..] && high.used == |n.list| - b && !high.retired
    ensures var mid := n.list[b - 1].key;
            && Valid(low, 0, lo, Some(mid)) && Valid(high, 0, Some(mid), hi)
            && Above(lo, mid) && (hi.Some? ==> mid < hi.value)
            && Flat(low) + Flat(high) == n.list
            && HasRoom(low, k) && HasRoom(high, k)
  {
    assert forall i :: 0 <= i < |high.list| ==> high.list[i] == n.list[b + i];
    assert n.list[b - 1].key < n.list[b].key && Within(n.list[b].key, lo, hi) && Within(n.list[b - 1].key, lo, hi);
    FlatLeaf(low);
    FlatLeaf(high);
    assert n.list == n.list[..b] + n.list[b..];
  }
}
