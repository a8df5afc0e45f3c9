/**
  Conditional removal from a node: a leaf that has lost its last entry is taken out of its node, and
  a node that has lost its last child is taken out of its parent.
 */
module TreeRemove {
  import opened Common
  import opened Entries
  import opened Tree
  import opened TreeLinks
  import opened TreeShelf
  import opened TreeInsert

  /** `Emptied`: the entry was the last of the node, and the node has retired. */
  datatype Removal = Kept | Taken(node: Node, v: Val) | Emptied(v: Val)

  ghost predicate RemovalOk(n: Node, h: nat, lo: Option<Key>, hi: Option<Key>, k: Key, condition: Val -> bool, r: Removal,
                            before: Links, links: Links, pre: seq<nat>, post: seq<nat>) {
    && LinksOk(links)
    && (r.Kept? ==> links == before && forall v :: Entry(k, v) in Flat(n) ==> !condition(v))
    && (r.Taken? ==>
          && Valid(r.node, h, lo, hi) && Inserts(Flat(r.node), Flat(n), Entry(k, r.v)) && condition(r.v)
          && Visible(links) == pre + Ids(r.node) + post)
    && (r.Emptied? ==> Flat(n) == [Entry(k, r.v)] && condition(r.v) && Visible(links) == pre + post)
  }

  // ---------------------------------------------------------------- a child is taken out

  function Dropped<T>(s: seq<T>, i: nat): seq<T>
    requires i < |s|
  {
    s[..i] + s[i + 1..]
  }

  /** The node without child `i`, which has a key; the array of children is worn with its last key gone. */
  function WithoutKid(n: Node, i: nat): Node
    requires n.Inner? && i < |n.keys| < |n.kids|
  {
    Inner(Dropped(n.keys, i), Dropped(n.kids, i), n.slots, n.worn || |n.keys| == 1)
  }

  /** The node without its last child: the child with the greatest key takes its place. */
  function WithoutLast(n: Node): Node
    requires n.Inner? && 0 < |n.keys| < |n.kids|
  {
    Inner(n.keys[..|n.keys| - 1], n.kids[..|n.keys|], n.slots, n.worn || |n.keys| == 1)
  }

  lemma WithoutKidSeparates(keys: seq<Key>, lo: Option<Key>, hi: Option<Key>, i: nat)
    requires Separates(keys, lo, hi) && i < |keys|
    ensures Separates(Dropped(keys, i), lo, hi)
  {
  }

  /** The child behind the one taken out now covers the keys of both. */
  lemma DroppedRange(keys: seq<Key>, lo: Option<Key>, hi: Option<Key>, i: nat, j: nat)
    requires i < |keys| && j < |keys|
    ensures var w := Dropped(keys, i);
            && (j < i ==> LoAt(w, j, lo) == LoAt(keys, j, lo) && HiAt(w, j, hi) == HiAt(keys, j, hi))
            && (j == i ==> LoAt(w, j, lo) == LoAt(keys, i, lo) && HiAt(w, j, hi) == HiAt(keys, i + 1, hi))
            && (j > i ==> LoAt(w, j, lo) == LoAt(keys, j + 1, lo) && HiAt(w, j, hi) == HiAt(keys, j + 1, hi))
  {
  }

  lemma {:induction false} ValidWider(n: Node, h: nat, lo: Option<Key>, hi: Option<Key>, lower: Option<Key>, upper: Option<Key>)
    requires Valid(n, h, lo, hi)
    requires lower.Some? ==> lo.Some? && lower.value <= lo.value
    requires upper.Some? ==> hi.Some? && hi.value <= upper.value
    ensures Valid(n, h, lower, upper)
    decreases h
  {
    if n.Inner? {
      var keys, kids := n.keys, n.kids;
      forall j | 0 <= j < |kids| ensures Valid(kids[j], h - 1, LoAt(keys, j, lower), HiAt(keys, j, upper)) {
        ValidWider(kids[j], h - 1, LoAt(keys, j, lo), HiAt(keys, j, hi), LoAt(keys, j, lower), HiAt(keys, j, upper));
      }
      assert ValidKids(keys, kids, h, lower, upper);
    }
  }

  lemma WithoutKidOk(n: Node, h: nat, lo: Option<Key>, hi: Option<Key>, i: nat)
    requires n.Inner? && h > 0 && |n.kids| == |n.keys| + 1 && i < |n.keys| && Valid(n, h, lo, hi)
    ensures Valid(WithoutKid(n, i), h, lo, hi)
  {
    var m := WithoutKid(n, i);
    WithoutKidSeparates(n.keys, lo, hi, i);
    forall j | 0 <= j < |m.kids| ensures Valid(m.kids[j], h - 1, LoAt(m.keys, j, lo), HiAt(m.keys, j, hi)) {
      DroppedRange(n.keys, lo, hi, i, j);
      assert m.kids[j] == n.kids[if j < i then j else j + 1];
      if j == i {
        ValidWider(n.kids[i + 1], h - 1, LoAt(n.keys, i + 1, lo), HiAt(n.keys, i + 1, hi), LoAt(n.keys, i, lo), HiAt(n.keys, i + 1, hi));
      }
    }
    forall j | 0 <= j < |m.keys| ensures h == 1 ==> m.kids[j].Leaf? && !m.kids[j].retired {
      assert m.kids[j] == n.kids[if j < i then j else j + 1];
    }
    assert ValidKids(m.keys, m.kids, h, lo, hi);
  }

  lemma WithoutLastOk(n: Node, h: nat, lo: Option<Key>, hi: Option<Key>)
    requires n.Inner? && h > 0 && 0 < |n.keys| < |n.kids| == |n.keys| + 1 && Valid(n, h, lo, hi)
    ensures Valid(WithoutLast(n), h, lo, hi)
  {
    var m := WithoutLast(n);
    var e := |m.keys|;
    forall j | 0 <= j < |m.kids| ensures Valid(m.kids[j], h - 1, LoAt(m.keys, j, lo), HiAt(m.keys, j, hi)) {
      assert LoAt(m.keys, j, lo) == LoAt(n.keys, j, lo);
      if j == e {
        ValidWider(n.kids[e], h - 1, LoAt(n.keys, e, lo), HiAt(n.keys, e, hi), LoAt(n.keys, e, lo), hi);
      } else {
        assert HiAt(m.keys, j, hi) == HiAt(n.keys, j, hi);
      }
    }
    assert ValidKids(m.keys, m.kids, h, lo, hi);
  }

  /** What is left without child `i`. */
  lemma WithoutLeaves(kids: seq<Node>, i: nat, e: Entry)
    requires i < |kids| && Flat(kids[i]) == [e]
    ensures LeavesAll(Dropped(kids, i)) == LeavesAll(kids[..i]) + LeavesAll(kids[i + 1..])
    ensures Inserts(Lists(LeavesAll(Dropped(kids, i))), Lists(LeavesAll(kids)), e)
  {
    var a, c := LeavesAll(kids[..i]), LeavesAll(kids[i + 1..]);
    LeavesAllSplit(kids[..i], kids[i + 1..]);
    ListsSplit(a, c);
    AroundKid(kids, i);
    var l := Lists(a) + Lists(c);
    assert l[..|Lists(a)|] == Lists(a) && l[|Lists(a)|..] == Lists(c);
  }

  lemma WithoutShows(kids: seq<Node>, i: nat, pre: seq<nat>, post: seq<nat>)
    requires i < |kids|
    ensures pre + IdsOf(LeavesAll(Dropped(kids, i))) + post == Before(kids, i, pre) + After(kids, i, post)
  {
    LeavesAllSplit(kids[..i], kids[i + 1..]);
    IdsSplit(LeavesAll(kids[..i]), LeavesAll(kids[i + 1..]));
  }

  // ---------------------------------------------------------------- effects

  /** An entry taken out of a child is taken out of the node. */
  lemma KidTakes(n: Node, h: nat, lo: Option<Key>, hi: Option<Key>, i: nat, c: Node, e: Entry)
    requires h > 0 && n.Inner? && i < |n.kids| == |n.keys| + 1 && Valid(n, h, lo, hi)
    requires Valid(c, h - 1, LoAt(n.keys, i, lo), HiAt(n.keys, i, hi)) && Inserts(Flat(c), Flat(n.kids[i]), e)
    requires h == 1 && i < |n.keys| ==> !c.retired
    ensures var m := n.(kids := n.kids[i := c]); Valid(m, h, lo, hi) && Inserts(Flat(m), Flat(n), e)
  {
    ReplaceKid(n.keys, n.kids, h, lo, hi, i, c);
    AroundKid(n.kids, i);
    InsertsInside(Lists(LeavesAll(n.kids[..i])), Flat(c), Flat(n.kids[i]), Lists(LeavesAll(n.kids[i + 1..])), e);
  }

  lemma KidKeeps(n: Node, h: nat, lo: Option<Key>, hi: Option<Key>, k: Key, condition: Val -> bool)
    requires h > 0 && n.Inner? && |n.kids| == |n.keys| + 1 && Valid(n, h, lo, hi)
    requires forall v :: Entry(k, v) in Flat(n.kids[Pick(n.keys, k)]) ==> !condition(v)
    ensures forall v :: Entry(k, v) in Flat(n) ==> !condition(v)
  {
    KeyInPicked(n.keys, n.kids, h, lo, hi, k);
  }

  /** The child with a key that has been emptied is taken out. */
  lemma KidEmptied(n: Node, h: nat, lo: Option<Key>, hi: Option<Key>, i: nat, e: Entry)
    requires h > 0 && n.Inner? && i < |n.keys| < |n.kids| == |n.keys| + 1 && Valid(n, h, lo, hi) && Flat(n.kids[i]) == [e]
    ensures Valid(WithoutKid(n, i), h, lo, hi) && Inserts(Flat(WithoutKid(n, i)), Flat(n), e)
  {
    WithoutKidOk(n, h, lo, hi, i);
    WithoutLeaves(n.kids, i, e);
  }

  lemma LastEmptied(n: Node, h: nat, lo: Option<Key>, hi: Option<Key>, e: Entry)
    requires h > 0 && n.Inner? && 0 < |n.keys| < |n.kids| == |n.keys| + 1 && Valid(n, h, lo, hi)
    requires Flat(n.kids[|n.keys|]) == [e]
    ensures Valid(WithoutLast(n), h, lo, hi) && Inserts(Flat(WithoutLast(n)), Flat(n), e)
    ensures WithoutLast(n).kids == Dropped(n.kids, |n.keys|)
  {
    WithoutLastOk(n, h, lo, hi);
    WithoutLeaves(n.kids, |n.keys|, e);
    assert WithoutLast(n).kids == Dropped(n.kids, |n.keys|);
  }

  lemma OnlyKid(n: Node)
    requires n.Inner? && |n.kids| == 1
    ensures Flat(n) == Flat(n.kids[0]) && Ids(n) == Ids(n.kids[0])
  {
    assert n.kids[1..] == [] && LeavesAll([]) == [];
    assert LeavesAll(n.kids) == Leaves(n.kids[0]) + LeavesAll(n.kids[1..]);
    assert Leaves(n) == Leaves(n.kids[0]);
  }

  // ---------------------------------------------------------------- leaves

  /** A leaf without the entry; with the last entry gone it has retired. */
  function LeafWithout(leaf: Node, k: Key): Node
    requires leaf.Leaf?
  {
    var list := WithoutKey(leaf.list, k);
    leaf.(list := list, retired := leaf.retired || list == [])
  }

  lemma LeafTakes(leaf: Node, lo: Option<Key>, hi: Option<Key>, e: Entry)
    requires leaf.Leaf? && LeafOk(leaf, lo, hi) && e in leaf.list
    ensures var c := LeafWithout(leaf, e.key);
            && Valid(c, 0, lo, hi) && Inserts(Flat(c), Flat(leaf), e) && Ids(c) == Ids(leaf)
            && (c.retired <==> c.list == []) && (c.list == [] ==> leaf.list == [e])
  {
    var c := LeafWithout(leaf, e.key);
    WithoutKeyOk(leaf.list, e, lo, hi);
    FlatLeaf(leaf);
    FlatLeaf(c);
    FewerEntries(c.list, leaf.list, e);
    if c.list == [] { OneEntry(c.list, leaf.list, e); }
  }

  lemma FewerEntries(a: seq<Entry>, b: seq<Entry>, e: Entry)
    requires Inserts(a, b, e)
    ensures |b| == |a| + 1
  {
  }

  lemma OneEntry(a: seq<Entry>, b: seq<Entry>, e: Entry)
    requires a == [] && Inserts(a, b, e)
    ensures b == [e]
  {
  }

  lemma OnlyValue(list: seq<Entry>, k: Key, v: Val)
    requires Increasing(list) && Entry(k, v) in list
    ensures forall w :: Entry(k, w) in list ==> w == v
  {
  }

  lemma NoEntry(list: seq<Entry>, k: Key)
    requires !HasKey(list, k)
    ensures forall v :: Entry(k, v) !in list
  {
  }

  lemma LeafKeeps(leaf: Node, lo: Option<Key>, hi: Option<Key>, k: Key, condition: Val -> bool)
    requires leaf.Leaf? && LeafOk(leaf, lo, hi)
    requires var found := FindIn(leaf.list, k); found.None? || !condition(found.value)
    ensures forall v :: Entry(k, v) in Flat(leaf) ==> !condition(v)
  {
    FlatLeaf(leaf);
    var found := FindIn(leaf.list, k);
    if found.Some? { OnlyValue(leaf.list, k, found.value); } else { NoEntry(leaf.list, k); }
  }

  method RemoveFromLeafNode(n: Node, k: Key, condition: Val -> bool, before: Links,
                            ghost lo: Option<Key>, ghost hi: Option<Key>, ghost pre: seq<nat>, ghost post: seq<nat>)
    returns (r: Removal, links: Links)
    requires n.Inner? && Valid(n, 1, lo, hi) && |n.kids| == |n.keys| + 1
    requires LinksOk(before) && Visible(before) == pre + Ids(n) + post
    ensures RemovalOk(n, 1, lo, hi, k, condition, r, before, links, pre, post)
  {
    links := before;
    var i := Pick(n.keys, k);
    var leaf := n.kids[i];
    assert Valid(leaf, 0, LoAt(n.keys, i, lo), HiAt(n.keys, i, hi));
    var found := FindIn(leaf.list, k);
    if found.None? || !condition(found.value) {
      LeafKeeps(leaf, LoAt(n.keys, i, lo), HiAt(n.keys, i, hi), k, condition);
      KidKeeps(n, 1, lo, hi, k, condition);
      r := Kept;
    } else {
      r, links := TakeFromLeaf(n, i, Entry(k, found.value), before, lo, hi, pre, post);
    }
  }

  /** What taking entry `e` out of a node leaves behind. */
  ghost predicate TakenOk(n: Node, h: nat, lo: Option<Key>, hi: Option<Key>, e: Entry, r: Removal, links: Links,
                          pre: seq<nat>, post: seq<nat>) {
    && LinksOk(links) && !r.Kept? && r.v == e.val
    && (r.Taken? ==>
          && Valid(r.node, h, lo, hi) && Inserts(Flat(r.node), Flat(n), e)
          && Visible(links) == pre + Ids(r.node) + post)
    && (r.Emptied? ==> Flat(n) == [e] && Visible(links) == pre + post)
  }

  method TakeFromLeaf(n: Node, i: nat, e: Entry, before: Links,
                      ghost lo: Option<Key>, ghost hi: Option<Key>, ghost pre: seq<nat>, ghost post: seq<nat>)
    returns (r: Removal, links: Links)
    requires n.Inner? && Valid(n, 1, lo, hi) && |n.kids| == |n.keys| + 1 && i < |n.kids|
    requires n.kids[i].Leaf? && e in n.kids[i].list
    requires LinksOk(before) && Visible(before) == pre + Ids(n) + post
    ensures TakenOk(n, 1, lo, hi, e, r, links, pre, post)
  {
    var leaf := n.kids[i];
    assert Valid(leaf, 0, LoAt(n.keys, i, lo), HiAt(n.keys, i, hi));
    var c := LeafWithout(leaf, e.key);
    LeafTakes(leaf, LoAt(n.keys, i, lo), HiAt(n.keys, i, hi), e);
    if c.retired && i < |n.keys| {
      r, links := CoalesceLeaf(n, i, e, before, lo, hi, pre, post);
    } else if c.retired && n.keys == [] {
      LastLeafGoes(n, e, before, lo, hi, pre, post);
      r, links := Emptied(e.val), Delete(before, leaf.id);
    } else {
      LeafStays(n, i, c, e, before, lo, hi, pre, post);
      r, links := Taken(n.(kids := n.kids[i := c]), e.val), before;
    }
  }

  lemma LastLeafGoes(n: Node, e: Entry, before: Links,
                     lo: Option<Key>, hi: Option<Key>, pre: seq<nat>, post: seq<nat>)
    requires n.Inner? && n.keys == [] && |n.kids| == 1 && n.kids[0].Leaf? && n.kids[0].list == [e]
    requires LinksOk(before) && Visible(before) == pre + Ids(n) + post
    ensures TakenOk(n, 1, lo, hi, e, Emptied(e.val), Delete(before, n.kids[0].id), pre, post)
  {
    OnlyKid(n);
    FlatLeaf(n.kids[0]);
    assert Ids(n) == [n.kids[0].id];
    DeleteShows(before, pre, n.kids[0].id, post);
  }

  lemma LeafStays(n: Node, i: nat, c: Node, e: Entry, before: Links,
                  lo: Option<Key>, hi: Option<Key>, pre: seq<nat>, post: seq<nat>)
    requires n.Inner? && i < |n.kids| == |n.keys| + 1 && Valid(n, 1, lo, hi)
    requires Valid(c, 0, LoAt(n.keys, i, lo), HiAt(n.keys, i, hi)) && Inserts(Flat(c), Flat(n.kids[i]), e)
    requires Ids(c) == Ids(n.kids[i]) && (i < |n.keys| ==> !c.retired)
    requires LinksOk(before) && Visible(before) == pre + Ids(n) + post
    ensures TakenOk(n, 1, lo, hi, e, Taken(n.(kids := n.kids[i := c]), e.val), before, pre, post)
  {
    KidTakes(n, 1, lo, hi, i, c, e);
    KidVisible(n.kids, i, pre, post);
    KidShows(n, i, c, pre, post);
  }

  /** A leaf with a key is taken out; if no such leaf remains, a retired last leaf goes with it. */
  method CoalesceLeaf(n: Node, i: nat, e: Entry, before: Links,
                      ghost lo: Option<Key>, ghost hi: Option<Key>, ghost pre: seq<nat>, ghost post: seq<nat>)
    returns (r: Removal, links: Links)
    requires n.Inner? && i < |n.keys| && |n.kids| == |n.keys| + 1 && Valid(n, 1, lo, hi)
    requires n.kids[i].Leaf? && n.kids[i].list == [e]
    requires LinksOk(before) && Visible(before) == pre + Ids(n) + post
    ensures TakenOk(n, 1, lo, hi, e, r, links, pre, post)
  {
    var m := WithoutKid(n, i);
    DropLeafOk(n, i, e, before, lo, hi, pre, post);
    r, links := Taken(m, e.val), Delete(before, n.kids[i].id);
    if m.keys == [] {
      var last := m.kids[0];
      assert Valid(last, 0, LoAt(m.keys, 0, lo), HiAt(m.keys, 0, hi));
      if last.retired {
        LastRetired(n, m, e, links, pre, post);
        r, links := Emptied(e.val), Delete(links, last.id);
      }
    }
  }

  lemma DropLeafOk(n: Node, i: nat, e: Entry, before: Links, lo: Option<Key>, hi: Option<Key>, pre: seq<nat>, post: seq<nat>)
    requires n.Inner? && i < |n.keys| && |n.kids| == |n.keys| + 1 && Valid(n, 1, lo, hi)
    requires n.kids[i].Leaf? && n.kids[i].list == [e]
    requires LinksOk(before) && Visible(before) == pre + Ids(n) + post
    ensures var m, links := WithoutKid(n, i), Delete(before, n.kids[i].id);
            && Valid(m, 1, lo, hi) && Inserts(Flat(m), Flat(n), e)
            && LinksOk(links) && Visible(links) == pre + Ids(m) + post
  {
    var leaf := n.kids[i];
    FlatLeaf(leaf);
    KidEmptied(n, 1, lo, hi, i, e);
    KidVisible(n.kids, i, pre, post);
    DeleteShows(before, Before(n.kids, i, pre), leaf.id, After(n.kids, i, post));
    WithoutShows(n.kids, i, pre, post);
  }

  lemma LastRetired(n: Node, m: Node, e: Entry, links: Links, pre: seq<nat>, post: seq<nat>)
    requires m.Inner? && |m.kids| == 1 && m.kids[0].Leaf? && m.kids[0].list == [] && Inserts(Flat(m), Flat(n), e)
    requires LinksOk(links) && Visible(links) == pre + Ids(m) + post
    ensures Flat(n) == [e]
    ensures LinksOk(Delete(links, m.kids[0].id)) && Visible(Delete(links, m.kids[0].id)) == pre + post
  {
    OnlyKid(m);
    FlatLeaf(m.kids[0]);
    OneEntry(Flat(m), Flat(n), e);
    DeleteShows(links, pre, m.kids[0].id, post);
  }

  // ---------------------------------------------------------------- nodes

  method RemoveFromNode(n: Node, ghost h: nat, k: Key, condition: Val -> bool, before: Links,
                        ghost lo: Option<Key>, ghost hi: Option<Key>, ghost pre: seq<nat>, ghost post: seq<nat>)
    returns (r: Removal, links: Links)
    requires n.Inner? && Valid(n, h, lo, hi)
    requires LinksOk(before) && Visible(before) == pre + Ids(n) + post
    ensures RemovalOk(n, h, lo, hi, k, condition, r, before, links, pre, post)
    decreases h
  {
    LeafNodesAreLow(n, h, lo, hi);
    if IsLeafNode(n) {
      r, links := RemoveFromLeafNode(n, k, condition, before, lo, hi, pre, post);
      return;
    }
    var i := Pick(n.keys, k);
    ghost var l, u := LoAt(n.keys, i, lo), HiAt(n.keys, i, hi);
    assert Valid(n.kids[i], h - 1, l, u);
    KidVisible(n.kids, i, pre, post);
    r, links := RemoveFromNode(n.kids[i], h - 1, k, condition, before, l, u, Before(n.kids, i, pre), After(n.kids, i, post));
    match r {
      case Kept =>
        KidKeeps(n, h, lo, hi, k, condition);
      case Taken(c, v) =>
        KidTakes(n, h, lo, hi, i, c, Entry(k, v));
        KidShows(n, i, c, pre, post);
        r := Taken(n.(kids := n.kids[i := c]), v);
      case Emptied(v) =>
        r := Coalesce(n, h, i, Entry(k, v), links, lo, hi, pre, post);
    }
  }

  /** A child node that has retired is taken out. */
  method Coalesce(n: Node, ghost h: nat, i: nat, e: Entry, links: Links,
                  ghost lo: Option<Key>, ghost hi: Option<Key>, ghost pre: seq<nat>, ghost post: seq<nat>)
    returns (r: Removal)
    requires h > 0 && n.Inner? && Valid(n, h, lo, hi) && i < |n.kids| == |n.keys| + 1 && Flat(n.kids[i]) == [e]
    requires LinksOk(links) && Visible(links) == Before(n.kids, i, pre) + After(n.kids, i, post)
    ensures TakenOk(n, h, lo, hi, e, r, links, pre, post)
  {
    WithoutShows(n.kids, i, pre, post);
    if i < |n.keys| {
      KidEmptied(n, h, lo, hi, i, e);
      r := Taken(WithoutKid(n, i), e.val);
    } else if n.keys != [] {
      LastEmptied(n, h, lo, hi, e);
      r := Taken(WithoutLast(n), e.val);
    } else {
      OnlyKid(n);
      NothingAround(n.kids, pre, post);
      r := Emptied(e.val);
    }
  }

  lemma NothingAround(kids: seq<Node>, pre: seq<nat>, post: seq<nat>)
    requires |kids| == 1
    ensures Before(kids, 0, pre) == pre && After(kids, 0, post) == post
  {
    assert kids[..0] == [] && kids[1..] == [] && LeavesAll([]) == [];
  }
}
