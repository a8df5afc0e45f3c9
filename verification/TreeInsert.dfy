/**
  Insertion into a node: full leaves and full nodes are split on the way, and what a node cannot take
  is handed to its parent.

  How many children or entries go to the lower half is up to `optimal_boundary`, which looks at the
  order in which the slots were filled. Here it is any number from 1 to 13.
 */
module TreeInsert {
  import opened Common
  import opened Entries
  import opened Tree
  import opened TreeLinks
  import opened TreeShelf

  /**
    `Full`: child `at` has to be replaced by `low` and `high` with key `mid` between them, but the
    node has no slot left; `origin` is the leaf to be deleted once this has been done.
   */
  datatype Outcome =
    | Stored(node: Node)
    | Present
    | Full(at: nat, mid: Key, low: Node, high: Node, origin: nat)

  function NewLeaf(id: nat, list: seq<Entry>): Node { Leaf(id, list, |list|, false) }

  // ---------------------------------------------------------------- the leaves around a child

  lemma IdsSplit(a: seq<Node>, b: seq<Node>)
    ensures IdsOf(a + b) == IdsOf(a) + IdsOf(b)
  {
  }

  lemma IdsAround(a: seq<Node>, b: seq<Node>, c: seq<Node>)
    ensures IdsOf(a + b + c) == IdsOf(a) + IdsOf(b) + IdsOf(c)
  {
    IdsSplit(a + b, c);
    IdsSplit(a, b);
  }

  /** What is visible before the leaves of child `i`, and after them. */
  ghost function Before(kids: seq<Node>, i: nat, pre: seq<nat>): seq<nat>
    requires i < |kids|
  {
    pre + IdsOf(LeavesAll(kids[..i]))
  }

  ghost function After(kids: seq<Node>, i: nat, post: seq<nat>): seq<nat>
    requires i < |kids|
  {
    IdsOf(LeavesAll(kids[i + 1..])) + post
  }

  lemma KidVisible(kids: seq<Node>, i: nat, pre: seq<nat>, post: seq<nat>)
    requires i < |kids|
    ensures pre + IdsOf(LeavesAll(kids)) + post == Before(kids, i, pre) + Ids(kids[i]) + After(kids, i, post)
  {
    AroundKid(kids, i);
    IdsAround(LeavesAll(kids[..i]), Leaves(kids[i]), LeavesAll(kids[i + 1..]));
    Nested(pre, IdsOf(LeavesAll(kids[..i])), Ids(kids[i]), IdsOf(LeavesAll(kids[i + 1..])), post);
  }

  lemma Nested(pre: seq<nat>, a: seq<nat>, b: seq<nat>, c: seq<nat>, post: seq<nat>)
    ensures pre + (a + b + c) + post == (pre + a) + b + (c + post)
  {
  }

  /** The same with other leaves in the place of child `i`. */
  lemma KidReplaced(kids: seq<Node>, i: nat, leaves: seq<Node>, pre: seq<nat>, post: seq<nat>)
    requires i < |kids|
    ensures pre + IdsOf(LeavesAll(kids[..i]) + leaves + LeavesAll(kids[i + 1..])) + post
            == Before(kids, i, pre) + IdsOf(leaves) + After(kids, i, post)
  {
    IdsAround(LeavesAll(kids[..i]), leaves, LeavesAll(kids[i + 1..]));
    Nested(pre, IdsOf(LeavesAll(kids[..i])), IdsOf(leaves), IdsOf(LeavesAll(kids[i + 1..])), post);
  }

  // ---------------------------------------------------------------- what is handed to the parent

  /** The node with child `at` replaced by its halves is in order, with the same entries and room for `k`. */
  ghost predicate FullOk(n: Node, h: nat, lo: Option<Key>, hi: Option<Key>, k: Key, r: Outcome) {
    && n.Inner? && r.Full? && r.at < |n.kids| == |n.keys| + 1
    && var w, c := Widened(n.keys, r.at, r.mid), WidenedKids(n.kids, r.at, r.low, r.high);
      && ValidKids(w, c, h, lo, hi) && Lists(LeavesAll(c)) == Flat(n) && RoomAt(w, c, k)
  }

  /** Once the origin is deleted, the chain shows the leaves of the node with the halves. */
  ghost predicate FullShows(n: Node, links: Links, r: Outcome, pre: seq<nat>, post: seq<nat>)
    requires n.Inner? && r.Full? && r.at < |n.kids|
  {
    && LinksOk(Delete(links, r.origin))
    && Visible(Delete(links, r.origin)) == pre + IdsOf(LeavesAll(WidenedKids(n.kids, r.at, r.low, r.high))) + post
  }

  /** Child `i` is to be replaced by two that hold the same entries. */
  lemma HalvesMakeFull(n: Node, h: nat, lo: Option<Key>, hi: Option<Key>, k: Key, r: Outcome)
    requires h > 0 && n.Inner? && r.Full? && r.at == Pick(n.keys, k) && |n.kids| == |n.keys| + 1
    requires Valid(n, h, lo, hi) && Halves(n.keys, h, lo, hi, r.at, r.mid, r.low, r.high)
    requires Flat(r.low) + Flat(r.high) == Flat(n.kids[r.at])
    requires HasRoom(if k <= r.mid then r.low else r.high, k)
    ensures FullOk(n, h, lo, hi, k, r)
  {
    WidenOk(n.keys, n.kids, h, lo, hi, r.at, r.mid, r.low, r.high);
    WidenLeaves(n.kids, r.at, r.low, r.high);
    AroundKid(n.kids, r.at);
    WidenRoom(n.keys, n.kids, lo, hi, r.at, r.mid, r.low, r.high, k);
  }

  lemma HalvesShow(n: Node, i: nat, low: Node, high: Node, pre: seq<nat>, post: seq<nat>, visible: seq<nat>)
    requires n.Inner? && i < |n.kids|
    requires visible == Before(n.kids, i, pre) + IdsOf(Leaves(low) + Leaves(high)) + After(n.kids, i, post)
    ensures visible == pre + IdsOf(LeavesAll(WidenedKids(n.kids, i, low, high))) + post
  {
    WidenLeaves(n.kids, i, low, high);
    KidReplaced(n.kids, i, Leaves(low) + Leaves(high), pre, post);
  }

  // ---------------------------------------------------------------- a full or retired leaf

  /** A leaf with few live entries is replaced by one that has only these. */
  lemma CompactOk(n: Node, lo: Option<Key>, hi: Option<Key>, k: Key, i: nat, c: Node)
    requires Valid(n, 1, lo, hi) && n.Inner? && i == Pick(n.keys, k)
    requires |n.kids[i].list| < N && c.Leaf? && c == NewLeaf(c.id, n.kids[i].list)
    ensures var m := n.(kids := n.kids[i := c]);
            Valid(m, 1, lo, hi) && Flat(m) == Flat(n) && HasRoom(m, k)
  {
    ReplaceKid(n.keys, n.kids, 1, lo, hi, i, c);
    FlatLeaf(c);
    FlatLeaf(n.kids[i]);
    AroundKid(n.kids, i);
  }

  lemma CompactShows(n: Node, i: nat, links: Links, c: Node, pre: seq<nat>, post: seq<nat>)
    requires n.Inner? && i < |n.kids| && n.kids[i].Leaf? && c.Leaf? && c.id == links.next
    requires LinksOk(links) && Visible(links) == pre + Ids(n) + post
    ensures var after := Delete(PushBack(links, n.kids[i].id), n.kids[i].id);
            LinksOk(after) && Visible(after) == pre + Ids(n.(kids := n.kids[i := c])) + post
  {
    var a, b, id := Before(n.kids, i, pre), After(n.kids, i, post), n.kids[i].id;
    KidVisible(n.kids, i, pre, post);
    assert Ids(n.kids[i]) == [id] && Ids(c) == [c.id];
    PushBackShows(links, a, id, b);
    assert a + [id, c.id] + b == a + [id] + ([c.id] + b);
    DeleteShows(PushBack(links, id), a, id, [c.id] + b);
    assert a + ([c.id] + b) == a + [c.id] + b;
    var kids := n.kids[i := c];
    assert kids[..i] == n.kids[..i] && kids[i + 1..] == n.kids[i + 1..];
    KidVisible(kids, i, pre, post);
  }

  /** The upper half is linked behind the leaf first, then the lower half in front of it. */
  lemma SplitShows(n: Node, i: nat, links: Links, low: Node, high: Node, pre: seq<nat>, post: seq<nat>)
    requires n.Inner? && i < |n.kids| && n.kids[i].Leaf? && low.Leaf? && high.Leaf?
    requires high.id == links.next && low.id == links.next + 1
    requires LinksOk(links) && Visible(links) == pre + Ids(n) + post
    ensures var id := n.kids[i].id; var after := Delete(PushBack(PushBack(links, id), id), id);
            && LinksOk(PushBack(PushBack(links, id), id)) && LinksOk(after)
            && Visible(after) == pre + IdsOf(LeavesAll(WidenedKids(n.kids, i, low, high))) + post
  {
    var a, b, id := Before(n.kids, i, pre), After(n.kids, i, post), n.kids[i].id;
    KidVisible(n.kids, i, pre, post);
    assert Ids(n.kids[i]) == [id];
    PushBackShows(links, a, id, b);
    var one := PushBack(links, id);
    assert a + [id, high.id] + b == a + [id] + ([high.id] + b);
    PushBackShows(one, a, id, [high.id] + b);
    assert a + [id, low.id] + ([high.id] + b) == a + [id] + ([low.id, high.id] + b);
    DeleteShows(PushBack(one, id), a, id, [low.id, high.id] + b);
    assert a + ([low.id, high.id] + b) == a + [low.id, high.id] + b;
    assert IdsOf(Leaves(low) + Leaves(high)) == [low.id, high.id];
    HalvesShow(n, i, low, high, pre, post, Visible(Delete(PushBack(one, id), id)));
  }

  lemma SplitLeafOk(n: Node, lo: Option<Key>, hi: Option<Key>, k: Key, i: nat, b: nat, r: Outcome)
    requires Valid(n, 1, lo, hi) && n.Inner? && i == Pick(n.keys, k) && r.Full? && r.at == i
    requires var leaf := n.kids[i];
             && 1 <= b < |leaf.list| && b < N && r.mid == leaf.list[b - 1].key
             && r.low.Leaf? && r.low == NewLeaf(r.low.id, leaf.list[..b])
             && r.high.Leaf? && r.high == NewLeaf(r.high.id, leaf.list[b..])
    ensures FullOk(n, 1, lo, hi, k, r)
  {
    LeafHalvesOk(n.kids[i], LoAt(n.keys, i, lo), HiAt(n.keys, i, hi), b, r.low, r.high, k);
    FlatLeaf(n.kids[i]);
    HalvesMakeFull(n, 1, lo, hi, k, r);
  }

  // ---------------------------------------------------------------- a full child node

  lemma SplitNodeOk(n: Node, h: nat, lo: Option<Key>, hi: Option<Key>, k: Key, inner: Outcome,
                    keys: seq<Key>, kids: seq<Node>, s: nat, r: Outcome)
    requires h > 1 && n.Inner? && r.Full? && r.at == Pick(n.keys, k) && |n.kids| == |n.keys| + 1
    requires Valid(n, h, lo, hi)
    requires FullOk(n.kids[r.at], h - 1, LoAt(n.keys, r.at, lo), HiAt(n.keys, r.at, hi), k, inner)
    requires n.kids[r.at].Inner? && inner.at <= |n.kids[r.at].keys|
    requires keys == Widened(n.kids[r.at].keys, inner.at, inner.mid)
    requires kids == WidenedKids(n.kids[r.at].kids, inner.at, inner.low, inner.high)
    requires 1 <= s <= |keys| && |kids| == |keys| + 1 && r.mid == keys[s - 1]
    requires r.low == LowHalf(keys, kids, s) && r.high == HighHalf(keys, kids, s)
    ensures FullOk(n, h, lo, hi, k, r)
  {
    var l, u := LoAt(n.keys, r.at, lo), HiAt(n.keys, r.at, hi);
    assert Valid(n.kids[r.at], h - 1, l, u);
    HalveKids(keys, kids, h - 1, l, u, s, k);
    HalvesMakeFull(n, h, lo, hi, k, r);
  }

  lemma HalveKids(keys: seq<Key>, kids: seq<Node>, h: nat, lo: Option<Key>, hi: Option<Key>, s: nat, k: Key)
    requires ValidKids(keys, kids, h, lo, hi) && |kids| <= N + 2 && RoomAt(keys, kids, k)
    requires 1 <= s <= |keys| && |kids| == |keys| + 1
    ensures var low, high, mid := LowHalf(keys, kids, s), HighHalf(keys, kids, s), keys[s - 1];
            && Valid(low, h, lo, Some(mid)) && Valid(high, h, Some(mid), hi)
            && Above(lo, mid) && (hi.Some? ==> mid < hi.value)
            && Flat(low) + Flat(high) == Lists(LeavesAll(kids))
            && HasRoom(if k <= mid then low else high, k)
  {
    HalveOk(keys, kids, h, lo, hi, s);
    HalveLeaves(keys, kids, s);
    HalveRoom(keys, kids, lo, hi, s, k);
  }

  lemma SplitNodeShows(n: Node, i: nat, links: Links, inner: Outcome, s: nat, low: Node, high: Node, pre: seq<nat>, post: seq<nat>)
    requires n.Inner? && i < |n.kids| && n.kids[i].Inner? && inner.Full? && |n.kids[i].kids| == |n.kids[i].keys| + 1
    requires inner.at < |n.kids[i].kids|
    requires FullShows(n.kids[i], links, inner, Before(n.kids, i, pre), After(n.kids, i, post))
    requires var c := n.kids[i];
             var keys, kids := Widened(c.keys, inner.at, inner.mid), WidenedKids(c.kids, inner.at, inner.low, inner.high);
             && 1 <= s <= |keys| && low == LowHalf(keys, kids, s) && high == HighHalf(keys, kids, s)
    ensures Visible(Delete(links, inner.origin)) == pre + IdsOf(LeavesAll(WidenedKids(n.kids, i, low, high))) + post
  {
    var c := n.kids[i];
    var keys, kids := Widened(c.keys, inner.at, inner.mid), WidenedKids(c.kids, inner.at, inner.low, inner.high);
    HalveLeaves(keys, kids, s);
    HalvesShow(n, i, low, high, pre, post, Visible(Delete(links, inner.origin)));
  }

  // ---------------------------------------------------------------- storing in a child

  lemma LeafStores(leaf: Node, lo: Option<Key>, hi: Option<Key>, e: Entry)
    requires leaf.Leaf? && LeafOk(leaf, lo, hi) && !leaf.retired && leaf.used < N
    requires Within(e.key, lo, hi) && !HasKey(leaf.list, e.key)
    ensures var c := leaf.(list := WithEntry(leaf.list, e), used := leaf.used + 1);
            Valid(c, 0, lo, hi) && Inserts(Flat(leaf), Flat(c), e) && Ids(c) == Ids(leaf)
  {
    WithEntryOk(leaf.list, e, lo, hi);
    FlatLeaf(leaf);
    FlatLeaf(leaf.(list := WithEntry(leaf.list, e), used := leaf.used + 1));
  }

  /** An entry stored in a child is stored in the node. */
  lemma KidStores(n: Node, h: nat, lo: Option<Key>, hi: Option<Key>, i: nat, c: Node, e: Entry)
    requires h > 0 && n.Inner? && i < |n.kids| == |n.keys| + 1 && Valid(n, h, lo, hi)
    requires Valid(c, h - 1, LoAt(n.keys, i, lo), HiAt(n.keys, i, hi)) && Inserts(Flat(n.kids[i]), Flat(c), e)
    requires h == 1 && i < |n.keys| ==> !c.retired
    ensures var m := n.(kids := n.kids[i := c]); Valid(m, h, lo, hi) && Inserts(Flat(n), Flat(m), e)
  {
    ReplaceKid(n.keys, n.kids, h, lo, hi, i, c);
    AroundKid(n.kids, i);
    InsertsInside(Lists(LeavesAll(n.kids[..i])), Flat(n.kids[i]), Flat(c), Lists(LeavesAll(n.kids[i + 1..])), e);
  }

  lemma KidShows(n: Node, i: nat, c: Node, pre: seq<nat>, post: seq<nat>)
    requires n.Inner? && i < |n.kids|
    ensures pre + Ids(n.(kids := n.kids[i := c])) + post == Before(n.kids, i, pre) + Ids(c) + After(n.kids, i, post)
  {
    var kids := n.kids[i := c];
    assert kids[..i] == n.kids[..i] && kids[i + 1..] == n.kids[i + 1..];
    KidVisible(kids, i, pre, post);
  }

  // ---------------------------------------------------------------- the array of children

  /** The halves are put in the place of child `at`. */
  function Adopted(n: Node, r: Outcome): Node
    requires n.Inner? && r.Full? && r.at < |n.kids| && r.at <= |n.keys|
  {
    Inner(Widened(n.keys, r.at, r.mid), WidenedKids(n.kids, r.at, r.low, r.high), n.slots + 1, false)
  }

  lemma AdoptedOk(n: Node, h: nat, lo: Option<Key>, hi: Option<Key>, k: Key, r: Outcome)
    requires Valid(n, h, lo, hi) && FullOk(n, h, lo, hi, k, r) && n.slots < N
    ensures var m := Adopted(n, r); Valid(m, h, lo, hi) && Flat(m) == Flat(n) && HasRoom(m, k)
  {
  }

  // ---------------------------------------------------------------- insertion

  /** What an insertion leaves behind. */
  ghost predicate InsertionOk(n: Node, h: nat, lo: Option<Key>, hi: Option<Key>, e: Entry, r: Outcome,
                          before: Links, links: Links, pre: seq<nat>, post: seq<nat>) {
    && LinksOk(links)
    && (r.Present? <==> HasKey(Flat(n), e.key))
    && (r.Present? ==> links == before)
    && (r.Stored? ==>
          && Valid(r.node, h, lo, hi) && Inserts(Flat(n), Flat(r.node), e)
          && Visible(links) == pre + Ids(r.node) + post)
    && (r.Full? ==> FullOk(n, h, lo, hi, e.key, r) && FullShows(n, links, r, pre, post))
    && (HasRoom(n, e.key) ==> !r.Full?)
  }

  /** What is known while an insertion into `origin` goes on with node `n`. */
  ghost predicate Ongoing(origin: Node, n: Node, h: nat, lo: Option<Key>, hi: Option<Key>, k: Key,
                          before: Links, links: Links, pre: seq<nat>, post: seq<nat>) {
    && Valid(n, h, lo, hi) && n.Inner? && Flat(n) == Flat(origin)
    && LinksOk(links) && Visible(links) == pre + Ids(n) + post
    && (HasRoom(n, k) || n == origin)
    && (n != origin ==> !HasKey(Flat(origin), k))
    && (n == origin ==> links == before)
  }

  lemma StoredEnds(origin: Node, n: Node, h: nat, lo: Option<Key>, hi: Option<Key>, e: Entry, before: Links, links: Links,
                   m: Node, after: Links, pre: seq<nat>, post: seq<nat>)
    requires Ongoing(origin, n, h, lo, hi, e.key, before, links, pre, post) && !HasKey(Flat(n), e.key)
    requires Valid(m, h, lo, hi) && Inserts(Flat(n), Flat(m), e)
    requires LinksOk(after) && Visible(after) == pre + Ids(m) + post
    ensures InsertionOk(origin, h, lo, hi, e, Stored(m), before, after, pre, post)
  {
  }

  lemma FullEnds(origin: Node, n: Node, h: nat, lo: Option<Key>, hi: Option<Key>, e: Entry, before: Links, links: Links,
                 r: Outcome, after: Links, pre: seq<nat>, post: seq<nat>)
    requires Ongoing(origin, n, h, lo, hi, e.key, before, links, pre, post) && !HasKey(Flat(n), e.key)
    requires !HasRoom(n, e.key) && FullOk(n, h, lo, hi, e.key, r) && FullShows(n, after, r, pre, post) && LinksOk(after)
    ensures InsertionOk(origin, h, lo, hi, e, r, before, after, pre, post)
  {
  }

  /** The leaf for the key tells whether the key is there and whether there is room for it. */
  lemma LeafForKey(n: Node, lo: Option<Key>, hi: Option<Key>, k: Key, i: nat)
    requires Valid(n, 1, lo, hi) && n.Inner? && Within(k, lo, hi) && i == Pick(n.keys, k)
    ensures i < |n.kids| == |n.keys| + 1 && n.kids[i].Leaf?
    ensures LeafOk(n.kids[i], LoAt(n.keys, i, lo), HiAt(n.keys, i, hi))
    ensures Within(k, LoAt(n.keys, i, lo), HiAt(n.keys, i, hi))
    ensures HasKey(Flat(n), k) <==> HasKey(n.kids[i].list, k)
    ensures HasRoom(n, k) <==> !n.kids[i].retired && n.kids[i].used < N
  {
    KeyInPicked(n.keys, n.kids, 1, lo, hi, k);
    assert Valid(n.kids[i], 0, LoAt(n.keys, i, lo), HiAt(n.keys, i, hi));
    FlatLeaf(n.kids[i]);
    PickWithin(n.keys, lo, hi, k);
  }

  lemma LeafNodeStores(n: Node, lo: Option<Key>, hi: Option<Key>, i: nat, c: Node, e: Entry, pre: seq<nat>, post: seq<nat>)
    requires Valid(n, 1, lo, hi) && n.Inner? && i < |n.kids| == |n.keys| + 1 && n.kids[i].Leaf?
    requires LeafOk(n.kids[i], LoAt(n.keys, i, lo), HiAt(n.keys, i, hi))
    requires Within(e.key, LoAt(n.keys, i, lo), HiAt(n.keys, i, hi))
    requires !HasKey(n.kids[i].list, e.key) && !n.kids[i].retired && n.kids[i].used < N
    requires c == n.kids[i].(list := WithEntry(n.kids[i].list, e), used := n.kids[i].used + 1)
    ensures var m := n.(kids := n.kids[i := c]);
            Valid(m, 1, lo, hi) && Inserts(Flat(n), Flat(m), e) && pre + Ids(m) + post == pre + Ids(n) + post
  {
    LeafStores(n.kids[i], LoAt(n.keys, i, lo), HiAt(n.keys, i, hi), e);
    KidStores(n, 1, lo, hi, i, c, e);
    KidVisible(n.kids, i, pre, post);
    KidShows(n, i, c, pre, post);
  }

  method InsertIntoLeafNode(origin: Node, k: Key, v: Val, before: Links,
                            ghost lo: Option<Key>, ghost hi: Option<Key>, ghost pre: seq<nat>, ghost post: seq<nat>)
    returns (r: Outcome, links: Links)
    requires Valid(origin, 1, lo, hi) && origin.Inner? && Within(k, lo, hi)
    requires LinksOk(before) && Visible(before) == pre + Ids(origin) + post
    ensures InsertionOk(origin, 1, lo, hi, Entry(k, v), r, before, links, pre, post)
  {
    var n := origin;
    links := before;
    while true
      invariant Ongoing(origin, n, 1, lo, hi, k, before, links, pre, post)
      decreases if HasRoom(n, k) then 0 else 1
    {
      var i := Pick(n.keys, k);
      LeafForKey(n, lo, hi, k, i);
      var leaf := n.kids[i];
      if !leaf.retired && HasKey(leaf.list, k) {
        return Present, links;
      }
      if !leaf.retired && leaf.used < N {
        var c := leaf.(list := WithEntry(leaf.list, Entry(k, v)), used := leaf.used + 1);
        LeafNodeStores(n, lo, hi, i, c, Entry(k, v), pre, post);
        var m := n.(kids := n.kids[i := c]);
        StoredEnds(origin, n, 1, lo, hi, Entry(k, v), before, links, m, links, pre, post);
        return Stored(m), links;
      }
      var b: nat :| 1 <= b <= N - 1;
      if |leaf.list| <= b {
        var c := NewLeaf(links.next, leaf.list);
        CompactOk(n, lo, hi, k, i, c);
        CompactShows(n, i, links, c, pre, post);
        links := Delete(PushBack(links, leaf.id), leaf.id);
        n := n.(kids := n.kids[i := c]);
      } else {
        var low, high := NewLeaf(links.next + 1, leaf.list[..b]), NewLeaf(links.next, leaf.list[b..]);
        var full := Full(i, leaf.list[b - 1].key, low, high, leaf.id);
        SplitLeafOk(n, lo, hi, k, i, b, full);
        SplitShows(n, i, links, low, high, pre, post);
        var after := PushBack(PushBack(links, leaf.id), leaf.id);
        if n.slots == N || n.worn {
          FullEnds(origin, n, 1, lo, hi, Entry(k, v), before, links, full, after, pre, post);
          return full, after;
        }
        AdoptedOk(n, 1, lo, hi, k, full);
        links := Delete(after, leaf.id);
        n := Adopted(n, full);
      }
    }
  }

  /** A child that could not take what its own child was split into is split itself. */
  method SplitKid(n: Node, ghost h: nat, ghost k: Key, i: nat, inner: Outcome, links: Links,
                  ghost lo: Option<Key>, ghost hi: Option<Key>, ghost pre: seq<nat>, ghost post: seq<nat>)
    returns (r: Outcome)
    requires h > 1 && Valid(n, h, lo, hi) && n.Inner? && i == Pick(n.keys, k) && i < |n.kids| == |n.keys| + 1
    requires n.kids[i].Inner? && Valid(n.kids[i], h - 1, LoAt(n.keys, i, lo), HiAt(n.keys, i, hi))
    requires inner.Full? && FullOk(n.kids[i], h - 1, LoAt(n.keys, i, lo), HiAt(n.keys, i, hi), k, inner)
    requires FullShows(n.kids[i], links, inner, Before(n.kids, i, pre), After(n.kids, i, post))
    ensures FullOk(n, h, lo, hi, k, r) && r.origin == inner.origin && FullShows(n, links, r, pre, post)
  {
    var b: nat :| 1 <= b <= N - 1;
    var child := n.kids[i];
    var keys := Widened(child.keys, inner.at, inner.mid);
    var kids := WidenedKids(child.kids, inner.at, inner.low, inner.high);
    var s := if b < |keys| then b else |keys|;
    r := Full(i, keys[s - 1], LowHalf(keys, kids, s), HighHalf(keys, kids, s), inner.origin);
    SplitNodeOk(n, h, lo, hi, k, inner, keys, kids, s, r);
    SplitNodeShows(n, i, links, inner, s, r.low, r.high, pre, post);
  }

  method InsertIntoNode(origin: Node, ghost h: nat, k: Key, v: Val, before: Links,
                        ghost lo: Option<Key>, ghost hi: Option<Key>, ghost pre: seq<nat>, ghost post: seq<nat>)
    returns (r: Outcome, links: Links)
    requires origin.Inner? && Valid(origin, h, lo, hi) && Within(k, lo, hi)
    requires LinksOk(before) && Visible(before) == pre + Ids(origin) + post
    ensures InsertionOk(origin, h, lo, hi, Entry(k, v), r, before, links, pre, post)
    decreases h
  {
    LeafNodesAreLow(origin, h, lo, hi);
    if IsLeafNode(origin) {
      r, links := InsertIntoLeafNode(origin, k, v, before, lo, hi, pre, post);
      return;
    }
    var n := origin;
    links := before;
    while true
      invariant Ongoing(origin, n, h, lo, hi, k, before, links, pre, post)
      decreases if HasRoom(n, k) then 0 else 1
    {
      var i := Pick(n.keys, k);
      KidForKey(n, h, lo, hi, k, i);
      KidVisible(n.kids, i, pre, post);
      var inner, after := InsertIntoNode(n.kids[i], h - 1, k, v, links, LoAt(n.keys, i, lo), HiAt(n.keys, i, hi),
                                         Before(n.kids, i, pre), After(n.kids, i, post));
      match inner {
        case Present =>
          return Present, links;
        case Stored(c) =>
          var m := n.(kids := n.kids[i := c]);
          KidStores(n, h, lo, hi, i, c, Entry(k, v));
          KidShows(n, i, c, pre, post);
          StoredEnds(origin, n, h, lo, hi, Entry(k, v), before, links, m, after, pre, post);
          return Stored(m), after;
        case Full(_, _, _, _, leaf) =>
          var full := SplitKid(n, h, k, i, inner, after, lo, hi, pre, post);
          if n.slots == N || n.worn {
            FullEnds(origin, n, h, lo, hi, Entry(k, v), before, links, full, after, pre, post);
            return full, after;
          }
          AdoptedOk(n, h, lo, hi, k, full);
          links := Delete(after, leaf);
          n := Adopted(n, full);
      }
    }
  }

  /** The child for the key tells whether the key is there and whether there is room for it. */
  lemma KidForKey(n: Node, h: nat, lo: Option<Key>, hi: Option<Key>, k: Key, i: nat)
    requires h > 1 && Valid(n, h, lo, hi) && n.Inner? && Within(k, lo, hi) && i == Pick(n.keys, k)
    ensures i < |n.kids| == |n.keys| + 1 && n.kids[i].Inner?
    ensures Valid(n.kids[i], h - 1, LoAt(n.keys, i, lo), HiAt(n.keys, i, hi))
    ensures Within(k, LoAt(n.keys, i, lo), HiAt(n.keys, i, hi))
    ensures HasKey(Flat(n), k) <==> HasKey(Flat(n.kids[i]), k)
    ensures HasRoom(n, k) <==> HasRoom(n.kids[i], k)
  {
    KeyInPicked(n.keys, n.kids, h, lo, hi, k);
    PickWithin(n.keys, lo, hi, k);
    KidIsNode(n, h, lo, hi, i);
  }
}
