/**
  The tree index used by one thread: a map ordered by key.
 */
module TreeIndex {
  import opened Common
  import opened Entries
  import opened Tree
  import opened TreeLinks
  import opened TreeShelf
  import opened TreeInsert
  import opened TreeRemove

  // ---------------------------------------------------------------- entries as a map

  ghost function MapOf(list: seq<Entry>): map<Key, Val>
    requires Increasing(list)
  {
    map i | 0 <= i < |list| :: list[i].key := list[i].val
  }

  lemma MapHas(list: seq<Entry>, k: Key)
    requires Increasing(list)
    ensures k in MapOf(list) <==> HasKey(list, k)
    ensures forall v :: (k in MapOf(list) && MapOf(list)[k] == v) <==> Entry(k, v) in list
  {
    if k in MapOf(list) {
      var i :| 0 <= i < |list| && list[i].key == k;
      assert list[i] == Entry(k, MapOf(list)[k]);
    }
    forall v | Entry(k, v) in list ensures k in MapOf(list) && MapOf(list)[k] == v {
      var i :| 0 <= i < |list| && list[i] == Entry(k, v);
      assert MapOf(list)[list[i].key] == list[i].val;
    }
  }

  lemma InsertsMembers(a: seq<Entry>, b: seq<Entry>, e: Entry)
    requires Inserts(a, b, e)
    ensures forall x :: x in b <==> x in a || x == e
  {
    var p :| 0 <= p <= |a| && b == a[..p] + [e] + a[p..];
    assert a == a[..p] + a[p..];
  }

  lemma InsertsNewKey(a: seq<Entry>, b: seq<Entry>, e: Entry)
    requires Increasing(b) && Inserts(a, b, e)
    ensures !HasKey(a, e.key)
  {
    var p :| 0 <= p <= |a| && b == a[..p] + [e] + a[p..];
    assert b[p] == e;
    forall i | 0 <= i < |a| ensures a[i].key != e.key {
      if i < p {
        assert b[i] == a[i];
      } else {
        assert b[i + 1] == a[i];
      }
    }
  }

  lemma MapInserts(a: seq<Entry>, b: seq<Entry>, e: Entry)
    requires Increasing(a) && Increasing(b) && Inserts(a, b, e)
    ensures e.key !in MapOf(a) && MapOf(b) == MapOf(a)[e.key := e.val]
    ensures MapOf(a) == MapOf(b) - {e.key}
  {
    InsertsMembers(a, b, e);
    InsertsNewKey(a, b, e);
    MapHas(a, e.key);
    MapHas(b, e.key);
    assert e in b;
    forall k | k != e.key
      ensures (k in MapOf(a) <==> k in MapOf(b)) && (k in MapOf(a) ==> MapOf(a)[k] == MapOf(b)[k])
    {
      SameAt(a, b, k);
    }
    OneMore(MapOf(a), MapOf(b), e.key, e.val);
  }

  lemma SameAt(a: seq<Entry>, b: seq<Entry>, k: Key)
    requires Increasing(a) && Increasing(b) && forall v :: Entry(k, v) in a <==> Entry(k, v) in b
    ensures k in MapOf(a) <==> k in MapOf(b)
    ensures k in MapOf(a) ==> MapOf(a)[k] == MapOf(b)[k]
  {
    MapHas(a, k);
    MapHas(b, k);
    if k in MapOf(a) { assert Entry(k, MapOf(a)[k]) in b; }
    if k in MapOf(b) { assert Entry(k, MapOf(b)[k]) in a; }
  }

  // ---------------------------------------------------------------- the root

  /** The leaf node a tree begins with. */
  function FirstNode(id: nat): Node {
    Inner([], [NewLeaf(id, [])], 0, false)
  }

  lemma FirstNodeOk(id: nat, k: Key)
    ensures var n := FirstNode(id); Valid(n, 1, None, None) && Flat(n) == [] && HasRoom(n, k) && Ids(n) == [id]
  {
    var leaf := NewLeaf(id, []);
    FirstLeafOk(leaf);
    OnlyKid(FirstNode(id));
    FlatLeaf(leaf);
  }

  lemma FirstLeafOk(leaf: Node)
    requires leaf.Leaf? && leaf.list == [] && leaf.used == 0
    ensures ValidKids([], [leaf], 1, None, None)
  {
    assert Valid(leaf, 0, None, None);
  }

  lemma StartedOk(links: Links)
    requires LinksOk(links) && Visible(links) == []
    ensures LinksOk(Started(links)) && Visible(Started(links)) == [links.next]
  {
    FilterAppend(links.chain, links.deleted, links.next);
  }

  lemma {:induction false} FilterAppend(chain: seq<nat>, deleted: set<nat>, x: nat)
    requires x !in deleted
    ensures Filter(chain + [x], deleted) == Filter(chain, deleted) + [x]
  {
    if chain == [] {
      assert [] + [x] == [x] && [x][1..] == [];
    } else {
      FilterAppend(chain[1..], deleted, x);
      assert (chain + [x])[1..] == chain[1..] + [x];
    }
  }

  /** The chain with the first leaf of a new tree. */
  function Started(links: Links): Links {
    links.(chain := links.chain + [links.next], next := links.next + 1)
  }

  function NewRoot(keys: seq<Key>, kids: seq<Node>, s: nat): Node
    requires 1 <= s <= |keys| && |kids| == |keys| + 1
  {
    Inner([keys[s - 1]], [LowHalf(keys, kids, s), HighHalf(keys, kids, s)], 1, false)
  }

  /** A full root becomes two nodes under a new root. */
  lemma RootSplits(root: Node, h: nat, k: Key, r: Outcome, links: Links, keys: seq<Key>, kids: seq<Node>, s: nat)
    requires h > 0 && Valid(root, h, None, None) && FullOk(root, h, None, None, k, r)
    requires r.at <= |root.keys| && FullShows(root, links, r, [], [])
    requires keys == Widened(root.keys, r.at, r.mid) && kids == WidenedKids(root.kids, r.at, r.low, r.high)
    requires 1 <= s <= |keys| && |kids| == |keys| + 1
    ensures var n := NewRoot(keys, kids, s);
            && Valid(n, h + 1, None, None) && Flat(n) == Flat(root) && HasRoom(n, k)
            && Visible(Delete(links, r.origin)) == Ids(n)
  {
    var n := NewRoot(keys, kids, s);
    var low, high, mid := LowHalf(keys, kids, s), HighHalf(keys, kids, s), keys[s - 1];
    HalveKids(keys, kids, h, None, None, s, k);
    HalveLeaves(keys, kids, s);
    TwoKids(n);
    assert ValidKids([mid], [low, high], h + 1, None, None);
    PickIs([mid], None, None, k, if k <= mid then 0 else 1);
    assert [] + IdsOf(LeavesAll(kids)) + [] == IdsOf(LeavesAll(kids));
  }

  lemma TwoKids(n: Node)
    requires n.Inner? && |n.kids| == 2
    ensures Leaves(n) == Leaves(n.kids[0]) + Leaves(n.kids[1])
    ensures Flat(n) == Flat(n.kids[0]) + Flat(n.kids[1])
  {
    assert n.kids[1..] == [n.kids[1]] && [n.kids[1]][1..] == [] && LeavesAll([]) == [];
    assert LeavesAll([n.kids[1]]) == Leaves(n.kids[1]);
    ListsSplit(Leaves(n.kids[0]), Leaves(n.kids[1]));
  }

  lemma NothingElse(ids: seq<nat>)
    ensures [] + ids + [] == ids
  {
  }

  lemma OnlyEntry(list: seq<Entry>, e: Entry)
    requires list == [e]
    ensures Increasing(list) && MapOf(list) == map[e.key := e.val] && MapOf(list) - {e.key} == map[]
  {
    assert list == [][..0] + [e] + [][0..];
    assert Inserts([], list, e);
    MapInserts([], list, e);
    assert MapOf([]) == map[];
  }

  // ---------------------------------------------------------------- following the chain

  /** The leaf a link points to. */
  function Named(leaves: seq<Node>, id: nat): Node
    requires id in IdsOf(leaves)
  {
    if IdOf(leaves[0]) == id then leaves[0] else
    assert IdsOf(leaves)[1..] == IdsOf(leaves[1..]);
    Named(leaves[1..], id)
  }

  lemma {:induction false} NamedIs(leaves: seq<Node>, j: nat)
    requires Distinct(IdsOf(leaves)) && j < |leaves|
    ensures IdOf(leaves[j]) in IdsOf(leaves) && Named(leaves, IdOf(leaves[j])) == leaves[j]
  {
    var ids := IdsOf(leaves);
    assert ids[j] in ids;
    if j > 0 {
      assert ids[0] != ids[j];
      assert ids[1..] == IdsOf(leaves[1..]);
      NamedIs(leaves[1..], j - 1);
    }
  }

  lemma {:induction false} FilterDistinct(chain: seq<nat>, deleted: set<nat>)
    requires Distinct(chain)
    ensures Distinct(Filter(chain, deleted))
  {
    if chain != [] {
      DistinctTail(chain);
      FilterDistinct(chain[1..], deleted);
      FilterMembers(chain[1..], deleted, chain[0]);
      Prepend(Filter(chain[1..], deleted), chain[0]);
    }
  }

  lemma NextVisible(rest: seq<nat>, deleted: set<nat>, ids: seq<nat>, j: nat)
    requires rest != [] && j <= |ids| && Filter(rest, deleted) == ids[j..]
    ensures rest[0] in deleted ==> Filter(rest[1..], deleted) == ids[j..]
    ensures rest[0] !in deleted ==> j < |ids| && ids[j] == rest[0] && Filter(rest[1..], deleted) == ids[j + 1..]
  {
    if rest[0] !in deleted {
      assert Filter(rest, deleted)[0] == rest[0] && Filter(rest, deleted)[1..] == Filter(rest[1..], deleted);
    }
  }

  lemma OneMoreLeaf(leaves: seq<Node>, j: nat)
    requires j < |leaves|
    ensures Lists(leaves[..j + 1]) == Lists(leaves[..j]) + ListOf(leaves[j])
  {
    assert leaves[..j + 1] == leaves[..j] + [leaves[j]];
    ListsSplit(leaves[..j], [leaves[j]]);
    assert [leaves[j]][1..] == [] && Lists([]) == [];
    assert Lists([leaves[j]]) == ListOf(leaves[j]) + Lists([leaves[j]][1..]);
  }

  // ---------------------------------------------------------------- the index

  class TreeIndex {
    var root: Option<Node>
    var links: Links
    ghost var height: nat

    ghost predicate Valid()
      reads this
    {
      && LinksOk(links)
      && match root
         case None => Visible(links) == []
         case Some(n) => height > 0 && n.Inner? && Tree.Valid(n, height, None, None) && Visible(links) == Ids(n)
    }

    /** All entries by increasing key. */
    ghost function Entries(): (list: seq<Entry>)
      requires Valid()
      reads this
      ensures Increasing(list)
    {
      match root
      case None => []
      case Some(n) => LeavesOrdered(n, height, None, None); Flat(n)
    }

    ghost function Map(): map<Key, Val>
      requires Valid()
      reads this
    {
      MapOf(Entries())
    }

    constructor ()
      ensures Valid() && Map() == map[]
    {
      root, links, height := None, Links([], {}, 0), 0;
    }

    /** Fails exactly if the key is there already. */
    method Insert(k: Key, v: Val) returns (inserted: bool)
      requires Valid()
      modifies this
      ensures Valid()
      ensures inserted <==> k !in old(Map())
      ensures Map() == if inserted then old(Map())[k := v] else old(Map())
    {
      if root.None? { Start(k); }
      inserted := InsertIntoRoot(k, v);
    }

    /** The first node, with one empty leaf. */
    method Start(ghost k: Key)
      requires Valid() && root.None?
      modifies this
      ensures Valid() && root.Some? && Entries() == []
    {
      FirstNodeOk(links.next, k);
      StartedOk(links);
      root, links, height := Some(FirstNode(links.next)), Started(links), 1;
    }

    method InsertIntoRoot(k: Key, v: Val) returns (inserted: bool)
      requires Valid() && root.Some?
      modifies this
      ensures Valid()
      ensures inserted <==> k !in old(Map())
      ensures Map() == if inserted then old(Map())[k := v] else old(Map())
    {
      ghost var entries := Entries();
      MapHas(entries, k);
      while true
        invariant Valid() && root.Some? && Entries() == entries
        decreases if HasRoom(root.value, k) then 0 else 1
      {
        NothingElse(Ids(root.value));
        var r, after := InsertIntoNode(root.value, height, k, v, links, None, None, [], []);
        match r {
          case Present =>
            return false;
          case Stored(n) =>
            NothingElse(Ids(n));
            LeavesOrdered(n, height, None, None);
            MapInserts(entries, Flat(n), Entry(k, v));
            root, links := Some(n), after;
            return true;
          case Full(_, _, _, _, _) =>
            SplitRoot(r, after, k);
        }
      }
    }

    /** A full root becomes two nodes under a new root. */
    method SplitRoot(r: Outcome, after: Links, ghost k: Key)
      requires Valid() && root.Some? && FullOk(root.value, height, None, None, k, r) && FullShows(root.value, after, r, [], [])
      modifies this
      ensures Valid() && root.Some? && Entries() == old(Entries()) && HasRoom(root.value, k)
    {
      var keys, kids := Widened(root.value.keys, r.at, r.mid), WidenedKids(root.value.kids, r.at, r.low, r.high);
      var b: nat :| 1 <= b <= N - 1;
      var s := if b < |keys| then b else |keys|;
      RootSplits(root.value, height, k, r, after, keys, kids, s);
      root, links, height := Some(NewRoot(keys, kids, s)), Delete(after, r.origin), height + 1;
    }

    /** Succeeds exactly if the key is there and the condition holds of its value. */
    method RemoveIf(k: Key, condition: Val -> bool) returns (removed: bool)
      requires Valid()
      modifies this
      ensures Valid()
      ensures removed <==> k in old(Map()) && condition(old(Map())[k])
      ensures Map() == if removed then old(Map()) - {k} else old(Map())
    {
      MapHas(Entries(), k);
      if root.None? { return false; }
      NothingElse(Ids(root.value));
      var r, after := RemoveFromNode(root.value, height, k, condition, links, None, None, [], []);
      match r {
        case Kept =>
          return false;
        case Taken(n, v) =>
          Shrink(n, after, Entry(k, v));
        case Emptied(v) =>
          Empty(after, Entry(k, v));
      }
      return true;
    }

    /** The root goes on without entry `e`. */
    method Shrink(n: Node, after: Links, ghost e: Entry)
      requires Valid() && root.Some? && n.Inner? && Tree.Valid(n, height, None, None)
      requires LinksOk(after) && Visible(after) == [] + Ids(n) + [] && Inserts(Flat(n), Flat(root.value), e)
      modifies this
      ensures Valid() && Map() == old(Map()) - {e.key}
      ensures e.key in old(Map()) && old(Map())[e.key] == e.val
    {
      NothingElse(Ids(n));
      LeavesOrdered(n, height, None, None);
      MapInserts(Flat(n), Entries(), e);
      root, links := Some(n), after;
      // Not every removal cleans up the root: it depends on what had to be taken out.
      var tidy: bool := *;
      if tidy { CleanUpRoot(); }
    }

    /** The root goes with its last entry. */
    method Empty(after: Links, ghost e: Entry)
      requires Valid() && root.Some? && Flat(root.value) == [e]
      requires LinksOk(after) && Visible(after) == [] + []
      modifies this
      ensures Valid() && Map() == old(Map()) - {e.key}
      ensures e.key in old(Map()) && old(Map())[e.key] == e.val
    {
      OnlyEntry(Entries(), e);
      root, links := None, after;
    }

    /** As long as the root has a single child, the child becomes the root. */
    method CleanUpRoot()
      requires Valid()
      modifies this
      ensures Valid() && Entries() == old(Entries()) && links == old(links)
      ensures root.Some? && root.value.Inner? && !IsLeafNode(root.value) ==> root.value.keys != []
    {
      while root.Some? && root.value.Inner? && !IsLeafNode(root.value) && root.value.keys == []
        invariant Valid() && Entries() == old(Entries()) && links == old(links)
        decreases height
      {
        LeafNodesAreLow(root.value, height, None, None);
        OnlyKid(root.value);
        var child := root.value.kids[0];
        KidIsNode(root.value, height, None, None, 0);
        root, height := Some(child), height - 1;
      }
    }

    method Peek(k: Key) returns (r: Option<Val>)
      requires Valid()
      ensures r.None? <==> k !in Map()
      ensures r.Some? ==> k in Map() && r.value == Map()[k]
    {
      MapHas(Entries(), k);
      if root.None? { return None; }
      SearchFinds(root.value, height, None, None, k);
      return Search(root.value, k);
    }

    /** Follows the chain from the least leaf on and skips deleted leaves. */
    method Iterate() returns (list: seq<Entry>)
      requires Valid()
      ensures list == Entries() && Increasing(list)
      ensures forall k :: k in Map() <==> HasKey(list, k)
    {
      list := [];
      forall k ensures k in Map() <==> HasKey(Entries(), k) { MapHas(Entries(), k); }
      if root.None? { return; }
      var leaves := Leaves(root.value);
      ghost var ids := Ids(root.value);
      FilterDistinct(links.chain, links.deleted);
      var rest := links.chain;
      ghost var j := 0;
      while rest != []
        invariant j <= |leaves| && Filter(rest, links.deleted) == ids[j..] && list == Lists(leaves[..j])
      {
        NextVisible(rest, links.deleted, ids, j);
        if rest[0] !in links.deleted {
          NamedIs(leaves, j);
          OneMoreLeaf(leaves, j);
          list := list + ListOf(Named(leaves, rest[0]));
          j := j + 1;
        }
        rest := rest[1..];
      }
      assert leaves[..j] == leaves;
    }
  }
}
