/**
  A bucket with its linked buckets, the pointer that walks over its entries, and the relocation of
  all of them: the walk goes on although linked buckets are unlinked under it as they become empty.
 */
module BucketDrain {
  import opened Common
  import opened Geometry

  /** The number of slots of a linked bucket. */
  const LINKED_LEN: nat := 8

  datatype Entry = Entry(key: nat, val: nat, hash: Hash)

  type Block = seq<Option<Entry>>

  /**
    `link`: the linked bucket the pointer is in, if any; `index`: the slot last visited, or the
    number of slots where none has been; `fused`: there is nothing more to visit.
   */
  datatype EntryPtr = EntryPtr(link: Option<nat>, index: nat, fused: bool)

  // ---------------------------------------------------------------- entries in order

  function Somes(b: Block): seq<Entry> {
    if b == [] then [] else (if b[0].Some? then [b[0].value] else []) + Somes(b[1..])
  }

  function Joined(links: seq<Block>): seq<Entry> {
    if links == [] then [] else Somes(links[0]) + Joined(links[1..])
  }

  /** All entries, those of the bucket first and then those of the linked buckets. */
  function All(main: Block, links: seq<Block>): seq<Entry> {
    Somes(main) + Joined(links)
  }

  predicate Vacant(b: Block, n: nat)
    requires n <= |b|
  {
    forall i :: 0 <= i < n ==> b[i].None?
  }

  predicate VacantLinks(links: seq<Block>, n: nat)
    requires n <= |links|
  {
    forall j :: 0 <= j < n ==> Vacant(links[j], |links[j]|)
  }

  /** The first occupied slot from `i` on: `Bucket::next_entry`. */
  function FirstFrom(b: Block, i: nat): (r: Option<nat>)
    ensures r.Some? ==> i <= r.value < |b| && b[r.value].Some? && forall j :: i <= j < r.value ==> b[j].None?
    ensures r.None? ==> forall j :: i <= j < |b| ==> b[j].None?
    decreases |b| - i
  {
    if i >= |b| then None else if b[i].Some? then Some(i) else FirstFrom(b, i + 1)
  }

  lemma {:induction false} SomesVacant(b: Block)
    requires Vacant(b, |b|)
    ensures Somes(b) == []
  {
    if b != [] { SomesVacant(b[1..]); }
  }

  /** The first entry of a block is the one in its first occupied slot, and clearing that slot takes it out. */
  lemma {:induction false} SomesFirst(b: Block, i: nat)
    requires i < |b| && Vacant(b, i) && b[i].Some?
    ensures Somes(b) != [] && Somes(b)[0] == b[i].value && Somes(b[i := None]) == Somes(b)[1..]
  {
    if i == 0 {
      assert b[0 := None][1..] == b[1..];
    } else {
      SomesFirst(b[1..], i - 1);
      assert b[i := None][1..] == b[1..][i - 1 := None];
    }
  }

  lemma {:induction false} JoinedVacant(links: seq<Block>)
    requires VacantLinks(links, |links|)
    ensures Joined(links) == []
  {
    if links != [] {
      SomesVacant(links[0]);
      JoinedVacant(links[1..]);
    }
  }

  lemma {:induction false} JoinedFirst(links: seq<Block>, j: nat, i: nat)
    requires j < |links| && VacantLinks(links, j) && i < |links[j]| && Vacant(links[j], i) && links[j][i].Some?
    ensures Joined(links) != [] && Joined(links)[0] == links[j][i].value
    ensures Joined(links[j := links[j][i := None]]) == Joined(links)[1..]
  {
    if j == 0 {
      SomesFirst(links[0], i);
      assert links[0 := links[0][i := None]][1..] == links[1..];
    } else {
      SomesVacant(links[0]);
      JoinedFirst(links[1..], j - 1, i);
      assert links[j := links[j][i := None]][1..] == links[1..][j - 1 := links[j][i := None]];
    }
  }

  /** A vacant linked bucket can be unlinked. */
  lemma {:induction false} JoinedUnlinked(links: seq<Block>, j: nat)
    requires j < |links| && Vacant(links[j], |links[j]|)
    ensures Joined(RemoveAt(links, j)) == Joined(links)
  {
    if j == 0 {
      SomesVacant(links[0]);
      assert RemoveAt(links, 0) == links[1..];
    } else {
      JoinedUnlinked(links[1..], j - 1);
      assert RemoveAt(links, j)[1..] == RemoveAt(links[1..], j - 1);
    }
  }

  // ---------------------------------------------------------------- the pointer

  /** How many slots of a block the pointer has passed. */
  function Passed(index: nat, len: nat): nat { if index == len then 0 else index + 1 }

  /** All slots that the pointer has passed are vacant. */
  ghost predicate PtrOk(main: Block, links: seq<Block>, p: EntryPtr) {
    if p.fused then All(main, links) == []
    else match p.link
      case None => p.index <= |main| && Vacant(main, Passed(p.index, |main|))
      case Some(j) =>
        && j < |links| && Vacant(main, |main|) && VacantLinks(links, j)
        && p.index <= |links[j]| && Vacant(links[j], Passed(p.index, |links[j]|))
  }

  /** The pointer is at an occupied slot, the first there is. */
  ghost predicate PtrAt(main: Block, links: seq<Block>, p: EntryPtr) {
    && !p.fused
    && match p.link
       case None => p.index < |main| && main[p.index].Some? && Vacant(main, p.index)
       case Some(j) =>
         && j < |links| && Vacant(main, |main|) && VacantLinks(links, j)
         && p.index < |links[j]| && links[j][p.index].Some? && Vacant(links[j], p.index)
  }

  ghost predicate LinksOk(links: seq<Block>) {
    forall j :: 0 <= j < |links| ==> |links[j]| == LINKED_LEN
  }

  function FirstFree(b: Block, i: nat := 0): (r: Option<nat>)
    requires i <= |b|
    ensures r.Some? ==> r.value < |b| && b[r.value].None?
    decreases |b| - i
  {
    if i == |b| then None else if b[i].None? then Some(i) else FirstFree(b, i + 1)
  }

  lemma {:induction false} SomesFilled(b: Block, i: nat, e: Entry)
    requires i < |b| && b[i].None?
    ensures multiset(Somes(b[i := Some(e)])) == multiset(Somes(b)) + multiset{e}
  {
    if i == 0 {
      assert b[0 := Some(e)][1..] == b[1..];
    } else {
      SomesFilled(b[1..], i - 1, e);
      assert b[i := Some(e)][1..] == b[1..][i - 1 := Some(e)];
    }
  }

  lemma {:induction false} JoinedFilled(links: seq<Block>, j: nat, i: nat, e: Entry)
    requires j < |links| && i < |links[j]| && links[j][i].None?
    ensures multiset(Joined(links[j := links[j][i := Some(e)]])) == multiset(Joined(links)) + multiset{e}
  {
    if j == 0 {
      SomesFilled(links[0], i, e);
      assert links[0 := links[0][i := Some(e)]][1..] == links[1..];
    } else {
      JoinedFilled(links[1..], j - 1, i, e);
      assert links[j := links[j][i := Some(e)]][1..] == links[1..][j - 1 := links[j][i := Some(e)]];
    }
  }

  /** A linked bucket with one entry. */
  function NewLink(e: Entry): (b: Block)
    ensures |b| == LINKED_LEN && multiset(Somes(b)) == multiset{e}
  {
    var empty: Block := seq(LINKED_LEN, _ => None);
    SomesVacant(empty);
    SomesFilled(empty, 0, e);
    empty[0 := Some(e)]
  }

  method InsertIntoLinks(links: seq<Block>, e: Entry) returns (r: seq<Block>)
    requires LinksOk(links)
    ensures LinksOk(r) && multiset(Joined(r)) == multiset(Joined(links)) + multiset{e}
  {
    var j := 0;
    while j < |links|
      invariant j <= |links|
    {
      var free := FirstFree(links[j]);
      if free.Some? {
        JoinedFilled(links, j, free.value, e);
        return links[j := links[j][free.value := Some(e)]];
      }
      j := j + 1;
    }
    r := [NewLink(e)] + links;
    assert r[1..] == links;
  }

  lemma OneMoreEntry(a: seq<Entry>, b: seq<Entry>, c: seq<Entry>, d: seq<Entry>, e: Entry)
    requires (multiset(c) == multiset(a) + multiset{e} && d == b) || (c == a && multiset(d) == multiset(b) + multiset{e})
    ensures multiset(c + d) == multiset(a + b) + multiset{e} && |c + d| == |a + b| + 1
  {
    assert |multiset(c + d)| == |c + d| && |multiset(a + b)| == |a + b|;
  }

  class Bucket {
    var main: Block
    var links: seq<Block>
    var num: nat

    ghost predicate Valid()
      reads this
    {
      |main| == BUCKET_LEN && LinksOk(links) && num == |Entries()|
    }

    ghost function Entries(): seq<Entry>
      reads this
    {
      All(main, links)
    }

    constructor ()
      ensures Valid() && Entries() == []
    {
      main, links, num := seq(BUCKET_LEN, _ => None), [], 0;
      new;
      SomesVacant(main);
    }

    /** Stores the entry in the first free slot, or in a new linked bucket at the head of the list. */
    method InsertWith(e: Entry)
      requires Valid()
      modifies this
      ensures Valid() && multiset(Entries()) == multiset(old(Entries())) + multiset{e}
    {
      ghost var a, b := Somes(main), Joined(links);
      var free := FirstFree(main);
      if free.Some? {
        SomesFilled(main, free.value, e);
        main := main[free.value := Some(e)];
      } else {
        links := InsertIntoLinks(links, e);
      }
      OneMoreEntry(a, b, Somes(main), Joined(links), e);
      num := num + 1;
    }

    /** Moves the pointer to the next occupied slot, if there is one. */
    method Next(p: EntryPtr) returns (found: bool, q: EntryPtr)
      requires Valid() && PtrOk(main, links, p)
      ensures found ==> PtrAt(main, links, q)
      ensures found <==> Entries() != []
      ensures !found ==> q.fused
    {
      q := p;
      if q.fused { return false, q; }
      if q.link.None? {
        var next := FirstFrom(main, if q.index == BUCKET_LEN then 0 else q.index + 1);
        if next.Some? {
          q := q.(index := next.value);
          SomesFirst(main, q.index);
          return true, q;
        }
        SomesVacant(main);
        q := EntryPtr(if links == [] then None else Some(0), LINKED_LEN, false);
      } else {
        SomesVacant(main);
      }
      while q.link.Some?
        invariant !q.fused && Vacant(main, |main|) && Somes(main) == []
        invariant q.link.Some? ==> PtrOk(main, links, q)
        invariant q.link.None? ==> VacantLinks(links, |links|)
        decreases if q.link.Some? then |links| - q.link.value else 0, if q.link.Some? then 1 else 0
      {
        var j := q.link.value;
        var next := FirstFrom(links[j], if q.index == LINKED_LEN then 0 else q.index + 1);
        if next.Some? {
          q := q.(index := next.value);
          JoinedFirst(links, j, q.index);
          return true, q;
        }
        q := EntryPtr(if j + 1 < |links| then Some(j + 1) else None, LINKED_LEN, false);
      }
      JoinedVacant(links);
      q := q.(fused := true);
      found := false;
    }

    /** Takes the entry at the pointer out; a linked bucket that becomes empty is unlinked. */
    method Extract(p: EntryPtr) returns (e: Entry, q: EntryPtr)
      requires Valid() && PtrAt(main, links, p)
      modifies this
      ensures Valid() && PtrOk(main, links, q)
      ensures old(Entries()) != [] && e == old(Entries())[0] && Entries() == old(Entries())[1..]
    {
      q := p;
      match p.link {
        case None =>
          SomesFirst(main, p.index);
          e := main[p.index].value;
          main := main[p.index := None];
        case Some(j) =>
          SomesVacant(main);
          JoinedFirst(links, j, p.index);
          e := links[j][p.index].value;
          links := links[j := links[j][p.index := None]];
          if FirstFrom(links[j], 0).None? {
            JoinedUnlinked(links, j);
            q := Unlink(j);
          }
      }
      num := num - 1;
    }

    /** Takes a vacant linked bucket off the list; the pointer goes to the next one, or is fused. */
    method Unlink(j: nat) returns (q: EntryPtr)
      requires j < |links| && LinksOk(links) && Vacant(main, |main|) && VacantLinks(links, j + 1)
      modifies this`links
      ensures links == RemoveAt(old(links), j) && LinksOk(links) && Entries() == old(Entries())
      ensures PtrOk(main, links, q)
    {
      JoinedUnlinked(links, j);
      links := RemoveAt(links, j);
      if j < |links| {
        q := EntryPtr(Some(j), LINKED_LEN, false);
      } else {
        SomesVacant(main);
        JoinedVacant(links);
        q := EntryPtr(None, LINKED_LEN, true);
      }
    }
  }

  // ---------------------------------------------------------------- relocation

  /** The entries that belong to bucket `b` of an array of `2^log` buckets. */
  function Belonging(list: seq<Entry>, log: nat, b: nat): seq<Entry>
    requires log <= BITS
  {
    if list == [] then [] else
    (if Index(log, list[0].hash) == b then [list[0]] else []) + Belonging(list[1..], log, b)
  }

  lemma {:induction false} BelongingMore(list: seq<Entry>, e: Entry, log: nat, b: nat)
    requires log <= BITS
    ensures Belonging(list + [e], log, b) ==
            Belonging(list, log, b) + (if Index(log, e.hash) == b then [e] else [])
  {
    if list == [] {
      assert [e][1..] == [] && Belonging([], log, b) == [];
    } else {
      BelongingMore(list[1..], e, log, b);
      assert (list + [e])[1..] == list[1..] + [e];
    }
  }

  /** All entries are in the bucket of their hash. */
  ghost predicate InBucket(list: seq<Entry>, log: nat, index: nat)
    requires log <= BITS
  {
    forall i :: 0 <= i < |list| ==> Index(log, list[i].hash) == index
  }

  /** Each target bucket has got exactly the entries that belong to it, in their order. */
  ghost predicate Placed(targets: seq<seq<Entry>>, list: seq<Entry>, log: nat, target: nat)
    requires log <= BITS
  {
    forall d :: 0 <= d < |targets| ==> targets[d] == Belonging(list, log, target + d)
  }

  lemma OneMorePlaced(targets: seq<seq<Entry>>, list: seq<Entry>, e: Entry, log: nat, target: nat, d: nat)
    requires log <= BITS && Placed(targets, list, log, target) && d < |targets| && Index(log, e.hash) == target + d
    ensures Placed(targets[d := targets[d] + [e]], list + [e], log, target)
  {
    var after := targets[d := targets[d] + [e]];
    forall x | 0 <= x < |after| ensures after[x] == Belonging(list + [e], log, target + x) {
      BelongingMore(list, e, log, target + x);
    }
  }

  /**
    Takes every entry out of bucket `index` of the old array and puts it into its bucket of the new
    array; `targets` are the target buckets, counted from the first.
   */
  method Relocate(bucket: Bucket, oldLog: nat, newLog: nat, index: nat) returns (targets: seq<seq<Entry>>)
    requires bucket.Valid() && oldLog <= BITS && newLog <= BITS && InBucket(bucket.Entries(), oldLog, index)
    modifies bucket
    ensures bucket.Valid() && bucket.Entries() == [] && bucket.num == 0
    ensures |targets| == Spread(oldLog, newLog)
    ensures Placed(targets, old(bucket.Entries()), newLog, TargetIndex(oldLog, newLog, index))
  {
    var target := TargetIndex(oldLog, newLog, index);
    targets := seq(Spread(oldLog, newLog), _ => []);
    ghost var all := bucket.Entries();
    ghost var done: seq<Entry> := [];
    var ptr := EntryPtr(None, BUCKET_LEN, false);
    assert Vacant(bucket.main, 0);
    while true
      invariant bucket.Valid() && PtrOk(bucket.main, bucket.links, ptr) && all == done + bucket.Entries()
      invariant |targets| == Spread(oldLog, newLog)
      invariant Placed(targets, done, newLog, target)
      decreases |bucket.Entries()|
    {
      var found, at := bucket.Next(ptr);
      if !found { break; }
      ghost var rest := bucket.Entries();
      assert rest[0] == all[|done|];
      var e, next := bucket.Extract(at);
      ptr := next;
      EntryStaysInSpread(oldLog, newLog, e.hash);
      var d := Index(newLog, e.hash) - target;
      OneMorePlaced(targets, done, e, newLog, target, d);
      targets := targets[d := targets[d] + [e]];
      assert done + rest == (done + [e]) + rest[1..];
      done := done + [e];
    }
    assert done == all;
  }

  /** Every entry lands in one of the target buckets. */
  lemma NothingElsewhere(list: seq<Entry>, oldLog: nat, newLog: nat, index: nat, i: nat)
    requires oldLog <= BITS && newLog <= BITS && InBucket(list, oldLog, index) && i < |list|
    ensures var d := Index(newLog, list[i].hash) - TargetIndex(oldLog, newLog, index);
            0 <= d < Spread(oldLog, newLog) && list[i] in Belonging(list, newLog, TargetIndex(oldLog, newLog, index) + d)
  {
    EntryStaysInSpread(oldLog, newLog, list[i].hash);
    BelongsWhereItIndexes(list, newLog, i);
  }

  lemma {:induction false} BelongsWhereItIndexes(list: seq<Entry>, log: nat, i: nat)
    requires log <= BITS && i < |list|
    ensures list[i] in Belonging(list, log, Index(log, list[i].hash))
  {
    if i > 0 { BelongsWhereItIndexes(list[1..], log, i - 1); }
  }
}
