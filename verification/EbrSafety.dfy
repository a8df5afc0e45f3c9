/**
  What every run of the reclamation protocol keeps, and what that means for a guard.
 */
module EbrSafety {
  import opened Common
  import opened Ebr

  /** `acts` takes `s` to `t`. */
  ghost predicate Executes(s: State, acts: seq<Action>, t: State)
    decreases |acts|
  {
    if acts == [] then s == t
    else Enabled(s, acts[0]) && Executes(Apply(s, acts[0]), acts[1..], t)
  }

  /** The session `n` of `c` is the one in progress. */
  ghost predicate Holds(s: State, c: nat, n: nat) {
    c in s.collectors && s.collectors[c].active && s.collectors[c].session == n
  }

  // ---------------------------------------------------------------- structure

  ghost predicate CollectorOk(s: State, c: nat)
    requires c in s.collectors
  {
    var v := s.collectors[c];
    && (v.active <==> v.readers > 0)
    && (v.active ==> c in s.chain && !v.invalid)
    && (!v.active ==> v.draining == {})
    && (v.loaded.Some? ==> !v.active && !v.invalid && v.loaded.value < 3)
    && (c in s.chain || v.invalid)
    && v.announcement < 3
  }

  ghost predicate Structure(s: State) {
    && s.epochs != [] && s.epoch == s.epochs[|s.epochs| - 1] && s.epoch < 3
    && Distinct(s.chain)
    && (forall c :: c in s.chain ==> c in s.collectors)
    && (forall c :: c in s.collectors ==> CollectorOk(s, c))
    && (forall x :: Exited(x) in s.retired ==>
          x in s.collectors && s.collectors[x].invalid && x !in s.chain)
  }

  ghost predicate ScanOk(s: State) {
    s.scan.Scanning? ==>
      && s.scan.owner in s.collectors && s.collectors[s.scan.owner].active
      && s.scan.known == s.collectors[s.scan.owner].announcement
      && 0 <= ScanPos(s) && s.chain[ScanPos(s)..] == s.scan.rest
      && (s.scan.kept.Some? ==> 0 < ScanPos(s) && s.chain[ScanPos(s) - 1] == s.scan.kept.value)
  }

  /** Every item sits in at most one generation of one collector, or has been freed. */
  ghost predicate Partition(s: State) {
    && (forall c, i :: c in s.collectors && i in Garbage(s.collectors[c]) ==>
          i in s.retired && i !in s.freed)
    && (forall c, d, i ::
          (c in s.collectors && d in s.collectors && c != d && i in Garbage(s.collectors[c])) ==>
          i !in Garbage(s.collectors[d]))
    && (forall c :: c in s.collectors ==> Separate(s.collectors[c]))
    && (forall i :: i in s.freed ==> i in s.retired)
    && s.retired.Keys == s.pins.Keys
  }

  ghost predicate Separate(c: Collector) {
    && c.previous !! c.current !! c.next !! c.draining
  }

  ghost predicate Base(s: State) {
    Structure(s) && ScanOk(s) && Partition(s)
  }

  lemma InitialBase()
    ensures Base(Initial())
  {
  }

  // ---------------------------------------------------------------- steps of one collector

  /** `c` replaced by `v`; the steps of a collector that concern no one else have this form. */
  function WithCollector(s: State, c: nat, v: Collector): State {
    s.(collectors := s.collectors[c := v])
  }

  /** `v` can take the place of `c`: it is in order, holds the same garbage and scans on. */
  ghost predicate Replaces(s: State, c: nat, v: Collector)
    requires c in s.collectors
  {
    && CollectorOk(WithCollector(s, c, v), c)
    && Garbage(v) == Garbage(s.collectors[c]) && Separate(v)
    && (s.collectors[c].invalid ==> v.invalid)
    && (s.scan.Scanning? && s.scan.owner == c ==> v.active && v.announcement == s.scan.known)
  }

  lemma LocalKeeps(s: State, c: nat, v: Collector)
    requires Base(s) && c in s.collectors && Replaces(s, c, v)
    ensures Base(WithCollector(s, c, v))
  {
    LocalStructure(s, c, v);
    SameGarbage(s, WithCollector(s, c, v));
  }

  lemma LocalStructure(s: State, c: nat, v: Collector)
    requires Structure(s) && ScanOk(s) && c in s.collectors && Replaces(s, c, v)
    ensures Structure(WithCollector(s, c, v)) && ScanOk(WithCollector(s, c, v))
  {
    var t := WithCollector(s, c, v);
    forall d | d in t.collectors ensures CollectorOk(t, d) {
      assert CollectorOk(s, d);
    }
  }

  /** The collectors hold the same items as before. */
  lemma SameGarbage(s: State, t: State)
    requires Partition(s) && t.collectors.Keys == s.collectors.Keys
    requires t.retired == s.retired && t.freed == s.freed && t.pins == s.pins
    requires forall d :: d in t.collectors ==>
               Garbage(t.collectors[d]) == Garbage(s.collectors[d]) && Separate(t.collectors[d])
    ensures Partition(t)
  {
  }

  lemma ActivatedGarbage(v: Collector, epoch: nat, shift: bool)
    ensures Garbage(Activated(v, epoch, shift)) == Garbage(v)
    ensures Separate(v) ==> Separate(Activated(v, epoch, shift))
  {
  }

  lemma ActivatedReplaces(s: State, c: nat, epoch: nat, shift: bool)
    requires Base(s) && c in s.collectors && epoch < 3
    requires s.collectors[c].readers == 0 && !s.collectors[c].invalid
    ensures Base(WithPublished(s, c, epoch, shift))
  {
    assert CollectorOk(s, c) && Separate(s.collectors[c]);
    var t := WithPublished(s, c, epoch, shift);
    var v := t.collectors[c];
    ActivatedGarbage(s.collectors[c], epoch, shift);
    LocalKeeps(s, c, v);
    assert t.(scan := s.scan) == WithCollector(s, c, v);
  }

  // ---------------------------------------------------------------- steps of the scanner

  /** Unlinking takes exactly the collector under the scanner off the chain. */
  lemma UnlinkPosition(s: State)
    requires Structure(s) && ScanOk(s) && s.scan.Scanning? && s.scan.rest != []
    ensures s.chain[ScanPos(s)] == s.scan.rest[0]
    ensures s.chain[ScanPos(s) + 1..] == s.scan.rest[1..]
    ensures RemoveAt(s.chain, ScanPos(s))[ScanPos(s)..] == s.scan.rest[1..]
  {
    var p := ScanPos(s);
    assert s.chain[p..][0] == s.chain[p];
    assert s.chain[p + 1..] == s.chain[p..][1..];
  }

  lemma StepKeeps(s: State)
    requires Base(s) && s.scan.Scanning? && s.scan.rest != []
    ensures Base(WithStep(s))
  {
    UnlinkPosition(s);
  }

  lemma RetireKeeps(s: State, c: nat, item: Item)
    requires Partition(s) && s.epochs != [] && c in s.collectors && item !in s.retired
    ensures Partition(WithRetired(s, c, item))
  {
    var t := WithRetired(s, c, item);
    var v := s.collectors[c];
    assert Separate(v);
    assert Garbage(t.collectors[c]) == Garbage(v) + {item};
    forall d | d in t.collectors && d != c ensures t.collectors[d] == s.collectors[d] {}
    assert item !in Garbage(v) && item !in s.freed;
  }

  lemma UnlinkKeeps(s: State)
    requires Base(s) && s.scan.Scanning? && s.scan.rest != []
    requires s.collectors[s.scan.rest[0]].invalid && s.scan.rest[0] != s.scan.owner
    ensures Base(WithUnlinked(s))
  {
    UnlinkKeepsPartition(s);
    UnlinkKeepsStructure(s);
    UnlinkPosition(s);
  }

  lemma UnlinkKeepsPartition(s: State)
    requires Base(s) && s.scan.Scanning? && s.scan.rest != []
    ensures Partition(WithUnlinked(s))
  {
    var x := s.scan.rest[0];
    UnlinkPosition(s);
    assert x in s.chain;
    RetireKeeps(s, s.scan.owner, Exited(x));
    var m := WithRetired(s, s.scan.owner, Exited(x));
    forall d | d in m.collectors ensures Separate(m.collectors[d]) {}
    SameGarbage(m, WithUnlinked(s));
  }

  lemma UnlinkKeepsStructure(s: State)
    requires Base(s) && s.scan.Scanning? && s.scan.rest != []
    requires s.collectors[s.scan.rest[0]].invalid && s.scan.rest[0] != s.scan.owner
    ensures Structure(WithUnlinked(s))
  {
    var p := ScanPos(s);
    UnlinkPosition(s);
    var t := WithUnlinked(s);
    RemoveMembers(s.chain, p);
    forall d | d in t.collectors ensures CollectorOk(t, d) {
      assert CollectorOk(s, d);
    }
  }

  lemma RemoveMembers(s: seq<nat>, p: nat)
    requires p < |s| && Distinct(s)
    ensures Distinct(RemoveAt(s, p))
    ensures forall c :: c in RemoveAt(s, p) <==> c in s && c != s[p]
  {
    var r := RemoveAt(s, p);
    forall c | c in s && c != s[p] ensures c in r {
      var i :| 0 <= i < |s| && s[i] == c;
      assert c == if i < p then r[i] else r[i - 1];
    }
  }

  lemma VisitKeeps(s: State)
    requires Base(s) && Enabled(s, Visit)
    ensures Base(Visited(s))
  {
    var x := s.scan.rest[0];
    if x == s.scan.owner {
      StepKeeps(s);
    } else if s.collectors[x].invalid {
      if Unlinkable(s) { UnlinkKeeps(s); } else { StepKeeps(s); }
    } else if !(s.collectors[x].active && s.collectors[x].announcement != s.scan.known) {
      StepKeeps(s);
    }
  }

  // ---------------------------------------------------------------- the other steps

  lemma AllocKeeps(s: State, c: nat)
    requires Base(s) && c !in s.collectors
    ensures Base(s.(collectors := s.collectors[c := NewCollector()], chain := [c] + s.chain))
  {
    var t := s.(collectors := s.collectors[c := NewCollector()], chain := [c] + s.chain);
    forall d | d in t.collectors ensures CollectorOk(t, d) {
      if d != c { assert CollectorOk(s, d); }
    }
    if s.scan.Scanning? {
      assert t.chain[ScanPos(t)..] == s.chain[ScanPos(s)..];
    }
    assert forall i :: i !in Garbage(t.collectors[c]);
  }

  lemma FreeKeepsStructure(s: State, c: nat, item: Item)
    requires Structure(s) && ScanOk(s) && c in s.collectors && s.collectors[c].active
    requires item.Exited? ==> item.collector in s.collectors && item.collector != c
    ensures Structure(WithFreed(s, c, item)) && ScanOk(WithFreed(s, c, item))
  {
    var t := WithFreed(s, c, item);
    forall d | d in t.collectors ensures CollectorOk(t, d) {
      assert CollectorOk(s, d);
    }
  }

  lemma FreeInstancePartition(s: State, c: nat, item: Item)
    requires Partition(s) && c in s.collectors && item in s.collectors[c].draining && item.Instance?
    ensures Partition(WithFreed(s, c, item))
  {
    var t := WithFreed(s, c, item);
    var from := s.collectors[c];
    assert Separate(from) && item in Garbage(from);
    assert Garbage(t.collectors[c]) == Garbage(from) - {item};
    assert forall d :: d in t.collectors && d != c ==> t.collectors[d] == s.collectors[d];
  }

  lemma FreeExitedPartition(s: State, c: nat, x: nat)
    requires Partition(s) && c in s.collectors && x in s.collectors && x != c
    requires Exited(x) in s.collectors[c].draining
    ensures Partition(WithFreed(s, c, Exited(x)))
  {
    var t := WithFreed(s, c, Exited(x));
    var from, gone := s.collectors[c], s.collectors[x];
    assert Separate(from);
    forall i | i in Garbage(from) ensures i !in Garbage(gone) {}
    assert Garbage(t.collectors[c]) == Garbage(from) - {Exited(x)} + Garbage(gone);
    assert Garbage(t.collectors[x]) == {};
    assert forall d :: d in t.collectors && d != c && d != x ==> t.collectors[d] == s.collectors[d];
  }

  lemma FreeExitedKeeps(s: State, c: nat, x: nat)
    requires Base(s) && c in s.collectors && Exited(x) in s.collectors[c].draining
    requires s.collectors[c].active
    ensures x in s.collectors && x != c
    ensures Partition(WithFreed(s, c, Exited(x)))
  {
    assert CollectorOk(s, c) && Exited(x) in Garbage(s.collectors[c]);
    assert CollectorOk(s, x);
    FreeExitedPartition(s, c, x);
  }

  lemma BaseKept(s: State, a: Action)
    requires Base(s) && Enabled(s, a)
    ensures Base(Apply(s, a))
  {
    match a
    case Alloc(c) => AllocKeeps(s, c);
    case Activate(c, shift) => ActivatedReplaces(s, c, s.epoch, shift);
    case Publish(c, shift) =>
      assert CollectorOk(s, c);
      ActivatedReplaces(s, c, s.collectors[c].loaded.value, shift);
    case Retire(c, id) => RetireKeeps(s, c, Instance(id)); RetireKeepsStructure(s, c, id);
    case Visit => VisitKeeps(s);
    case BeginScan(_) =>
      BeginKeeps(s, a);
    case EndScan => EndKeeps(s);
    case Free(c, item) =>
      assert CollectorOk(s, c);
      if item.Instance? { FreeInstancePartition(s, c, item); } else { FreeExitedKeeps(s, c, item.collector); }
      FreeKeepsStructure(s, c, item);
    case _ => PlainKeeps(s, a);
  }

  lemma PlainKeeps(s: State, a: Action)
    requires Base(s) && Enabled(s, a)
    requires a.Load? || a.Nest? || a.Unnest? || a.EndGuard? || a.Invalidate?
    ensures Base(Apply(s, a))
  {
    var v := Apply(s, a).collectors[a.c];
    assert CollectorOk(s, a.c);
    LocalKeeps(s, a.c, v);
  }

  lemma RetireKeepsStructure(s: State, c: nat, id: nat)
    requires Base(s) && c in s.collectors
    ensures Structure(WithRetired(s, c, Instance(id))) && ScanOk(WithRetired(s, c, Instance(id)))
  {
    var t := WithRetired(s, c, Instance(id));
    forall d | d in t.collectors ensures CollectorOk(t, d) {
      assert CollectorOk(s, d);
    }
  }

  lemma BeginKeeps(s: State, a: Action)
    requires Base(s) && Enabled(s, a) && a.BeginScan?
    ensures Base(Apply(s, a))
  {
    assert CollectorOk(s, a.c);
    assert s.chain[0..] == s.chain;
  }

  lemma EndKeeps(s: State)
    requires Base(s) && Enabled(s, EndScan)
    ensures Base(Apply(s, EndScan))
  {
    var t := Apply(s, EndScan);
    forall d | d in t.collectors ensures CollectorOk(t, d) {
      assert CollectorOk(s, d);
    }
  }

  // ---------------------------------------------------------------- runs

  lemma {:induction false} RunsKeepBase(s: State, acts: seq<Action>, t: State)
    requires Base(s) && Executes(s, acts, t)
    ensures Base(t)
    decreases |acts|
  {
    if acts != [] {
      BaseKept(s, acts[0]);
      RunsKeepBase(Apply(s, acts[0]), acts[1..], t);
    }
  }

  /**
    Over any run, whether or not activation is one step: nothing is dropped twice, and the list that
    scanners walk holds no collector that has been retired, let alone dropped.
   */
  lemma NothingFreedTwice(s: State, acts: seq<Action>, t: State, c: nat, item: Item)
    requires Base(s) && Executes(s, acts, t) && Enabled(t, Free(c, item))
    ensures item !in t.freed
    ensures forall x :: Exited(x) in t.retired ==>
              x !in t.chain && (t.scan.Scanning? ==> x !in t.scan.rest && t.scan.kept != Some(x))
  {
    RunsKeepBase(s, acts, t);
    assert item in Garbage(t.collectors[c]);
    if t.scan.Scanning? {
      assert forall x :: x in t.scan.rest ==> x in t.chain;
    }
  }
}
