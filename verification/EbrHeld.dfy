/**
  Nothing that has been retired is forgotten: until it is freed, some collector holds it, and a
  collector that scanners cannot see any more has itself been retired.
 */
module EbrHeld {
  import opened Common
  import opened Ebr
  import opened EbrSafety

  ghost predicate HeldBy(s: State, c: nat, i: Item) {
    c in s.collectors && i in Garbage(s.collectors[c])
  }

  ghost predicate NoneForgotten(s: State) {
    forall i :: i in s.retired && i !in s.freed ==> exists c :: HeldBy(s, c, i)
  }

  ghost predicate AllListed(s: State) {
    forall c :: c in s.collectors ==> c in s.chain || Exited(c) in s.retired
  }

  ghost predicate Held(s: State) {
    NoneForgotten(s) && AllListed(s)
  }

  /** No collector holds less than before, and nothing new has been retired or freed. */
  ghost predicate KeepsAll(s: State, t: State) {
    && s.retired == t.retired && s.freed == t.freed && s.chain == t.chain
    && s.collectors.Keys == t.collectors.Keys
    && forall c :: c in s.collectors ==> Garbage(s.collectors[c]) <= Garbage(t.collectors[c])
  }

  lemma KeepsAllKeeps(s: State, t: State)
    requires Held(s) && KeepsAll(s, t)
    ensures Held(t)
  {
    forall i | i in t.retired && i !in t.freed ensures exists c :: HeldBy(t, c, i) {
      var c :| HeldBy(s, c, i);
      assert HeldBy(t, c, i);
    }
  }

  lemma PublishKeeps(s: State, c: nat, epoch: nat, shift: bool)
    requires Held(s) && c in s.collectors && s.epochs != []
    ensures Held(WithPublished(s, c, epoch, shift))
  {
    var t := WithPublished(s, c, epoch, shift);
    assert Garbage(t.collectors[c]) == Garbage(s.collectors[c]);
    KeepsAllKeeps(s, t);
  }

  lemma AllocKeeps(s: State, c: nat)
    requires Held(s) && Enabled(s, Alloc(c))
    ensures Held(Apply(s, Alloc(c)))
  {
    var t := Apply(s, Alloc(c));
    forall i | i in t.retired && i !in t.freed ensures exists d :: HeldBy(t, d, i) {
      var d :| HeldBy(s, d, i);
      assert HeldBy(t, d, i);
    }
  }

  lemma RetireKeeps(s: State, c: nat, item: Item)
    requires Held(s) && c in s.collectors && s.epochs != []
    ensures Held(WithRetired(s, c, item))
  {
    var t := WithRetired(s, c, item);
    forall i | i in t.retired && i !in t.freed ensures exists d :: HeldBy(t, d, i) {
      if i == item {
        assert HeldBy(t, c, i);
      } else {
        var d :| HeldBy(s, d, i);
        assert HeldBy(t, d, i);
      }
    }
  }

  lemma UnlinkKeeps(s: State)
    requires Base(s) && Held(s) && s.scan.Scanning? && s.scan.rest != []
    ensures Held(WithUnlinked(s))
  {
    var x := s.scan.rest[0];
    var m, t := WithRetired(s, s.scan.owner, Exited(x)), WithUnlinked(s);
    RetireKeeps(s, s.scan.owner, Exited(x));
    forall i | i in t.retired && i !in t.freed ensures exists d :: HeldBy(t, d, i) {
      assert i in m.retired && i !in m.freed;
      var d :| HeldBy(m, d, i);
      assert HeldBy(t, d, i);
    }
    assert s.chain[ScanPos(s)..][0] == x;
    forall c | c in t.collectors ensures c in t.chain || Exited(c) in t.retired {
      if c in s.chain && c != x { OthersStay(s.chain, ScanPos(s), c); }
    }
  }

  lemma OthersStay(chain: seq<nat>, p: nat, c: nat)
    requires p < |chain| && c in chain && c != chain[p]
    ensures c in RemoveAt(chain, p)
  {
    var k :| 0 <= k < |chain| && chain[k] == c;
    assert RemoveAt(chain, p)[if k < p then k else k - 1] == c;
  }

  lemma VisitKeeps(s: State)
    requires Base(s) && Held(s) && Enabled(s, Visit)
    ensures Held(Visited(s))
  {
    var x := s.scan.rest[0];
    if x != s.scan.owner && s.collectors[x].invalid && Unlinkable(s) {
      UnlinkKeeps(s);
    } else {
      KeepsAllKeeps(s, Visited(s));
    }
  }

  lemma FreeKeeps(s: State, c: nat, item: Item)
    requires Base(s) && Held(s) && Enabled(s, Free(c, item))
    ensures Held(WithFreed(s, c, item))
  {
    var t := WithFreed(s, c, item);
    assert CollectorOk(s, c);
    forall i | i in t.retired && i !in t.freed ensures exists d :: HeldBy(t, d, i) {
      var d :| HeldBy(s, d, i);
      // What a dropped collector held passes to the one that drops it.
      assert HeldBy(t, if item == Exited(d) then c else d, i);
    }
  }

  lemma OwnStepKeeps(s: State, a: Action)
    requires Held(s) && Enabled(s, a)
    requires a.Load? || a.Nest? || a.Unnest? || a.BeginScan? || a.EndScan? || a.EndGuard? || a.Invalidate?
    ensures Held(Apply(s, a))
  {
    KeepsAllKeeps(s, Apply(s, a));
  }

  lemma HeldKept(s: State, a: Action)
    requires Base(s) && Held(s) && Enabled(s, a)
    ensures Held(Apply(s, a))
  {
    match a
    case Alloc(c) => AllocKeeps(s, c);
    case Activate(c, shift) => PublishKeeps(s, c, s.epoch, shift);
    case Publish(c, shift) =>
      PublishKeeps(s, c, s.collectors[c].loaded.value, shift);
    case Retire(c, id) => RetireKeeps(s, c, Instance(id));
    case Visit => VisitKeeps(s);
    case Free(c, item) => FreeKeeps(s, c, item);
    case _ => OwnStepKeeps(s, a);
  }

  lemma {:induction false} RunsKeepHeld(s: State, acts: seq<Action>, t: State)
    requires Base(s) && Held(s) && Executes(s, acts, t)
    ensures Base(t) && Held(t)
    decreases |acts|
  {
    if acts != [] {
      BaseKept(s, acts[0]);
      HeldKept(s, acts[0]);
      RunsKeepHeld(Apply(s, acts[0]), acts[1..], t);
    }
  }

  /**
    Over any run an item is retired exactly if it has been freed or some collector holds it, never
    both, and no two collectors hold it. A collector is on the list or has been retired, never both.
   */
  lemma RetiredIsHeldOnce(acts: seq<Action>, t: State, i: Item, c: nat)
    requires Executes(Initial(), acts, t)
    ensures i in t.retired <==> i in t.freed || exists d :: HeldBy(t, d, i)
    ensures i in t.freed ==> forall d :: !HeldBy(t, d, i)
    ensures forall d, e :: HeldBy(t, d, i) && HeldBy(t, e, i) ==> d == e
    ensures c in t.collectors ==> (c in t.chain <==> Exited(c) !in t.retired)
  {
    InitialBase();
    RunsKeepHeld(Initial(), acts, t);
  }

  /** A scan can always go on, a loaded epoch be published, and what is up for dropping be dropped. */
  lemma NeverBlocked(acts: seq<Action>, s: State, c: nat, item: Item)
    requires Executes(Initial(), acts, s) && c in s.collectors
    ensures s.scan.Scanning? ==> Enabled(s, if s.scan.rest == [] then EndScan else Visit)
    ensures s.collectors[c].loaded.Some? ==> forall shift :: Enabled(s, Publish(c, shift))
    ensures item in s.collectors[c].draining ==> Enabled(s, Free(c, item))
  {
    InitialBase();
    RunsKeepBase(Initial(), acts, s);
    assert CollectorOk(s, c);
    if s.scan.Scanning? && s.scan.rest != [] {
      UnlinkPosition(s);
      assert s.scan.rest[0] in s.chain;
    }
    if item in s.collectors[c].draining { assert item in Garbage(s.collectors[c]); }
  }
}
