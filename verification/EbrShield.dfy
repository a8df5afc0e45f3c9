/**
  What outlives which guards when loading EPOCH and storing `state` are two steps.

  While a collector `d` is active, EPOCH takes three values at most: the one it has, the one that a
  scan stores which had passed `d` before `d` was published, and the one behind what `d` announces. A
  collector that holds an item has to announce another epoch three times before it drops the item.
  `Turns` counts how often it still can.
 */
module EbrShield {
  import opened Common
  import opened Ebr
  import opened EbrSafety
  import opened EbrSplit

  // ---------------------------------------------------------------- turns

  function Differ(x: nat, y: nat): nat { if x == y then 0 else 1 }

  function Max(x: nat, y: nat): nat { if x < y then y else x }

  /** A scan is under way that has passed `d` before `d` was published. */
  predicate Open(s: State, d: nat) {
    s.scan.Scanning? && d in s.scan.late && d !in s.scan.rest
  }

  /** What a collector is going to announce if it publishes what it has loaded. */
  function Loaded(v: Collector): nat {
    if v.loaded.Some? then v.loaded.value else v.announcement
  }

  /** How often the announcement can still change along the values EPOCH is going to take. */
  function TurnsFrom(start: nat, epoch: nat, stored: Option<nat>, last: nat, own: bool): nat {
    if stored.None? then Differ(start, epoch) + Differ(epoch, last)
    // A scanner does not load before its own scan has ended.
    else if own then
      Max(Differ(start, stored.value) + Differ(stored.value, last), Differ(start, epoch) + Differ(epoch, last))
    else Differ(start, epoch) + Differ(epoch, stored.value) + Differ(stored.value, last)
  }

  /** How often `h` can still announce another epoch while `d` stays active. */
  function Turns(s: State, h: nat, d: nat): nat
    requires h in s.collectors && d in s.collectors
  {
    var v := s.collectors[h];
    Differ(v.announcement, Loaded(v))
    + TurnsFrom(Loaded(v), s.epoch, if Open(s, d) then Some(NextEpoch(s.scan.known)) else None,
                NextEpoch(s.collectors[d].announcement), s.scan.Scanning? && s.scan.owner == h)
  }

  // ---------------------------------------------------------------- what is kept

  /** Collector `h` cannot drop `i` while `d` stays active. */
  ghost predicate Slow(s: State, h: nat, d: nat, i: Item)
    requires h in s.collectors && d in s.collectors
  {
    var v := s.collectors[h];
    && i !in v.draining
    && (if h == d then i in v.current
        else
          && (i in v.current ==> Turns(s, h, d) <= 2)
          && (i in v.previous ==> Turns(s, h, d) <= 1)
          && (i in v.next ==> Turns(s, h, d) == 0))
  }

  /** `i` was retired in session `n` of `d`, which is not over, and this is in `w` or `i` is a collector. */
  ghost predicate Watched(s: State, w: set<(Item, nat, nat)>, i: Item, d: nat, n: nat) {
    ((i, d, n) in w || i.Exited?) && i in s.pins && (d, n) in s.pins[i] && Holds(s, d, n)
  }

  ghost predicate Shielded(s: State, w: set<(Item, nat, nat)>) {
    forall i, d, n, h :: Watched(s, w, i, d, n) && h in s.collectors && i in Garbage(s.collectors[h]) ==>
      Slow(s, h, d, i)
  }

  ghost predicate NoneFreed(s: State, w: set<(Item, nat, nat)>) {
    forall i, d, n :: Watched(s, w, i, d, n) ==> i !in s.freed
  }

  /** What an exited collector holds is pinned by no guard that does not pin the collector. */
  ghost predicate Inherited(s: State) {
    forall x, i, d, n ::
      (Exited(x) in s.pins && x in s.collectors && i in Garbage(s.collectors[x])
       && i in s.pins && (d, n) in s.pins[i] && Holds(s, d, n)) ==> (d, n) in s.pins[Exited(x)]
  }

  ghost predicate PinsPast(s: State) {
    forall i, d, n :: i in s.pins && (d, n) in s.pins[i] ==> d in s.collectors && n <= s.collectors[d].session
  }

  ghost predicate Guarded(s: State, w: set<(Item, nat, nat)>) {
    Shielded(s, w) && NoneFreed(s, w) && Inherited(s) && PinsPast(s)
  }

  ghost predicate Inv(s: State, w: set<(Item, nat, nat)>) {
    Base(s) && AllBounded(s) && Guarded(s, w)
  }

  // ---------------------------------------------------------------- steps that move no item

  ghost predicate SameItems(v: Collector, u: Collector) {
    v.current == u.current && v.previous == u.previous && v.next == u.next && v.draining == u.draining
  }

  /** No item moves, no session begins, and nobody can announce more often than before. */
  ghost predicate Calm(s: State, t: State) {
    && t.pins == s.pins && t.freed == s.freed && s.collectors.Keys <= t.collectors.Keys
    && (forall h :: h in s.collectors ==> SameItems(s.collectors[h], t.collectors[h]))
    && (forall h :: h in t.collectors && h !in s.collectors ==> Garbage(t.collectors[h]) == {})
    && (forall d :: d in s.collectors ==> t.collectors[d].session == s.collectors[d].session)
    && (forall d, n :: Holds(t, d, n) ==> Holds(s, d, n))
    && (forall h, d :: h in s.collectors && d in s.collectors && t.collectors[d].active ==>
          Turns(t, h, d) <= Turns(s, h, d))
  }

  lemma CalmKeeps(s: State, t: State, w: set<(Item, nat, nat)>)
    requires Guarded(s, w) && Calm(s, t)
    ensures Guarded(t, w)
  {
    forall i, d, n | Watched(t, w, i, d, n) ensures Watched(s, w, i, d, n) {}
    forall i, d, n, h | Watched(t, w, i, d, n) && h in t.collectors && i in Garbage(t.collectors[h])
      ensures Slow(t, h, d, i)
    {
      assert h in s.collectors && SameItems(s.collectors[h], t.collectors[h]);
      assert Slow(s, h, d, i);
      assert Turns(t, h, d) <= Turns(s, h, d);
    }
    forall x, i, d, n | Exited(x) in t.pins && x in t.collectors && i in Garbage(t.collectors[x])
      && i in t.pins && (d, n) in t.pins[i] && Holds(t, d, n)
      ensures (d, n) in t.pins[Exited(x)]
    {
      assert x in s.collectors && SameItems(s.collectors[x], t.collectors[x]);
    }
  }

  /** A collector that only counts its readers, stops or is given up. */
  lemma OwnStepCalm(s: State, a: Action)
    requires Base(s) && Enabled(s, a) && (a.Nest? || a.Unnest? || a.EndGuard? || a.Invalidate?)
    ensures Calm(s, Apply(s, a))
  {
    var t := Apply(s, a);
    var v, u := s.collectors[a.c], t.collectors[a.c];
    assert t == WithCollector(s, a.c, u) && SameItems(v, u);
    assert u.announcement == v.announcement && u.loaded == v.loaded && u.session == v.session && (u.active ==> v.active);
    OwnCalm(s, a.c, u);
  }

  lemma OwnCalm(s: State, c: nat, u: Collector)
    requires c in s.collectors && SameItems(s.collectors[c], u) && u.announcement == s.collectors[c].announcement
    requires u.loaded == s.collectors[c].loaded && u.session == s.collectors[c].session && (u.active ==> s.collectors[c].active)
    ensures Calm(s, WithCollector(s, c, u))
  {
    var t := WithCollector(s, c, u);
    forall h, d | h in s.collectors && d in s.collectors ensures Turns(t, h, d) == Turns(s, h, d) {}
  }

  lemma LoadCalm(s: State, c: nat)
    requires Base(s) && Enabled(s, Load(c))
    ensures Calm(s, Apply(s, Load(c)))
  {
    var t := Apply(s, Load(c));
    assert CollectorOk(s, c);
    forall h, d | h in s.collectors && d in s.collectors ensures Turns(t, h, d) <= Turns(s, h, d) {}
  }

  lemma AllocCalm(s: State, c: nat)
    requires Base(s) && Enabled(s, Alloc(c))
    ensures Calm(s, Apply(s, Alloc(c)))
  {
    var t := Apply(s, Alloc(c));
    forall h, d | h in s.collectors && d in s.collectors ensures Turns(t, h, d) == Turns(s, h, d) {}
  }

  lemma BeginCalm(s: State, c: nat)
    requires Base(s) && Enabled(s, BeginScan(c))
    ensures Calm(s, Apply(s, BeginScan(c)))
  {
    var t := Apply(s, BeginScan(c));
    forall h, d | h in s.collectors && d in s.collectors ensures Turns(t, h, d) == Turns(s, h, d) {}
  }

  /** A finished scan stores an epoch that has been counted. */
  lemma EndScanCalm(s: State)
    requires Base(s) && AllBounded(s) && Enabled(s, EndScan)
    ensures Calm(s, Apply(s, EndScan))
  {
    var t := Apply(s, EndScan);
    forall h, d | h in s.collectors && d in s.collectors && t.collectors[d].active
      ensures Turns(t, h, d) <= Turns(s, h, d)
    {
      assert Bounded(s, d);
    }
  }

  /** The scan goes on behind a collector it does not unlink, or gives up. */
  lemma PassCalm(s: State, t: State)
    requires s.scan.Scanning? && s.scan.rest != []
    requires t == s.(scan := t.scan, chain := t.chain)
    requires t.scan.Scanning? ==>
               && t.scan == s.scan.(rest := s.scan.rest[1..], kept := t.scan.kept)
               && s.scan.rest[0] in s.collectors
               && var x := s.collectors[s.scan.rest[0]]; (x.active ==> x.announcement == s.scan.known)
    ensures Calm(s, t)
  {
    assert s.scan.rest == [s.scan.rest[0]] + s.scan.rest[1..];
    forall h, d | h in s.collectors && d in s.collectors && t.collectors[d].active
      ensures Turns(t, h, d) <= Turns(s, h, d)
    {
    }
  }

  // ---------------------------------------------------------------- activation

  lemma PublishSlow(s: State, c: nat, epoch: nat, shift: bool, h: nat, d: nat, i: Item)
    requires c in s.collectors && d in s.collectors && h in s.collectors && d != c && s.epochs != []
    requires !s.collectors[c].active && s.collectors[c].draining == {}
    requires epoch == if s.collectors[c].loaded.Some? then s.collectors[c].loaded.value else s.epoch
    requires s.scan.Scanning? ==> s.scan.owner != c
    requires Slow(s, h, d, i) && i in Garbage(s.collectors[h])
    ensures Slow(WithPublished(s, c, epoch, shift), h, d, i)
  {
    var t := WithPublished(s, c, epoch, shift);
    assert Open(t, d) == Open(s, d);
    if h != c { assert Turns(t, h, d) == Turns(s, h, d); }
  }

  lemma PublishKeeps(s: State, c: nat, epoch: nat, shift: bool, w: set<(Item, nat, nat)>)
    requires Base(s) && Guarded(s, w) && c in s.collectors && !s.collectors[c].active && !s.collectors[c].invalid
    requires epoch == if s.collectors[c].loaded.Some? then s.collectors[c].loaded.value else s.epoch
    ensures Guarded(WithPublished(s, c, epoch, shift), w)
  {
    var t := WithPublished(s, c, epoch, shift);
    assert CollectorOk(s, c);
    ActivatedGarbage(s.collectors[c], epoch, shift);
    forall h | h in s.collectors ensures Garbage(t.collectors[h]) == Garbage(s.collectors[h]) {}
    forall i, d, n | i in t.pins && (d, n) in t.pins[i] && Holds(t, d, n) ensures d != c && Holds(s, d, n) {}
    forall i, d, n, h | Watched(t, w, i, d, n) && h in t.collectors && i in Garbage(t.collectors[h])
      ensures Slow(t, h, d, i)
    {
      assert Watched(s, w, i, d, n);
      PublishSlow(s, c, epoch, shift, h, d, i);
    }
    forall i, d, n | Watched(t, w, i, d, n) ensures i !in t.freed { assert Watched(s, w, i, d, n); }
  }

  // ---------------------------------------------------------------- retiring

  /** What `c` retires is shielded from its dropping as long as `d` is active. */
  ghost predicate OutOfReach(s: State, c: nat, d: nat)
    requires c in s.collectors && d in s.collectors
  {
    c == d || Turns(s, c, d) <= 2
  }

  lemma RetireShielded(s: State, c: nat, item: Item, w: set<(Item, nat, nat)>)
    requires Base(s) && Guarded(s, w) && c in s.collectors && item !in s.retired
    requires forall d ::
               (d in s.collectors && s.collectors[d].active && ((item, d, s.collectors[d].session) in w || item.Exited?)) ==>
               OutOfReach(s, c, d)
    ensures Shielded(WithRetired(s, c, item), w) && NoneFreed(WithRetired(s, c, item), w)
    ensures PinsPast(WithRetired(s, c, item))
  {
    var t := WithRetired(s, c, item);
    forall h, d | h in s.collectors && d in s.collectors ensures Turns(t, h, d) == Turns(s, h, d) {}
    forall i, d, n, h | Watched(t, w, i, d, n) && h in t.collectors && i in Garbage(t.collectors[h])
      ensures Slow(t, h, d, i)
    {
      if i != item {
        assert Watched(s, w, i, d, n) && i in Garbage(s.collectors[h]);
      } else {
        assert i !in Garbage(s.collectors[h]);
      }
    }
    forall i, d, n | Watched(t, w, i, d, n) ensures i !in t.freed {
      if i != item { assert Watched(s, w, i, d, n); }
    }
  }

  lemma RetireInherited(s: State, c: nat, item: Item)
    requires Base(s) && Inherited(s) && c in s.collectors && s.collectors[c].active && item !in s.retired
    ensures Inherited(WithRetired(s, c, item))
  {
    var t := WithRetired(s, c, item);
    assert CollectorOk(s, c);
    forall x, i, d, n | Exited(x) in t.pins && x in t.collectors && i in Garbage(t.collectors[x])
      && i in t.pins && (d, n) in t.pins[i] && Holds(t, d, n)
      ensures (d, n) in t.pins[Exited(x)]
    {
      assert Holds(s, d, n);
      if Exited(x) == item {
        assert (d, n) in ActiveSessions(s);
      } else {
        assert x != c && i in Garbage(s.collectors[x]) && i != item;
      }
    }
  }

  lemma RetireKeeps(s: State, c: nat, item: Item, w: set<(Item, nat, nat)>)
    requires Base(s) && Guarded(s, w) && c in s.collectors && s.collectors[c].active && item !in s.retired
    requires forall d ::
               (d in s.collectors && s.collectors[d].active && ((item, d, s.collectors[d].session) in w || item.Exited?)) ==>
               OutOfReach(s, c, d)
    ensures Guarded(WithRetired(s, c, item), w)
  {
    RetireShielded(s, c, item, w);
    RetireInherited(s, c, item);
  }

  /** A scanner loads only after its scan, when at most two values are left for EPOCH to take. */
  lemma ScannerIsSlow(s: State, d: nat)
    requires Base(s) && s.scan.Scanning? && d in s.collectors
    ensures OutOfReach(s, s.scan.owner, d)
  {
    assert CollectorOk(s, s.scan.owner);
  }

  lemma VisitKeeps(s: State, w: set<(Item, nat, nat)>)
    requires Base(s) && Guarded(s, w) && Enabled(s, Visit)
    ensures Guarded(Visited(s), w)
  {
    var x := s.scan.rest[0];
    UnlinkPosition(s);
    assert x in s.chain && CollectorOk(s, x);
    if x != s.scan.owner && s.collectors[x].invalid && Unlinkable(s) {
      forall d | d in s.collectors ensures OutOfReach(s, s.scan.owner, d) { ScannerIsSlow(s, d); }
      RetireKeeps(s, s.scan.owner, Exited(x), w);
      var m := WithRetired(s, s.scan.owner, Exited(x));
      PassCalm(m, Visited(s));
      CalmKeeps(m, Visited(s), w);
    } else {
      PassCalm(s, Visited(s));
      CalmKeeps(s, Visited(s), w);
    }
  }

  // ---------------------------------------------------------------- dropping

  /** No guard in progress pins what is being dropped, nor what comes with it. */
  lemma DropsUnwatched(s: State, c: nat, item: Item, w: set<(Item, nat, nat)>, i: Item, d: nat, n: nat)
    requires Base(s) && Guarded(s, w) && Enabled(s, Free(c, item))
    requires i == item || (item.Exited? && i in Garbage(s.collectors[item.collector]))
    ensures !Watched(s, w, i, d, n)
  {
    assert item in Garbage(s.collectors[c]);
    var slow := d in s.collectors && Slow(s, c, d, item);
    assert !slow;
    assert Watched(s, w, item, d, n) ==> slow;
    assert Watched(s, w, i, d, n) ==> Watched(s, w, item, d, n);
  }

  lemma FreeShielded(s: State, c: nat, item: Item, w: set<(Item, nat, nat)>)
    requires Base(s) && Guarded(s, w) && Enabled(s, Free(c, item))
    requires item.Exited? ==> item.collector != c
    ensures Shielded(WithFreed(s, c, item), w) && NoneFreed(WithFreed(s, c, item), w)
  {
    var t := WithFreed(s, c, item);
    forall h, d | h in s.collectors && d in s.collectors ensures Turns(t, h, d) == Turns(s, h, d) {}
    forall i, d, n | Watched(t, w, i, d, n) ensures Watched(s, w, i, d, n) && i !in t.freed {
      assert Watched(s, w, i, d, n);
      if i == item { DropsUnwatched(s, c, item, w, i, d, n); }
    }
    forall i, d, n, h | Watched(t, w, i, d, n) && h in t.collectors && i in Garbage(t.collectors[h])
      ensures Slow(t, h, d, i)
    {
      if item.Exited? && i in Garbage(s.collectors[item.collector]) {
        DropsUnwatched(s, c, item, w, i, d, n);
      }
      assert i in Garbage(s.collectors[h]) && Slow(s, h, d, i);
    }
  }

  lemma FreeInherited(s: State, c: nat, item: Item)
    requires Base(s) && Inherited(s) && Enabled(s, Free(c, item))
    ensures Inherited(WithFreed(s, c, item))
  {
    var t := WithFreed(s, c, item);
    assert CollectorOk(s, c);
    forall x, i, d, n | Exited(x) in t.pins && x in t.collectors && i in Garbage(t.collectors[x])
      && i in t.pins && (d, n) in t.pins[i] && Holds(t, d, n)
      ensures (d, n) in t.pins[Exited(x)]
    {
      assert x != c && Holds(s, d, n);
      assert i in Garbage(s.collectors[x]);
    }
  }

  lemma FreeKeeps(s: State, c: nat, item: Item, w: set<(Item, nat, nat)>)
    requires Base(s) && Guarded(s, w) && Enabled(s, Free(c, item))
    ensures Guarded(WithFreed(s, c, item), w)
  {
    assert CollectorOk(s, c) && item in Garbage(s.collectors[c]);
    assert item.Exited? ==> CollectorOk(s, item.collector) && item.collector != c;
    FreeShielded(s, c, item, w);
    FreeInherited(s, c, item);
  }

  // ---------------------------------------------------------------- every step

  lemma CalmStepKeeps(s: State, a: Action, w: set<(Item, nat, nat)>)
    requires Inv(s, w) && Enabled(s, a)
    requires !a.Activate? && !a.Publish? && !a.Retire? && !a.Visit? && !a.Free?
    ensures Guarded(Apply(s, a), w)
  {
    var t := Apply(s, a);
    if a.Alloc? {
      AllocCalm(s, a.c);
    } else if a.Load? {
      LoadCalm(s, a.c);
    } else if a.BeginScan? {
      BeginCalm(s, a.c);
    } else if a.EndScan? {
      EndScanCalm(s);
    } else {
      OwnStepCalm(s, a);
    }
    CalmKeeps(s, t, w);
  }

  lemma InvKept(s: State, a: Action, w: set<(Item, nat, nat)>)
    requires Inv(s, w) && Enabled(s, a)
    requires a.Retire? ==> forall d ::
               (d in s.collectors && s.collectors[d].active && (Instance(a.id), d, s.collectors[d].session) in w) ==>
               OutOfReach(s, a.c, d)
    ensures Inv(Apply(s, a), w)
  {
    BaseKept(s, a);
    BoundedKept(s, a);
    match a
    case Activate(c, shift) =>
      assert CollectorOk(s, c);
      PublishKeeps(s, c, s.epoch, shift, w);
    case Publish(c, shift) =>
      assert CollectorOk(s, c);
      PublishKeeps(s, c, s.collectors[c].loaded.value, shift, w);
    case Retire(c, id) =>
      assert CollectorOk(s, c);
      RetireKeeps(s, c, Instance(id), w);
    case Visit => VisitKeeps(s, w);
    case Free(c, item) => FreeKeeps(s, c, item, w);
    case _ => CalmStepKeeps(s, a, w);
  }

  /** An item can be retired only once. */
  lemma {:induction false} RunsKeepInv(s: State, acts: seq<Action>, t: State, w: set<(Item, nat, nat)>)
    requires Inv(s, w) && Executes(s, acts, t) && forall i, d, n :: (i, d, n) in w ==> i in s.retired
    ensures Inv(t, w)
    decreases |acts|
  {
    if acts != [] {
      InvKept(s, acts[0], w);
      RetiredGrows(s, acts[0]);
      RunsKeepInv(Apply(s, acts[0]), acts[1..], t, w);
    }
  }

  lemma RetiredGrows(s: State, a: Action)
    requires Enabled(s, a)
    ensures s.retired.Keys <= Apply(s, a).retired.Keys
  {
  }

  // ---------------------------------------------------------------- runs

  lemma ReachableInv(acts: seq<Action>, s: State)
    requires Executes(Initial(), acts, s)
    ensures Inv(s, {})
  {
    InitialBase();
    RunsKeepInv(Initial(), acts, s, {});
  }

  /** Every exited collector outlives all guards that were active when it was unlinked. */
  lemma ExitedCollectorsOutliveGuards(acts: seq<Action>, t: State, x: nat, d: nat, n: nat)
    requires Executes(Initial(), acts, t) && Exited(x) in t.freed
    requires Exited(x) in t.pins && (d, n) in t.pins[Exited(x)]
    ensures !Holds(t, d, n)
  {
    ReachableInv(acts, t);
    assert Holds(t, d, n) ==> Watched(t, {}, Exited(x), d, n);
  }

  /** An instance retired out of reach of a guard outlives it. */
  lemma RetiredOutOfReach(s: State, c: nat, id: nat, more: seq<Action>, t: State, d: nat, n: nat)
    requires Inv(s, {}) && Enabled(s, Retire(c, id)) && Executes(Apply(s, Retire(c, id)), more, t)
    requires Holds(s, d, n) && OutOfReach(s, c, d)
    ensures Holds(t, d, n) ==> Instance(id) !in t.freed
  {
    var i := Instance(id);
    var w := {(i, d, n)};
    var u := Apply(s, Retire(c, id));
    assert Inv(s, w) by {
      forall j, e, m | Watched(s, w, j, e, m) ensures Watched(s, {}, j, e, m) {}
    }
    InvKept(s, Retire(c, id), w);
    assert (d, n) in ActiveSessions(s);
    PinsStay(u, more, t, i);
    RunsKeepInv(u, more, t, w);
    assert Holds(t, d, n) ==> Watched(t, w, i, d, n);
  }

  lemma {:induction false} PinsStay(s: State, acts: seq<Action>, t: State, i: Item)
    requires Base(s) && Executes(s, acts, t) && i in s.retired
    ensures i in s.pins && i in t.pins && t.pins[i] == s.pins[i]
    decreases |acts|
  {
    if acts != [] {
      BaseKept(s, acts[0]);
      StepPins(s, acts[0], i);
      PinsStay(Apply(s, acts[0]), acts[1..], t, i);
    }
  }

  lemma StepPins(s: State, a: Action, i: Item)
    requires Base(s) && Enabled(s, a) && i in s.retired
    ensures i in s.pins && i in Apply(s, a).pins && Apply(s, a).pins[i] == s.pins[i] && i in Apply(s, a).retired
  {
    if a.Visit? { UnlinkPosition(s); }
  }
}
