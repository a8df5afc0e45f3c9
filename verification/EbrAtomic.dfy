/**
  The reclamation guarantee when loading EPOCH and storing `state` is one step: whatever is retired
  while a guard is active outlives that guard.
 */
module EbrAtomic {
  import opened Common
  import opened Ebr
  import opened EbrSafety

  /** A run in which every collector loads EPOCH and publishes it in one step. */
  ghost predicate OneStepActivation(acts: seq<Action>) {
    forall i :: 0 <= i < |acts| ==> !acts[i].Load? && !acts[i].Publish?
  }

  // ---------------------------------------------------------------- what is kept

  /** How a collector's epoch and the ages of its garbage relate to the present era. */
  ghost predicate Timely(v: Collector, now: nat, retired: map<Item, nat>) {
    && v.loaded.None?
    && v.era <= now && v.era % 3 == v.announcement
    && (v.active ==> now <= v.era + 1)
    && (forall i :: i in v.current && i in retired ==> retired[i] <= v.era + 1)
    && (forall i :: i in v.previous && i in retired ==> retired[i] <= v.era)
    && (forall i :: i in v.next && i in retired ==> retired[i] + 1 <= v.era)
    && (forall i :: i in v.draining && i in retired ==> retired[i] + 2 <= now)
  }

  ghost predicate Eras(s: State) {
    && s.epoch == s.era % 3
    && (forall c :: c in s.collectors ==> Timely(s.collectors[c], s.era, s.retired))
  }

  ghost predicate Ages(s: State) {
    && (forall i :: i in s.retired ==> s.retired[i] <= s.era)
    && (forall i :: i in s.freed && i in s.retired ==> s.retired[i] + 2 <= s.era)
    && (forall x, i :: Exited(x) in s.retired && x in s.collectors && i in Garbage(s.collectors[x]) ==>
          i in s.retired && s.retired[i] <= s.retired[Exited(x)])
  }

  ghost predicate Pinned(s: State) {
    forall i, c, n :: i in s.pins && (c, n) in s.pins[i] ==>
      && c in s.collectors && n <= s.collectors[c].session
      && i in s.retired
      && (Holds(s, c, n) ==> s.collectors[c].era <= s.retired[i])
  }

  /** While a scanner announces the present epoch, all collectors it has passed announce it too. */
  ghost predicate Swept(s: State) {
    s.scan.Scanning? && s.scan.owner in s.collectors && s.collectors[s.scan.owner].era == s.era ==>
      forall c :: c in s.collectors && s.collectors[c].active && c !in s.scan.rest ==>
        s.collectors[c].era == s.era
  }

  ghost predicate Inv(s: State) {
    Base(s) && Eras(s) && Ages(s) && Pinned(s) && Swept(s)
  }

  /** No freed item was retired in a session that is still in progress, of any collector. */
  ghost predicate Safe(s: State) {
    forall i, c, n :: i in s.freed && i in s.pins && (c, n) in s.pins[i] ==> !Holds(s, c, n)
  }

  lemma InvIsSafe(s: State)
    requires Inv(s)
    ensures Safe(s)
  {
    forall i, c, n | i in s.freed && i in s.pins && (c, n) in s.pins[i]
      ensures !Holds(s, c, n)
    {
      assert i in s.retired && s.retired[i] + 2 <= s.era;
      assert c in s.collectors ==> Timely(s.collectors[c], s.era, s.retired);
    }
  }

  // ---------------------------------------------------------------- steps

  /** `t` is `s` with collector `c` moved on: same garbage, and still timely. */
  ghost predicate MovedOn(s: State, t: State, c: nat) {
    && c in s.collectors && c in t.collectors
    && t == s.(collectors := s.collectors[c := t.collectors[c]], scan := t.scan)
    && var v, w := s.collectors[c], t.collectors[c];
      && Garbage(w) == Garbage(v) && Timely(w, s.era, s.retired)
      && v.session <= w.session
      && (w.session == v.session && w.active ==> v.active && w.era == v.era)
      && (w.active && w.session > v.session ==> w.era == s.era)
  }

  lemma MovedOnKeepsAges(s: State, t: State, c: nat)
    requires MovedOn(s, t, c) && Eras(s) && Ages(s)
    ensures Eras(t) && Ages(t)
  {
    assert forall d :: d in t.collectors && d != c ==> t.collectors[d] == s.collectors[d];
  }

  lemma MovedOnKeepsPinned(s: State, t: State, c: nat)
    requires MovedOn(s, t, c) && Pinned(s)
    ensures Pinned(t)
  {
    forall i, d, n | i in t.pins && (d, n) in t.pins[i]
      ensures d in t.collectors && n <= t.collectors[d].session && i in t.retired
      ensures Holds(t, d, n) ==> t.collectors[d].era <= t.retired[i]
    {
      assert Holds(t, d, n) ==> Holds(s, d, n);
    }
  }

  /** Only the collector that moved on can have become active, and then in the present era. */
  lemma MovedOnKeepsSwept(s: State, t: State, c: nat)
    requires MovedOn(s, t, c) && Swept(s)
    requires t.scan.Scanning? ==> s.scan.Scanning? && t.scan.rest == s.scan.rest
    requires t.scan.Scanning? ==> t.scan.owner == s.scan.owner && s.scan.owner in s.collectors
    requires s.scan.Scanning? && s.scan.owner == c ==> t.collectors[c].era == s.collectors[c].era
    requires t.collectors[c].active ==> t.collectors[c].session > s.collectors[c].session || s.collectors[c].active
    ensures Swept(t)
  {
    assert forall d :: d in t.collectors && d != c ==> t.collectors[d] == s.collectors[d];
  }

  lemma ActivateTimely(v: Collector, now: nat, retired: map<Item, nat>, epoch: nat, shift: bool)
    requires Timely(v, now, retired) && epoch == now % 3 && !v.active
    ensures Timely(Activated(v, epoch, shift).(era := now), now, retired)
  {
    assert v.announcement != epoch ==> v.era + 1 <= now;
    var w := Activated(v, epoch, shift).(era := now);
    if shift && v.announcement != epoch {
      assert w.draining == v.draining + v.next && w.next == v.previous && w.previous == v.current;
    }
  }

  lemma ActivateKeeps(s: State, c: nat, shift: bool)
    requires Inv(s) && c in s.collectors && s.collectors[c].readers == 0
    ensures var t := WithPublished(s, c, s.epoch, shift);
            Eras(t) && Ages(t) && Pinned(t) && Swept(t)
  {
    assert CollectorOk(s, c);
    ActivateMoves(s, c, shift);
    var t := WithPublished(s, c, s.epoch, shift);
    MovedOnKeepsAges(s, t, c);
    MovedOnKeepsPinned(s, t, c);
    MovedOnKeepsSwept(s, t, c);
  }

  lemma ActivateMoves(s: State, c: nat, shift: bool)
    requires Eras(s) && s.epochs != [] && c in s.collectors && !s.collectors[c].active
    ensures MovedOn(s, WithPublished(s, c, s.epoch, shift), c)
  {
    var v := s.collectors[c];
    var t := WithPublished(s, c, s.epoch, shift);
    ActivateTimely(v, s.era, s.retired, s.epoch, shift);
    assert Timely(t.collectors[c], s.era, s.retired);
    assert Garbage(t.collectors[c]) == Garbage(v);
  }

  /** Steps of one collector that leave its announcement and garbage alone. */
  lemma PlainKeeps(s: State, a: Action)
    requires Inv(s) && Enabled(s, a)
    requires a.Nest? || a.Unnest? || a.EndGuard? || a.Invalidate?
    ensures var t := Apply(s, a); Eras(t) && Ages(t) && Pinned(t) && Swept(t)
  {
    assert CollectorOk(s, a.c);
    PlainMoves(s, a);
    var t := Apply(s, a);
    MovedOnKeepsAges(s, t, a.c);
    MovedOnKeepsPinned(s, t, a.c);
    MovedOnKeepsSwept(s, t, a.c);
  }

  lemma PlainMoves(s: State, a: Action)
    requires a.Nest? || a.Unnest? || a.EndGuard? || a.Invalidate?
    requires Eras(s) && Enabled(s, a) && (s.collectors[a.c].active <==> s.collectors[a.c].readers > 0)
    ensures MovedOn(s, Apply(s, a), a.c)
    ensures Apply(s, a).scan == s.scan
    ensures var w, v := Apply(s, a).collectors[a.c], s.collectors[a.c];
            w.era == v.era && (w.active ==> v.active)
  {
    var v := s.collectors[a.c];
    assert Timely(v, s.era, s.retired);
  }

  lemma AllocKeeps(s: State, c: nat)
    requires Eras(s) && Ages(s) && Pinned(s) && Swept(s) && c !in s.collectors
    requires s.scan.Scanning? ==> s.scan.owner in s.collectors
    ensures var t := s.(collectors := s.collectors[c := NewCollector()], chain := [c] + s.chain);
            Eras(t) && Ages(t) && Pinned(t) && Swept(t)
  {
    var t := s.(collectors := s.collectors[c := NewCollector()], chain := [c] + s.chain);
    assert Timely(NewCollector(), s.era, s.retired);
    assert Garbage(NewCollector()) == {};
    AllocPinned(s, c);
  }

  lemma AllocPinned(s: State, c: nat)
    requires Pinned(s) && c !in s.collectors
    ensures Pinned(s.(collectors := s.collectors[c := NewCollector()], chain := [c] + s.chain))
  {
    var t := s.(collectors := s.collectors[c := NewCollector()], chain := [c] + s.chain);
    assert forall d, n :: Holds(t, d, n) ==> Holds(s, d, n);
  }

  lemma RetireEras(s: State, c: nat, item: Item)
    requires Eras(s) && s.epochs != [] && c in s.collectors && s.collectors[c].active
    requires item !in s.retired
    requires forall d :: d in s.collectors ==> item !in Garbage(s.collectors[d])
    ensures Eras(WithRetired(s, c, item))
  {
    var t := WithRetired(s, c, item);
    var v, w := s.collectors[c], t.collectors[c];
    assert Timely(v, s.era, s.retired);
    assert Timely(w, t.era, t.retired);
    forall d | d in t.collectors && d != c ensures Timely(t.collectors[d], t.era, t.retired) {
      assert Timely(s.collectors[d], s.era, s.retired);
      assert item !in Garbage(s.collectors[d]);
    }
  }

  lemma RetireAges(s: State, c: nat, item: Item)
    requires Ages(s) && s.epochs != [] && c in s.collectors && item !in s.retired && item !in s.freed
    requires Exited(c) !in s.retired && (item.Exited? ==> item.collector != c)
    requires forall d, i :: d in s.collectors && i in Garbage(s.collectors[d]) ==> i in s.retired
    ensures Ages(WithRetired(s, c, item))
  {
    var t := WithRetired(s, c, item);
    forall x, i | Exited(x) in t.retired && x in t.collectors && i in Garbage(t.collectors[x])
      ensures i in t.retired && t.retired[i] <= t.retired[Exited(x)]
    {
      assert x != c && t.collectors[x] == s.collectors[x];
      assert i in Garbage(s.collectors[x]);
    }
  }

  lemma RetirePinned(s: State, c: nat, item: Item)
    requires Pinned(s) && Eras(s) && s.epochs != [] && c in s.collectors && item !in s.retired
    ensures Pinned(WithRetired(s, c, item))
  {
    var t := WithRetired(s, c, item);
    forall i, d, n | i in t.pins && (d, n) in t.pins[i]
      ensures d in t.collectors && n <= t.collectors[d].session && i in t.retired
      ensures Holds(t, d, n) ==> t.collectors[d].era <= t.retired[i]
    {
      if i == item {
        assert d in s.collectors && n == s.collectors[d].session;
        assert Timely(s.collectors[d], s.era, s.retired);
      } else {
        assert Holds(t, d, n) ==> Holds(s, d, n);
      }
    }
  }

  lemma RetireSwept(s: State, c: nat, item: Item)
    requires Swept(s) && s.epochs != [] && c in s.collectors
    requires s.scan.Scanning? ==> s.scan.owner in s.collectors
    ensures Swept(WithRetired(s, c, item))
  {
  }

  lemma RetireKeeps(s: State, c: nat, item: Item)
    requires Inv(s) && c in s.collectors && s.collectors[c].active && item !in s.retired
    requires item.Exited? ==> item.collector != c
    ensures var t := WithRetired(s, c, item); Eras(t) && Ages(t) && Pinned(t) && Swept(t)
  {
    assert CollectorOk(s, c);
    assert Exited(c) !in s.retired;
    RetireEras(s, c, item);
    RetireAges(s, c, item);
    RetirePinned(s, c, item);
    RetireSwept(s, c, item);
  }

  /** Steps that change the scan only. */
  lemma ScanOnlyKeeps(s: State, t: State)
    requires Eras(s) && Ages(s) && Pinned(s)
    requires t == s.(scan := t.scan)
    ensures Eras(t) && Ages(t) && Pinned(t)
  {
    assert forall d, n :: Holds(t, d, n) ==> Holds(s, d, n);
  }

  lemma BeginKeeps(s: State, c: nat)
    requires Inv(s) && Enabled(s, BeginScan(c))
    ensures var t := Apply(s, BeginScan(c)); Eras(t) && Ages(t) && Pinned(t) && Swept(t)
  {
    ScanOnlyKeeps(s, Apply(s, BeginScan(c)));
    BeginSwept(s, c);
  }

  lemma BeginSwept(s: State, c: nat)
    requires Structure(s) && Enabled(s, BeginScan(c))
    ensures Swept(Apply(s, BeginScan(c)))
  {
    assert forall d :: d in s.collectors && s.collectors[d].active ==> CollectorOk(s, d);
  }

  lemma StepSwept(s: State)
    requires Swept(s) && Eras(s) && s.scan.Scanning? && s.scan.rest != []
    requires s.scan.rest[0] in s.collectors && s.scan.owner in s.collectors
    requires s.scan.known == s.collectors[s.scan.owner].announcement
    requires var x := s.collectors[s.scan.rest[0]];
             s.scan.rest[0] == s.scan.owner || (x.active ==> x.announcement == s.scan.known)
    ensures Swept(WithStep(s))
  {
    var x := s.scan.rest[0];
    assert Timely(s.collectors[x], s.era, s.retired);
    assert Timely(s.collectors[s.scan.owner], s.era, s.retired);
    assert s.scan.rest == [x] + s.scan.rest[1..];
  }

  lemma UnlinkedSwept(m: State, t: State)
    requires Swept(m) && m.scan.Scanning? && m.scan.rest != [] && m.scan.owner in m.collectors
    requires m.scan.rest[0] in m.collectors ==> !m.collectors[m.scan.rest[0]].active
    requires t == m.(chain := t.chain, scan := m.scan.(rest := m.scan.rest[1..]))
    ensures Swept(t)
  {
    assert m.scan.rest == [m.scan.rest[0]] + m.scan.rest[1..];
  }

  lemma UnlinkedKeeps(s: State)
    requires Inv(s) && s.scan.Scanning? && s.scan.rest != []
    requires s.collectors[s.scan.rest[0]].invalid && s.scan.rest[0] != s.scan.owner
    ensures var t := WithUnlinked(s); Eras(t) && Ages(t) && Pinned(t) && Swept(t)
  {
    var x := s.scan.rest[0];
    UnlinkPosition(s);
    assert CollectorOk(s, x) && x in s.chain;
    RetireKeeps(s, s.scan.owner, Exited(x));
    var m, t := WithRetired(s, s.scan.owner, Exited(x)), WithUnlinked(s);
    UnlinkedSwept(m, t);
    ChainOnlyKeeps(m, t);
  }

  lemma ChainOnlyKeeps(s: State, t: State)
    requires Eras(s) && Ages(s) && Pinned(s)
    requires t == s.(scan := t.scan, chain := t.chain)
    ensures Eras(t) && Ages(t) && Pinned(t)
  {
    ScanOnlyKeeps(s, s.(scan := t.scan));
    assert forall d, n :: Holds(t, d, n) ==> Holds(s, d, n);
  }

  lemma VisitKeeps(s: State)
    requires Inv(s) && Enabled(s, Visit)
    ensures var t := Visited(s); Eras(t) && Ages(t) && Pinned(t) && Swept(t)
  {
    var x := s.scan.rest[0];
    assert CollectorOk(s, x);
    var v := s.collectors[x];
    if x != s.scan.owner && v.invalid && Unlinkable(s) {
      UnlinkedKeeps(s);
    } else {
      ScanOnlyKeeps(s, Visited(s));
      if x == s.scan.owner || !v.active || v.announcement == s.scan.known { StepSwept(s); }
    }
  }

  lemma EndScanKeeps(s: State)
    requires Inv(s) && Enabled(s, EndScan)
    ensures var t := Apply(s, EndScan); Eras(t) && Ages(t) && Pinned(t) && Swept(t)
  {
    EndScanEras(s);
    EndScanAges(s);
    EndScanPinned(s);
  }

  lemma EndScanPinned(s: State)
    requires Pinned(s) && Enabled(s, EndScan)
    ensures Pinned(Apply(s, EndScan))
  {
    var t := Apply(s, EndScan);
    assert forall d, n :: Holds(t, d, n) ==> Holds(s, d, n);
  }

  lemma EndScanAges(s: State)
    requires Ages(s) && Enabled(s, EndScan)
    ensures Ages(Apply(s, EndScan))
  {
  }

  lemma EndScanEras(s: State)
    requires Eras(s) && Swept(s) && ScanOk(s) && Enabled(s, EndScan)
    ensures Eras(Apply(s, EndScan))
  {
    var t := Apply(s, EndScan);
    var o := s.collectors[s.scan.owner];
    assert Timely(o, s.era, s.retired);
    if o.era == s.era {
      assert t.era == s.era + 1;
      forall c | c in t.collectors ensures Timely(t.collectors[c], t.era, t.retired) {
        assert Timely(s.collectors[c], s.era, s.retired);
      }
    } else {
      assert s.epoch == NextEpoch(s.scan.known);
    }
  }

  lemma FreeKeeps(s: State, c: nat, item: Item)
    requires Inv(s) && Enabled(s, Free(c, item))
    ensures var t := WithFreed(s, c, item); Eras(t) && Ages(t) && Pinned(t) && Swept(t)
  {
    assert CollectorOk(s, c) && item in Garbage(s.collectors[c]);
    assert item.Exited? ==> CollectorOk(s, item.collector) && item.collector != c;
    FreeEras(s, c, item);
    FreeAges(s, c, item);
    FreePinned(s, c, item);
    FreeSwept(s, c, item);
  }

  lemma FreeEras(s: State, c: nat, item: Item)
    requires Eras(s) && Ages(s) && Enabled(s, Free(c, item)) && item in s.retired
    requires item.Exited? ==> item.collector != c
    ensures Eras(WithFreed(s, c, item))
  {
    var t := WithFreed(s, c, item);
    assert Timely(s.collectors[c], s.era, s.retired);
    if item.Exited? {
      var x := item.collector;
      assert Timely(s.collectors[x], s.era, s.retired);
      assert Timely(t.collectors[x], s.era, s.retired);
    }
    assert Timely(t.collectors[c], s.era, s.retired);
  }

  lemma FreeAges(s: State, c: nat, item: Item)
    requires Eras(s) && Ages(s) && Enabled(s, Free(c, item)) && item in s.retired
    requires item.Exited? ==> item.collector != c
    requires Exited(c) !in s.retired
    ensures Ages(WithFreed(s, c, item))
  {
    var t := WithFreed(s, c, item);
    assert Timely(s.collectors[c], s.era, s.retired);
    assert item.Exited? ==> Garbage(t.collectors[item.collector]) == {};
  }

  lemma FreePinned(s: State, c: nat, item: Item)
    requires Pinned(s) && Enabled(s, Free(c, item))
    ensures Pinned(WithFreed(s, c, item))
  {
    var t := WithFreed(s, c, item);
    assert forall d, n :: Holds(t, d, n) ==> Holds(s, d, n);
  }

  lemma FreeSwept(s: State, c: nat, item: Item)
    requires Swept(s) && Enabled(s, Free(c, item))
    requires s.scan.Scanning? ==> s.scan.owner in s.collectors
    ensures Swept(WithFreed(s, c, item))
  {
  }

  lemma InvKept(s: State, a: Action)
    requires Inv(s) && Enabled(s, a) && !a.Load? && !a.Publish?
    ensures Inv(Apply(s, a))
  {
    BaseKept(s, a);
    match a
    case Alloc(c) => AllocKeeps(s, c);
    case Activate(c, shift) => ActivateKeeps(s, c, shift);
    case Retire(c, id) =>
      assert CollectorOk(s, c);
      RetireKeeps(s, c, Instance(id));
    case BeginScan(c) => BeginKeeps(s, c);
    case Visit => VisitKeeps(s);
    case EndScan => EndScanKeeps(s);
    case Free(c, item) => FreeKeeps(s, c, item);
    case _ => PlainKeeps(s, a);
  }

  lemma InitialInv()
    ensures Inv(Initial())
  {
  }

  // ---------------------------------------------------------------- runs

  /**
    Over any run with one-step activation, whatever has been freed was retired in sessions that are
    all over: for every guard active at the retirement, the session it belongs to has ended. This
    includes what an exited thread left behind and a scanner retired with its collector.
   */
  lemma {:induction false} GuardsProtect(s: State, acts: seq<Action>, t: State)
    requires Inv(s) && OneStepActivation(acts) && Executes(s, acts, t)
    ensures Inv(t) && Safe(t)
    decreases |acts|
  {
    if acts == [] {
      InvIsSafe(t);
    } else {
      InvKept(s, acts[0]);
      GuardsProtect(Apply(s, acts[0]), acts[1..], t);
    }
  }
}
