/**
  How often EPOCH changes under a guard when loading EPOCH and storing `state` are two steps, so that
  a stale epoch can be published and EPOCH need not move in one direction.
 */
module EbrSplit {
  import opened Common
  import opened Ebr
  import opened EbrSafety

  /** How often EPOCH can have changed since an active collector published its epoch. */
  ghost predicate Bounded(s: State, c: nat)
    requires s.epochs != [] && c in s.collectors
  {
    var v := s.collectors[c];
    v.active ==>
      && v.pubTick <= Ticks(s)
      && (if s.scan.Scanning? && c in s.scan.late then Ticks(s) == v.pubTick
          else Ticks(s) <= v.pubTick + 1
               || (Ticks(s) <= v.pubTick + 2 && s.epoch == NextEpoch(v.announcement)))
      && (s.scan.Scanning? && c !in s.scan.late && c !in s.scan.rest ==>
            s.scan.known == v.announcement)
  }

  ghost predicate AllBounded(s: State) {
    s.epochs != [] && forall c :: c in s.collectors ==> Bounded(s, c)
  }

  // ---------------------------------------------------------------- steps

  /** No collector becomes active, and those that stay so announce what they did. */
  ghost predicate NonePublished(s: State, t: State) {
    && t.epochs == s.epochs && t.epoch == s.epoch && t.scan == s.scan
    && forall c :: c in t.collectors && t.collectors[c].active ==>
         && c in s.collectors && s.collectors[c].active
         && t.collectors[c].pubTick == s.collectors[c].pubTick
         && t.collectors[c].announcement == s.collectors[c].announcement
  }

  lemma NonePublishedKeeps(s: State, t: State)
    requires AllBounded(s) && NonePublished(s, t)
    ensures AllBounded(t)
  {
    forall d | d in t.collectors ensures Bounded(t, d) {
      assert t.collectors[d].active ==> Bounded(s, d);
    }
  }

  lemma PublishBounded(s: State, c: nat, epoch: nat, shift: bool)
    requires AllBounded(s) && c in s.collectors
    ensures AllBounded(WithPublished(s, c, epoch, shift))
  {
    var t := WithPublished(s, c, epoch, shift);
    forall d | d in t.collectors ensures Bounded(t, d) {
      assert Bounded(s, d);
    }
  }

  lemma BeginBounded(s: State, c: nat)
    requires AllBounded(s) && Structure(s) && Enabled(s, BeginScan(c))
    ensures AllBounded(Apply(s, BeginScan(c)))
  {
    var t := Apply(s, BeginScan(c));
    forall d | d in t.collectors ensures Bounded(t, d) {
      assert Bounded(s, d) && CollectorOk(s, d);
    }
  }

  /** The scan goes on behind the collector it looked at, or gives up. */
  lemma StepBounded(s: State, t: State)
    requires AllBounded(s) && s.scan.Scanning? && s.scan.rest != []
    requires t == s.(scan := t.scan, chain := t.chain)
    requires s.scan.rest[0] in s.collectors
    requires t.scan.Scanning? ==>
               && t.scan.rest == s.scan.rest[1..]
               && t.scan.known == s.scan.known && t.scan.late == s.scan.late
               && var x := s.collectors[s.scan.rest[0]];
                 (x.active ==> x.announcement == s.scan.known)
    ensures AllBounded(t)
  {
    assert s.scan.rest == [s.scan.rest[0]] + s.scan.rest[1..];
    forall d | d in t.collectors ensures Bounded(t, d) {
      assert Bounded(s, d);
    }
  }

  lemma VisitBounded(s: State)
    requires Base(s) && AllBounded(s) && Enabled(s, Visit)
    ensures AllBounded(Visited(s))
  {
    var x := s.scan.rest[0];
    assert CollectorOk(s, x);
    if x != s.scan.owner && s.collectors[x].invalid && Unlinkable(s) {
      var m := WithRetired(s, s.scan.owner, Exited(x));
      NonePublishedKeeps(s, m);
      StepBounded(m, Visited(s));
    } else {
      StepBounded(s, Visited(s));
    }
  }

  /** A finished scan has met every collector published before it, so it stores their next epoch. */
  lemma EndScanBounded(s: State)
    requires AllBounded(s) && Enabled(s, EndScan)
    ensures AllBounded(Apply(s, EndScan))
  {
    var t := Apply(s, EndScan);
    forall d | d in t.collectors ensures Bounded(t, d) {
      assert Bounded(s, d);
    }
  }

  lemma OtherBounded(s: State, a: Action)
    requires AllBounded(s) && Enabled(s, a)
    requires !a.Activate? && !a.Publish? && !a.BeginScan? && !a.Visit? && !a.EndScan?
    ensures AllBounded(Apply(s, a))
  {
    NonePublishedKeeps(s, Apply(s, a));
  }

  lemma BoundedKept(s: State, a: Action)
    requires Base(s) && AllBounded(s) && Enabled(s, a)
    ensures AllBounded(Apply(s, a))
  {
    match a
    case Activate(c, shift) => PublishBounded(s, c, s.epoch, shift);
    case Publish(c, shift) => PublishBounded(s, c, s.collectors[c].loaded.value, shift);
    case BeginScan(c) => BeginBounded(s, c);
    case Visit => VisitBounded(s);
    case EndScan => EndScanBounded(s);
    case _ => OtherBounded(s, a);
  }

  // ---------------------------------------------------------------- runs

  lemma {:induction false} RunsKeepBounded(s: State, acts: seq<Action>, t: State)
    requires Base(s) && AllBounded(s) && Executes(s, acts, t)
    ensures Base(t) && AllBounded(t)
    decreases |acts|
  {
    if acts != [] {
      BaseKept(s, acts[0]);
      BoundedKept(s, acts[0]);
      RunsKeepBounded(Apply(s, acts[0]), acts[1..], t);
    }
  }

  /** From its publication to the end of its last guard, a collector sees EPOCH change twice at most. */
  lemma EpochChangesAtMostTwice(acts: seq<Action>, t: State, c: nat)
    requires Executes(Initial(), acts, t) && c in t.collectors && t.collectors[c].active
    ensures t.epochs != [] && t.collectors[c].pubTick <= Ticks(t) <= t.collectors[c].pubTick + 2
  {
    InitialBase();
    RunsKeepBounded(Initial(), acts, t);
    assert Bounded(t, c);
  }
}
