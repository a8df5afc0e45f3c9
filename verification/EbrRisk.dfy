/**
  Exactly when a retired instance can be freed under a guard that was active when it was retired, if
  loading EPOCH and storing `state` are two steps.
 */
module EbrRisk {
  import opened Common
  import opened Ebr
  import opened EbrSafety
  import opened EbrPaths
  import opened EbrSplit
  import opened EbrShield

  /**
    What `c` retires now is at risk of being freed while `d` stays active: `c` announces an old epoch,
    another collector's scan is about to store a new one, and that scan has passed `d` although `d`
    does not announce what the scanner knows.
   */
  predicate AtRisk(s: State, c: nat, d: nat)
    requires c in s.collectors && d in s.collectors
  {
    && c != d && s.collectors[c].announcement != s.epoch
    && s.scan.Scanning? && s.scan.owner != c && NextEpoch(s.scan.known) != s.epoch
    && d !in s.scan.rest && s.collectors[d].announcement != s.scan.known
  }

  lemma AtRiskMeansWithinReach(s: State, c: nat, d: nat)
    requires Base(s) && AllBounded(s) && c in s.collectors && d in s.collectors
    requires s.collectors[c].active && s.collectors[d].active
    ensures AtRisk(s, c, d) <==> !OutOfReach(s, c, d)
  {
    assert CollectorOk(s, c) && CollectorOk(s, d) && Bounded(s, d);
    if s.scan.Scanning? { assert CollectorOk(s, s.scan.owner); }
  }

  // ---------------------------------------------------------------- guards that end

  /** Nothing has changed but `x`, and what collectors of exited threads hold. */
  ghost predicate Only(s: State, t: State, x: nat) {
    && t.epoch == s.epoch && t.chain == s.chain && t.scan == s.scan
    && t.collectors.Keys == s.collectors.Keys
    && forall y :: y in s.collectors && y != x ==>
         if s.collectors[y].invalid then t.collectors[y].invalid && !t.collectors[y].active
         else t.collectors[y] == s.collectors[y]
  }

  lemma OnlyTwice(s: State, m: State, t: State, x: nat)
    requires Only(s, m, x) && Only(m, t, x)
    ensures Only(s, t, x)
  {
    forall y | y in s.collectors && y != x
      ensures if s.collectors[y].invalid then t.collectors[y].invalid && !t.collectors[y].active
              else t.collectors[y] == s.collectors[y]
    {
      assert m.collectors[y].invalid == s.collectors[y].invalid;
    }
  }

  lemma CanDrop(s: State, x: nat, item: Item)
    requires Base(s) && x in s.collectors && s.collectors[x].active && item in s.collectors[x].draining
    ensures Enabled(s, Free(x, item)) && item in s.retired && item !in s.freed
    ensures var t := Apply(s, Free(x, item));
            && Only(s, t, x) && t.collectors[x] == s.collectors[x].(draining := t.collectors[x].draining)
            && t.retired == s.retired && t.freed == s.freed + {item}
  {
    assert item in Garbage(s.collectors[x]);
    forall y | y in s.collectors ensures CollectorOk(s, y) {}
  }

  /** Whatever is up for dropping can be dropped. */
  lemma {:induction false} Drain(u: State, s: State, x: nat) returns (t: State)
    requires Leads(u, s) && Base(s) && x in s.collectors && s.collectors[x].active
    ensures Leads(u, t) && Base(t) && Only(s, t, x)
    ensures t.collectors[x] == s.collectors[x].(draining := {})
    decreases |s.retired.Keys - s.freed|
  {
    if s.collectors[x].draining == {} {
      NothingChanged(s, x);
      t := s;
    } else {
      var item :| item in s.collectors[x].draining;
      CanDrop(s, x, item);
      BaseKept(s, Free(x, item));
      var m := Step(u, s, Free(x, item));
      FreedOneMore(s.retired.Keys, s.freed, item);
      t := Drain(u, m, x);
      OnlyTwice(s, m, t, x);
    }
  }

  lemma NothingChanged(s: State, x: nat)
    requires Base(s)
    ensures Only(s, s, x)
  {
    forall y | y in s.collectors ensures CollectorOk(s, y) {}
  }

  /** A step of `x` that concerns no one else. */
  lemma OwnStepOnly(s: State, t: State, x: nat)
    requires Base(s) && x in s.collectors && x in t.collectors && t == s.(collectors := s.collectors[x := t.collectors[x]])
    ensures Only(s, t, x)
  {
    NothingChanged(s, x);
  }

  lemma FreedOneMore(retired: set<Item>, freed: set<Item>, item: Item)
    requires item in retired && item !in freed
    ensures |retired - (freed + {item})| < |retired - freed|
  {
    assert retired - (freed + {item}) == (retired - freed) - {item};
  }

  lemma {:induction false} Lighten(u: State, s: State, x: nat) returns (t: State)
    requires Leads(u, s) && Base(s) && x in s.collectors && s.collectors[x].active
    ensures Leads(u, t) && Base(t) && Only(s, t, x)
    ensures t.collectors[x] == s.collectors[x].(readers := 1, draining := {})
    decreases s.collectors[x].readers
  {
    assert CollectorOk(s, x);
    if s.collectors[x].readers == 1 {
      t := Drain(u, s, x);
    } else {
      BaseKept(s, Unnest(x));
      var m := Step(u, s, Unnest(x));
      OwnStepOnly(s, m, x);
      t := Lighten(u, m, x);
      OnlyTwice(s, m, t, x);
    }
  }

  lemma Leave(u: State, s: State, x: nat) returns (t: State)
    requires Leads(u, s) && Base(s) && x in s.collectors && s.collectors[x].active
    requires s.scan.Idle? || s.scan.owner != x
    ensures Leads(u, t) && Base(t) && Only(s, t, x)
    ensures t.collectors[x] == s.collectors[x].(active := false, readers := 0, draining := {})
  {
    var m := Lighten(u, s, x);
    BaseKept(m, EndGuard(x));
    t := Step(u, m, EndGuard(x));
    OwnStepOnly(m, t, x);
    OnlyTwice(s, m, t, x);
  }

  function ActiveBut(s: State, keep: set<nat>): set<nat> {
    set y | y in s.collectors && s.collectors[y].active && y !in keep
  }

  /** Nothing has changed but active collectors outside `keep`, and collectors of exited threads. */
  ghost predicate OnlyBut(s: State, t: State, keep: set<nat>) {
    && t.epoch == s.epoch && t.chain == s.chain && t.scan == s.scan
    && t.collectors.Keys == s.collectors.Keys
    && forall y :: y in s.collectors && !s.collectors[y].invalid && (y in keep || !s.collectors[y].active) ==>
         t.collectors[y] == s.collectors[y]
  }

  lemma OneLess(s: State, m: State, x: nat, keep: set<nat>)
    requires Base(s) && x in ActiveBut(s, keep) && Only(s, m, x) && !m.collectors[x].active
    ensures OnlyBut(s, m, keep) && ActiveBut(m, keep) == ActiveBut(s, keep) - {x}
  {
    forall y | y in s.collectors ensures CollectorOk(s, y) {}
    forall y | y in s.collectors && y != x ensures m.collectors[y].active == s.collectors[y].active {}
  }

  lemma OnlyButTwice(s: State, m: State, t: State, keep: set<nat>)
    requires OnlyBut(s, m, keep) && OnlyBut(m, t, keep)
    ensures OnlyBut(s, t, keep)
  {
    forall y | y in s.collectors && !s.collectors[y].invalid && (y in keep || !s.collectors[y].active)
      ensures t.collectors[y] == s.collectors[y]
    {
      assert m.collectors[y] == s.collectors[y];
    }
  }

  lemma {:induction false} LeaveAll(u: State, s: State, keep: set<nat>) returns (t: State)
    requires Leads(u, s) && Base(s) && (s.scan.Idle? || s.scan.owner in keep)
    ensures Leads(u, t) && Base(t) && OnlyBut(s, t, keep) && ActiveBut(t, keep) == {}
    decreases |ActiveBut(s, keep)|
  {
    if ActiveBut(s, keep) == {} {
      t := s;
    } else {
      var x :| x in ActiveBut(s, keep);
      var m := Leave(u, s, x);
      OneLess(s, m, x, keep);
      t := LeaveAll(u, m, keep);
      OnlyButTwice(s, m, t, keep);
    }
  }

  // ---------------------------------------------------------------- scans that come to their end

  /** Nothing stops the scan. */
  ghost predicate Unhindered(s: State) {
    s.scan.Scanning? ==> forall y :: y in s.scan.rest && y in s.collectors && s.collectors[y].active ==>
      y == s.scan.owner || s.collectors[y].announcement == s.scan.known
  }

  /** The owner of the scan has retired something, and nothing else has changed in a collector. */
  ghost predicate OnlyRetires(s: State, t: State, o: nat) {
    && o in s.collectors && t.collectors.Keys == s.collectors.Keys
    && (forall y :: y in s.collectors && y != o ==> t.collectors[y] == s.collectors[y])
    && t.collectors[o] == s.collectors[o].(current := t.collectors[o].current)
  }

  lemma VisitsOn(s: State)
    requires Base(s) && s.scan.Scanning? && s.scan.rest != [] && Unhindered(s)
    ensures Enabled(s, Visit)
    ensures var m := Apply(s, Visit);
            && m.scan.Scanning? && m.scan.rest == s.scan.rest[1..] && m.scan.owner == s.scan.owner
            && m.scan.known == s.scan.known && OnlyRetires(s, m, s.scan.owner)
  {
    UnlinkPosition(s);
    var x := s.scan.rest[0];
    assert x in s.chain && x in s.scan.rest && CollectorOk(s, x) && CollectorOk(s, s.scan.owner);
  }

  lemma StillUnhindered(s: State, m: State)
    requires s.scan.Scanning? && s.scan.rest != [] && Unhindered(s) && OnlyRetires(s, m, s.scan.owner)
    requires m.scan.Scanning? && m.scan.rest == s.scan.rest[1..] && m.scan.owner == s.scan.owner
    requires m.scan.known == s.scan.known
    ensures Unhindered(m)
  {
    forall y | y in m.scan.rest && y in m.collectors && m.collectors[y].active
      ensures y == m.scan.owner || m.collectors[y].announcement == m.scan.known
    {
      assert y in s.scan.rest;
    }
  }

  lemma {:induction false} Finish(u: State, s: State) returns (t: State)
    requires Leads(u, s) && Base(s) && s.scan.Scanning? && Unhindered(s)
    ensures Leads(u, t) && Base(t) && t.scan.Idle? && t.epoch == NextEpoch(s.scan.known)
    ensures OnlyRetires(s, t, s.scan.owner)
    decreases |s.scan.rest|
  {
    if s.scan.rest == [] {
      BaseKept(s, EndScan);
      t := Step(u, s, EndScan);
    } else {
      VisitsOn(s);
      BaseKept(s, Visit);
      var m := Step(u, s, Visit);
      StillUnhindered(s, m);
      t := Finish(u, m);
    }
  }

  // ---------------------------------------------------------------- the retirer's turns

  /** A new guard that ends at once: the generations age. */
  /** Nothing has changed but `c`, collectors of exited threads, and what a scanner is late for. */
  ghost predicate OnlyRefreshed(s: State, t: State, c: nat) {
    && t.epoch == s.epoch && t.collectors.Keys == s.collectors.Keys
    && (if s.scan.Idle? then t.scan.Idle? else t.scan.Scanning? && t.scan == s.scan.(late := t.scan.late))
    && forall y :: y in s.collectors && y != c && !s.collectors[y].invalid ==> t.collectors[y] == s.collectors[y]
  }

  /** `c` has ended its last guard and has not loaded an epoch since. */
  ghost predicate Resting(v: Collector) {
    !v.active && v.readers == 0 && !v.invalid && v.loaded.None?
  }

  lemma Refresh(u: State, s: State, c: nat) returns (t: State)
    requires Leads(u, s) && Base(s) && c in s.collectors && (s.scan.Idle? || s.scan.owner != c)
    requires Resting(s.collectors[c]) && s.collectors[c].announcement != s.epoch
    ensures Leads(u, t) && Base(t) && OnlyRefreshed(s, t, c)
    ensures Resting(t.collectors[c]) && t.collectors[c].announcement == s.epoch
    ensures t.collectors[c].previous == s.collectors[c].current
    ensures t.collectors[c].next == s.collectors[c].previous
  {
    assert CollectorOk(s, c);
    BaseKept(s, Activate(c, true));
    var m := Step(u, s, Activate(c, true));
    assert OnlyRefreshed(s, m, c);
    t := Leave(u, m, c);
  }

  /** `d` has an active session `n` and announces `a`. */
  ghost predicate Guards(s: State, d: nat, n: nat, a: nat) {
    Holds(s, d, n) && s.collectors[d].announcement == a && !s.collectors[d].invalid
  }

  /** Before the scan ends `c` announces the present epoch: its first turn. */
  lemma FirstTurn(u: State, s: State, c: nat, d: nat, n: nat, a: nat, i: Item) returns (t: State)
    requires Leads(u, s) && Base(s) && c in s.collectors && s.collectors[c].active && Guards(s, d, n, a) && c != d
    requires i in s.collectors[c].current && s.collectors[c].announcement != s.epoch
    requires s.scan.Scanning? && s.scan.owner != c
    ensures Leads(u, t) && Base(t) && t.epoch == s.epoch && c in t.collectors && Guards(t, d, n, a)
    ensures Resting(t.collectors[c]) && t.collectors[c].announcement == t.epoch && i in t.collectors[c].previous
    ensures t.scan.Scanning? && t.scan == s.scan.(late := t.scan.late)
  {
    assert CollectorOk(s, c) && CollectorOk(s, d);
    var m := Leave(u, s, c);
    t := Refresh(u, m, c);
  }

  lemma NobodyHinders(s: State, d: nat)
    requires s.scan.Scanning? && ActiveBut(s, {s.scan.owner, d}) == {} && (s.scan.owner == d || d !in s.scan.rest)
    ensures Unhindered(s)
  {
    forall y | y in s.scan.rest && y in s.collectors && s.collectors[y].active ensures y == s.scan.owner {
      assert y !in ActiveBut(s, {s.scan.owner, d});
    }
  }

  /** All others end their guards, and the scan stores what it knows to be next. */
  lemma ScanEnds(u: State, s: State, c: nat, d: nat, n: nat, a: nat, i: Item) returns (t: State)
    requires Leads(u, s) && Base(s) && c in s.collectors && Guards(s, d, n, a) && c != d
    requires Resting(s.collectors[c]) && i in s.collectors[c].previous
    requires s.scan.Scanning? && s.scan.owner != c && (s.scan.owner == d || d !in s.scan.rest)
    ensures Leads(u, t) && Base(t) && t.scan.Idle? && t.epoch == NextEpoch(s.scan.known)
    ensures c in t.collectors && Resting(t.collectors[c]) && i in t.collectors[c].previous
    ensures t.collectors[c].announcement == s.collectors[c].announcement && Guards(t, d, n, a)
  {
    var keep := {s.scan.owner, d};
    var m := LeaveAll(u, s, keep);
    NobodyHinders(m, d);
    assert CollectorOk(s, d) && m.collectors[c] == s.collectors[c] && m.collectors[d] == s.collectors[d];
    t := Finish(u, m);
  }

  /** `c` announces the new epoch: its second turn. */
  lemma SecondTurn(u: State, s: State, c: nat, d: nat, n: nat, a: nat, i: Item) returns (t: State)
    requires Leads(u, s) && Base(s) && c in s.collectors && Guards(s, d, n, a) && c != d && s.scan.Idle?
    requires Resting(s.collectors[c]) && i in s.collectors[c].previous && s.collectors[c].announcement != s.epoch
    ensures Leads(u, t) && Base(t) && t.scan.Idle? && t.epoch == s.epoch && c in t.collectors && Guards(t, d, n, a)
    ensures Resting(t.collectors[c]) && i in t.collectors[c].next && t.collectors[c].announcement == t.epoch
  {
    t := Refresh(u, s, c);
  }

  /** `d` scans when its last guard is about to end. */
  lemma LastScan(u: State, s: State, c: nat, d: nat, n: nat, a: nat, i: Item) returns (t: State)
    requires Leads(u, s) && Base(s) && s.scan.Idle? && c in s.collectors && Guards(s, d, n, a) && c != d
    requires Resting(s.collectors[c]) && i in s.collectors[c].next
    ensures Leads(u, t) && Base(t) && t.scan.Idle? && t.epoch == NextEpoch(a) && Holds(t, d, n)
    ensures c in t.collectors && Resting(t.collectors[c]) && i in t.collectors[c].next
    ensures t.collectors[c].announcement == s.collectors[c].announcement
  {
    var k := LeaveAll(u, s, {d});
    var m := Lighten(u, k, d);
    forall y | y in m.collectors && m.collectors[y].active ensures y == d {
      assert y !in ActiveBut(k, {d});
      assert CollectorOk(k, y);
    }
    BaseKept(m, BeginScan(d));
    var b := Step(u, m, BeginScan(d));
    t := Finish(u, b);
  }

  /** `c` announces the third epoch and drops the instance. */
  lemma LastTurn(u: State, s: State, c: nat, d: nat, n: nat, id: nat) returns (t: State)
    requires Leads(u, s) && Base(s) && c in s.collectors && Holds(s, d, n) && c != d
    requires Resting(s.collectors[c]) && Instance(id) in s.collectors[c].next
    requires s.collectors[c].announcement != s.epoch
    ensures Leads(u, t) && Instance(id) in t.freed && Holds(t, d, n)
  {
    var m := Step(u, s, Activate(c, true));
    assert Instance(id) in m.collectors[c].draining;
    t := Step(u, m, Free(c, Instance(id)));
  }

  /** Some continuation of `s` frees the instance while session `n` of `d` is in progress. */
  ghost predicate FreedUnder(s: State, id: nat, d: nat, n: nat) {
    exists t :: Leads(s, t) && Instance(id) in t.freed && Holds(t, d, n)
  }

  /** The three turns of `c` and the two scans between them. */
  lemma ThreeTurns(u: State, c: nat, d: nat, n: nat, a: nat, id: nat, known: nat)
    requires Base(u) && c in u.collectors && u.collectors[c].active && Guards(u, d, n, a) && c != d
    requires Instance(id) in u.collectors[c].current && u.collectors[c].announcement != u.epoch
    requires u.scan.Scanning? && u.scan.owner != c && d !in u.scan.rest && u.scan.known == known
    requires NextEpoch(known) != u.epoch && NextEpoch(a) != NextEpoch(known)
    ensures FreedUnder(u, id, d, n)
  {
    assert Executes(u, [], u);
    var t := FirstTurn(u, u, c, d, n, a, Instance(id));
    t := ScanEnds(u, t, c, d, n, a, Instance(id));
    t := SecondTurn(u, t, c, d, n, a, Instance(id));
    t := LastScan(u, t, c, d, n, a, Instance(id));
    t := LastTurn(u, t, c, d, n, id);
  }

  lemma RiskIsReal(s: State, c: nat, id: nat, d: nat)
    requires Base(s) && Enabled(s, Retire(c, id)) && d in s.collectors && s.collectors[d].active
    requires AtRisk(s, c, d)
    ensures FreedUnder(Apply(s, Retire(c, id)), id, d, s.collectors[d].session)
  {
    assert CollectorOk(s, c) && CollectorOk(s, d) && CollectorOk(s, s.scan.owner);
    BaseKept(s, Retire(c, id));
    ThreeTurns(Apply(s, Retire(c, id)), c, d, s.collectors[d].session, s.collectors[d].announcement, id, s.scan.known);
  }

  // ---------------------------------------------------------------- exactly when

  /**
    In every reachable state: what `c` retires can be freed while a guard of `d` that is active now is
    still active, exactly if it is at risk.
   */
  lemma FreedUnderGuardIffAtRisk(acts: seq<Action>, s: State, c: nat, id: nat, d: nat)
    requires Executes(Initial(), acts, s) && Enabled(s, Retire(c, id)) && d in s.collectors && s.collectors[d].active
    ensures FreedUnder(Apply(s, Retire(c, id)), id, d, s.collectors[d].session) <==> AtRisk(s, c, d)
  {
    var n := s.collectors[d].session;
    ReachableInv(acts, s);
    assert CollectorOk(s, c);
    AtRiskMeansWithinReach(s, c, d);
    if AtRisk(s, c, d) {
      RiskIsReal(s, c, id, d);
    } else {
      forall t | Leads(Apply(s, Retire(c, id)), t) ensures Holds(t, d, n) ==> Instance(id) !in t.freed {
        var more :| Executes(Apply(s, Retire(c, id)), more, t);
        RetiredOutOfReach(s, c, id, more, t, d, n);
      }
    }
  }

  /**
    An instance retired while the retirer announces EPOCH itself outlives every guard active at that
    moment, whoever drops it in the end.
   */
  lemma UpToDateRetirementsProtect(acts: seq<Action>, s: State, c: nat, id: nat, more: seq<Action>, t: State, d: nat, n: nat)
    requires Executes(Initial(), acts, s) && Enabled(s, Retire(c, id)) && s.collectors[c].announcement == s.epoch
    requires Executes(Apply(s, Retire(c, id)), more, t) && Instance(id) in t.freed
    requires (d, n) in ActiveSessions(s)
    ensures !Holds(t, d, n)
  {
    FreedUnderGuardIffAtRisk(acts, s, c, id, d);
    assert Leads(Apply(s, Retire(c, id)), t);
  }
}
