/**
  A run in which the guarantee of `EbrAtomic` fails because EPOCH is loaded and `state` is stored in
  two steps. Collector 3 loads epoch 0 and publishes it when EPOCH is 2 and a scan has already passed
  it; collector 2 still announces 1 when it retires an instance. Two changes of EPOCH are then enough
  for collector 2 to drop that instance, and both are compatible with what collector 3 announces.
 */
module EbrStale {
  import opened Common
  import opened Ebr
  import opened EbrPaths
  import opened EbrSafety
  import EbrAtomic

  /** An inactive collector that holds nothing and has loaded `loaded`. */
  ghost predicate Quiet(v: Collector, announced: nat, loaded: Option<nat>) {
    && !v.active && !v.invalid && v.readers == 0 && v.loaded == loaded
    && v.announcement == announced
    && v.current == {} && v.previous == {} && v.next == {} && v.draining == {}
  }

  /** A collector with one guard that has retired nothing but `retired`, all in this session. */
  ghost predicate Busy(v: Collector, announced: nat, retired: set<Item>) {
    && v.active && !v.invalid && v.readers == 1 && v.loaded.None?
    && v.announcement == announced
    && v.current == retired && v.previous == {} && v.next == {} && v.draining == {}
  }

  ghost predicate At(s: State, epoch: nat, chain: seq<nat>) {
    && s.epochs != [] && s.epoch == epoch && s.chain == chain
    && s.collectors.Keys == set c | c in chain
  }

  ghost predicate Midway(s: State, owner: nat, known: nat, rest: seq<nat>) {
    s.scan.Scanning? && s.scan.owner == owner && s.scan.known == known && s.scan.rest == rest
  }

  /** No collector still to be looked at stops the scan or is unlinked. */
  ghost predicate Passable(s: State, owner: nat, known: nat, rest: seq<nat>) {
    && s.epochs != [] && |rest| <= |s.chain| && owner in s.collectors
    && forall c :: c in rest ==>
         c in s.collectors && !s.collectors[c].invalid
         && (c == owner || (s.collectors[c].active ==> s.collectors[c].announcement == known))
  }

  /** Such a scan gets to its end. */
  lemma {:induction false} PassAll(s: State, owner: nat, known: nat, rest: seq<nat>) returns (t: State)
    requires Leads(Initial(), s) && Midway(s, owner, known, rest) && Passable(s, owner, known, rest)
    ensures Leads(Initial(), t) && Midway(t, owner, known, []) && t == s.(scan := t.scan)
    decreases |rest|
  {
    if rest == [] {
      t := s;
    } else {
      assert rest[0] in rest;
      t := Step(Initial(), s, Visit);
      t := PassAll(t, owner, known, rest[1..]);
    }
  }

  /** A guard whose collector advances EPOCH when it ends. */
  lemma Advance(s: State, owner: nat) returns (t: State)
    requires Leads(Initial(), s) && s.scan.Idle? && s.epochs != [] && owner in s.collectors
    requires s.collectors[owner].readers == 1 && s.collectors[owner].draining == {}
    requires s.collectors[owner].announcement == s.epoch
    requires Passable(s, owner, s.epoch, s.chain)
    ensures Leads(Initial(), t) && t.scan.Idle? && t.epochs != [] && t.epoch == NextEpoch(s.epoch)
    ensures t.chain == s.chain && t.retired == s.retired && t.pins == s.pins
    ensures t.collectors == s.collectors[owner := Ended(s.collectors[owner])]
  {
    t := Step(Initial(), s, BeginScan(owner));
    assert Midway(t, owner, s.epoch, s.chain);
    t := PassAll(t, owner, s.epoch, s.chain);
    t := Step(Initial(), t, EndScan);
    t := Step(Initial(), t, EndGuard(owner));
  }

  /** Collector 3 loads epoch 0. */
  lemma StaleLoad() returns (t: State)
    ensures Leads(Initial(), t) && At(t, 0, [3, 2]) && t.scan.Idle? && t.retired == map[]
    ensures Quiet(t.collectors[2], 0, None) && Quiet(t.collectors[3], 0, Some(0))
  {
    t := Initial();
    assert Executes(Initial(), [], t);
    t := Step(Initial(), t, Alloc(2));
    t := Step(Initial(), t, Alloc(3));
    t := Step(Initial(), t, Load(3));
    assert t.chain == [3, 2];
  }

  /** Collector 2 advances EPOCH to 1. */
  lemma FirstEpoch(s: State) returns (t: State)
    requires Leads(Initial(), s) && At(s, 0, [3, 2]) && s.scan.Idle? && s.retired == map[]
    requires Quiet(s.collectors[2], 0, None) && Quiet(s.collectors[3], 0, Some(0))
    ensures Leads(Initial(), t) && At(t, 1, [1, 3, 2]) && t.scan.Idle? && t.retired == map[]
    ensures Quiet(t.collectors[1], 0, None) && Quiet(t.collectors[2], 0, None)
    ensures Quiet(t.collectors[3], 0, Some(0))
  {
    t := Step(Initial(), s, Activate(2, true));
    t := Advance(t, 2);
    t := Step(Initial(), t, Alloc(1));
    assert t.chain == [1, 3, 2];
  }

  /** Collector 2 announces 1 and keeps its guard while collector 1 advances EPOCH to 2. */
  lemma SecondEpoch(s: State) returns (t: State)
    requires Leads(Initial(), s) && At(s, 1, [1, 3, 2]) && s.scan.Idle? && s.retired == map[]
    requires Quiet(s.collectors[1], 0, None) && Quiet(s.collectors[2], 0, None)
    requires Quiet(s.collectors[3], 0, Some(0))
    ensures Leads(Initial(), t) && At(t, 2, [1, 3, 2]) && t.scan.Idle? && t.retired == map[]
    ensures Quiet(t.collectors[1], 1, None) && Busy(t.collectors[2], 1, {})
    ensures Quiet(t.collectors[3], 0, Some(0))
  {
    t := Step(Initial(), s, Activate(2, true));
    t := Step(Initial(), t, Activate(1, true));
    t := Advance(t, 1);
  }

  /** The instance is pinned by a guard of collector 3 that is still active. */
  ghost predicate Pins(s: State) {
    && 3 in s.collectors && Busy(s.collectors[3], 0, {}) && Instance(7) in s.pins
    && (3, s.collectors[3].session) in s.pins[Instance(7)]
  }

  /** Collector 3 publishes its stale epoch once a scan has passed it, then collector 2 retires. */
  lemma StalePublication(s: State) returns (t: State)
    requires Leads(Initial(), s) && At(s, 2, [1, 3, 2]) && s.scan.Idle? && s.retired == map[]
    requires Quiet(s.collectors[1], 1, None) && Busy(s.collectors[2], 1, {})
    requires Quiet(s.collectors[3], 0, Some(0))
    ensures Leads(Initial(), t) && At(t, 2, [1, 3, 2]) && Midway(t, 1, 2, [2]) && Pins(t)
    ensures Busy(t.collectors[1], 2, {}) && Busy(t.collectors[2], 1, {Instance(7)})
  {
    t := Step(Initial(), s, Activate(1, true));
    t := Step(Initial(), t, BeginScan(1));
    assert Midway(t, 1, 2, [1, 3, 2]);
    t := Step(Initial(), t, Visit);
    assert Midway(t, 1, 2, [3, 2]);
    t := Step(Initial(), t, Visit);
    t := Step(Initial(), t, Publish(3, true));
    assert (3, t.collectors[3].session) in ActiveSessions(t);
    t := Step(Initial(), t, Retire(2, 7));
  }

  /** Collector 2 sees epoch 2, then the scan ends and EPOCH becomes 0. */
  lemma ThirdEpoch(s: State) returns (t: State)
    requires Leads(Initial(), s) && At(s, 2, [1, 3, 2]) && Midway(s, 1, 2, [2]) && Pins(s)
    requires Busy(s.collectors[1], 2, {}) && Busy(s.collectors[2], 1, {Instance(7)})
    ensures Leads(Initial(), t) && At(t, 0, [1, 3, 2]) && t.scan.Idle? && Pins(t)
    ensures Quiet(t.collectors[1], 2, None)
    ensures var v := t.collectors[2];
            && !v.active && !v.invalid && v.readers == 0 && v.loaded.None? && v.announcement == 2
            && v.previous == {Instance(7)} && v.next == {} && v.draining == {}
  {
    t := Step(Initial(), s, EndGuard(2));
    t := Step(Initial(), t, Activate(2, true));
    t := Step(Initial(), t, Visit);
    assert Midway(t, 1, 2, []);
    t := Step(Initial(), t, EndScan);
    t := Step(Initial(), t, EndGuard(1));
    t := Step(Initial(), t, EndGuard(2));
  }

  /** Collector 2 sees epoch 0 and advances EPOCH to 1, which collector 3 does not hold up. */
  lemma FourthEpoch(s: State) returns (t: State)
    requires Leads(Initial(), s) && At(s, 0, [1, 3, 2]) && s.scan.Idle? && Pins(s)
    requires Quiet(s.collectors[1], 2, None)
    requires var v := s.collectors[2];
             && !v.active && !v.invalid && v.readers == 0 && v.loaded.None? && v.announcement == 2
             && v.previous == {Instance(7)} && v.next == {} && v.draining == {}
    ensures Leads(Initial(), t) && At(t, 1, [1, 3, 2]) && Pins(t)
    ensures var v := t.collectors[2];
            && !v.active && !v.invalid && v.readers == 0 && v.loaded.None? && v.announcement == 0
            && v.next == {Instance(7)}
  {
    t := Step(Initial(), s, Activate(2, true));
    t := Advance(t, 2);
  }

  /**
    With activation in two steps the full guarantee does not hold: some run ends in a state in which
    an instance has been freed that was retired during a session still in progress.
   */
  lemma GuardsFailToProtect() returns (acts: seq<Action>, t: State)
    ensures Executes(Initial(), acts, t) && !EbrAtomic.Safe(t)
  {
    t := StaleLoad();
    t := FirstEpoch(t);
    t := SecondEpoch(t);
    t := StalePublication(t);
    t := ThirdEpoch(t);
    t := FourthEpoch(t);
    t := Step(Initial(), t, Activate(2, true));
    assert Instance(7) in t.collectors[2].draining;
    t := Step(Initial(), t, Free(2, Instance(7)));
    assert Holds(t, 3, t.collectors[3].session);
    acts :| Executes(Initial(), acts, t);
  }
}
