/**
  What every run of the bag keeps: a value that has been accepted is stored in one slot that can be
  reached, until it is handed out once.
 */
module BagSafety {
  import opened Common
  import opened Bag

  // ---------------------------------------------------------------- owners

  /** The thread is filling the slot. */
  predicate Fills(pc: Pc, a: nat, i: nat) {
    (pc.Writing? || pc.Publishing? || pc.RollingBack?) && pc.a == a && pc.i == i
  }

  /** The thread is emptying the slot. */
  predicate Empties(pc: Pc, a: nat, i: nat) {
    || ((pc.Reading? || pc.Clearing?) && pc.a == a && pc.i == i)
    || (pc.Fetching? && pc.a == a && i in pc.claimed)
    || (pc.Emptying? && pc.a == a && i in pc.taken)
  }

  ghost predicate Owns(s: State, t: nat, a: nat, i: nat) {
    t in s.threads && (Fills(s.threads[t], a, i) || Empties(s.threads[t], a, i))
  }

  ghost predicate Owners(s: State) {
    && (forall a, i :: a in s.arrays && i in s.arrays[a].owned ==> exists t :: Owns(s, t, a, i))
    && (forall t, a, i :: Owns(s, t, a, i) ==> a in s.arrays && i in s.arrays[a].owned)
    && (forall t, u, a, i :: Owns(s, t, a, i) && Owns(s, u, a, i) ==> t == u)
  }

  // ---------------------------------------------------------------- program points

  /** An overflow array without available instances in an earlier state has none now. */
  ghost predicate SnapshotOk(s: State, a: nat, seen: Meta) {
    a in s.arrays && (Closed(a, seen) ==> Closed(a, s.arrays[a]))
  }

  ghost predicate PcOk(s: State, pc: Pc) {
    match pc
    case Pushing(a, _, _) => a in s.arrays
    case Writing(a, _, i) => a in s.arrays && i < s.len && i !in s.arrays[a].instance
    case Publishing(a, v, i) =>
      a in s.arrays && i < s.len && i !in s.arrays[a].instance && Slot(a, i) in s.slots && s.slots[Slot(a, i)] == v
    case RollingBack(a, v, i) =>
      a in s.arrays && i < s.len && i !in s.arrays[a].instance && Slot(a, i) in s.slots && s.slots[Slot(a, i)] == v
    case Popping(a, seen, _) => SnapshotOk(s, a, seen)
    case Reading(a, v, i) =>
      a in s.arrays && i in s.arrays[a].instance && Slot(a, i) in s.slots && s.slots[Slot(a, i)] == v && v in s.handed
    case Clearing(a, v, i) =>
      a in s.arrays && i in s.arrays[a].instance && Slot(a, i) in s.slots && s.slots[Slot(a, i)] == v && v in s.handed
    case Deleting(a, got, _) => a in s.arrays && Closed(a, s.arrays[a]) && (got.Some? ==> got.value in s.handed)
    case Draining(a, seen, _, _) => SnapshotOk(s, a, seen)
    case Fetching(a, claimed, fetched, _, _) =>
      && a in s.arrays && fetched <= claimed.Keys
      && forall i :: i in claimed ==>
           && i in s.arrays[a].instance && i < s.len && Slot(a, i) in s.slots && s.slots[Slot(a, i)] == claimed[i]
           && claimed[i] in s.handed
    case Emptying(a, taken, _, _) => a in s.arrays && taken <= s.arrays[a].instance
    case Popped(got) => got.Some? ==> got.value in s.handed
    case _ => true
  }

  ghost predicate Threads(s: State) {
    forall t :: t in s.threads ==> PcOk(s, s.threads[t])
  }

  // ---------------------------------------------------------------- values

  ghost predicate Stores(s: State, a: nat, i: nat) {
    a in s.arrays && i in Available(s.arrays[a])
  }

  ghost predicate Slots(s: State) {
    && PRIMARY in s.arrays
    && (forall a, i :: a in s.arrays && i in s.arrays[a].instance ==> i < s.len && Slot(a, i) in s.slots)
  }

  ghost predicate ValueIn(s: State, a: nat, i: nat, v: Val) {
    Stores(s, a, i) && Slot(a, i) in s.slots && s.slots[Slot(a, i)] == v
  }

  /** Accepted values are stored in one slot, or have been handed out. */
  ghost predicate Kept(s: State) {
    && (forall a, i, v :: ValueIn(s, a, i, v) ==> v in s.accepted && v !in s.handed)
    && (forall a, i, b, j, v :: ValueIn(s, a, i, v) && ValueIn(s, b, j, v) ==> a == b && i == j)
    && (forall v :: v in s.accepted ==> v in s.handed || exists a, i :: ValueIn(s, a, i, v))
    && (forall v :: v in s.handed ==> v in s.accepted)
  }

  /** Values on their way in are new. */
  ghost predicate Incoming(s: State) {
    && (forall t :: t in s.threads && Carried(s.threads[t]).Some? ==> Carried(s.threads[t]).value !in s.accepted)
    && (forall t, u :: (t in s.threads && u in s.threads && Carried(s.threads[t]).Some?
                        && Carried(s.threads[t]) == Carried(s.threads[u])) ==> t == u)
  }

  function Todo(pc: Pc): set<nat> {
    match pc
    case Detaching(todo, _) => todo
    case Draining(_, _, todo, _) => todo
    case Fetching(_, _, _, todo, _) => todo
    case Emptying(_, _, todo, _) => todo
    case _ => {}
  }

  ghost predicate Reachable(s: State, a: nat) {
    a == PRIMARY || a in s.stack || exists t :: t in s.threads && a in Todo(s.threads[t])
  }

  /** An array with available instances is on the stack, or someone is going to drain it. */
  ghost predicate NoneLost(s: State) {
    forall a :: a in s.arrays && Available(s.arrays[a]) != {} ==> Reachable(s, a)
  }

  ghost predicate Inv(s: State) {
    Owners(s) && Threads(s) && Slots(s) && Kept(s) && Incoming(s) && NoneLost(s)
  }

  lemma InitialInv(len: nat)
    ensures Inv(Initial(len))
  {
  }

  // ---------------------------------------------------------------- one thread goes on

  /** Thread `t` goes on with the same slots and the same value. */
  lemma GoesOn(s: State, t: nat, q: Pc)
    requires Inv(s) && PcOk(s, q)
    requires forall a, i :: (Fills(q, a, i) || Empties(q, a, i)) <==> (Fills(PcOf(s, t), a, i) || Empties(PcOf(s, t), a, i))
    requires Carried(q) == Carried(PcOf(s, t)) || Carried(q).None?
    requires Todo(PcOf(s, t)) <= Todo(q)
    ensures Inv(WithPc(s, t, q))
  {
    var u := WithPc(s, t, q);
    GoesOnOwners(s, u, t);
    GoesOnValues(s, u, t);
    forall v | v in u.threads ensures PcOk(u, u.threads[v]) {
      assert PcOk(s, u.threads[v]);
    }
  }

  lemma GoesOnOwners(s: State, u: State, t: nat)
    requires Owners(s) && t in u.threads && u == s.(threads := s.threads[t := u.threads[t]])
    requires forall a, i :: (Fills(u.threads[t], a, i) || Empties(u.threads[t], a, i))
                            <==> (Fills(PcOf(s, t), a, i) || Empties(PcOf(s, t), a, i))
    ensures Owners(u)
  {
    assert forall v, a, i :: Owns(u, v, a, i) <==> Owns(s, v, a, i);
  }

  lemma GoesOnValues(s: State, u: State, t: nat)
    requires Slots(s) && Kept(s) && Incoming(s) && NoneLost(s)
    requires t in u.threads && u == s.(threads := s.threads[t := u.threads[t]])
    requires Carried(u.threads[t]) == Carried(PcOf(s, t)) || Carried(u.threads[t]).None?
    requires Todo(PcOf(s, t)) <= Todo(u.threads[t])
    ensures Slots(u) && Kept(u) && Incoming(u) && NoneLost(u)
  {
    assert forall a, i, v :: ValueIn(u, a, i, v) <==> ValueIn(s, a, i, v);
    forall a | a in u.arrays && Available(u.arrays[a]) != {} ensures Reachable(u, a) {
      StaysReachable(s, u, t, a);
    }
  }

  lemma StaysReachable(s: State, u: State, t: nat, a: nat)
    requires Reachable(s, a) && t in u.threads && u.threads == s.threads[t := u.threads[t]]
    requires s.stack <= u.stack && Todo(PcOf(s, t)) <= Todo(u.threads[t])
    ensures Reachable(u, a)
  {
    if a != PRIMARY && a !in s.stack {
      var v :| v in s.threads && a in Todo(s.threads[v]);
      assert a in Todo(u.threads[v]);
    }
  }
}
