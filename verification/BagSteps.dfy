/**
  Every step of every thread keeps the invariant of the bag.
 */
module BagSteps {
  import opened Common
  import opened Bag
  import opened BagSafety

  // ---------------------------------------------------------------- the bitmaps of one array

  predicate Holds(pc: Pc, a: nat, i: nat) { Fills(pc, a, i) || Empties(pc, a, i) }

  /**
    The bitmaps of array `a` become `m` and thread `t` goes on to `q`: it gives up the slots it owned
    and takes others that nobody owns, and it changes no slot but these.
   */
  ghost predicate Changes(s: State, u: State, t: nat, a: nat, m: Meta, q: Pc) {
    && a in s.arrays && u.len == s.len && u.arrays == s.arrays[a := m] && u.threads == s.threads[t := q]
    && s.handed <= u.handed
    && (forall b, i :: b != a ==> !Holds(PcOf(s, t), b, i) && !Holds(q, b, i))
    && (forall i :: i in m.owned <==> (i in s.arrays[a].owned && !Holds(PcOf(s, t), a, i)) || Holds(q, a, i))
    && (forall i :: Holds(q, a, i) ==> i !in s.arrays[a].owned || Holds(PcOf(s, t), a, i))
    && (forall i :: (i in m.instance) != (i in s.arrays[a].instance) ==> Holds(PcOf(s, t), a, i))
    && (Closed(a, s.arrays[a]) ==> Closed(a, m))
  }

  lemma ChangesOwners(s: State, u: State, t: nat, a: nat, m: Meta, q: Pc)
    requires Owners(s) && Changes(s, u, t, a, m, q)
    ensures Owners(u)
  {
    forall b, i | b in u.arrays && i in u.arrays[b].owned ensures exists v :: Owns(u, v, b, i) {
      if b == a && Holds(q, a, i) {
        assert Owns(u, t, b, i);
      } else {
        var v :| Owns(s, v, b, i);
        assert v == t ==> Holds(PcOf(s, t), b, i);
        assert Owns(u, v, b, i);
      }
    }
    forall v, b, i | Owns(u, v, b, i)
      ensures b in u.arrays && i in u.arrays[b].owned && (v == t || (Owns(s, v, b, i) && !Holds(PcOf(s, t), b, i)))
    {
      if v == t {
        assert Holds(q, b, i);
      } else {
        assert Owns(s, v, b, i);
        assert Holds(PcOf(s, t), b, i) ==> Owns(s, t, b, i);
      }
    }
    forall v, w, b, i | Owns(u, v, b, i) && Owns(u, w, b, i) ensures v == w {
      assert v == t ==> Holds(q, b, i);
      assert w == t ==> Holds(q, b, i);
    }
  }

  /** The value in a slot that a thread owns is left alone by others. */
  ghost predicate OthersSlotsStay(s: State, u: State, t: nat) {
    forall v, b, i :: v != t && Owns(s, v, b, i) ==>
      (Slot(b, i) in s.slots ==> Slot(b, i) in u.slots && u.slots[Slot(b, i)] == s.slots[Slot(b, i)])
  }

  lemma ChangesThreads(s: State, u: State, t: nat, a: nat, m: Meta, q: Pc)
    requires Owners(s) && Threads(s) && Changes(s, u, t, a, m, q) && OthersSlotsStay(s, u, t) && PcOk(u, q)
    ensures Threads(u)
  {
    forall v | v in u.threads ensures PcOk(u, u.threads[v]) {
      if v != t { OtherPcOk(s, u, t, a, m, q, v); }
    }
  }

  lemma OtherPcOk(s: State, u: State, t: nat, a: nat, m: Meta, q: Pc, v: nat)
    requires Owners(s) && Changes(s, u, t, a, m, q) && OthersSlotsStay(s, u, t)
    requires v in s.threads && v != t && PcOk(s, s.threads[v])
    ensures PcOk(u, s.threads[v])
  {
    forall b, i | Owns(s, v, b, i) ensures b in s.arrays && (i in u.arrays[b].instance <==> i in s.arrays[b].instance) {
      assert t in s.threads && Holds(PcOf(s, t), b, i) ==> Owns(s, t, b, i);
    }
    var pc := s.threads[v];
    if pc.Fetching? {
      forall i | i in pc.claimed
        ensures i in u.arrays[pc.a].instance && Slot(pc.a, i) in u.slots && u.slots[Slot(pc.a, i)] == pc.claimed[i]
      {
        assert Owns(s, v, pc.a, i);
      }
    } else if pc.Emptying? {
      forall i | i in pc.taken ensures i in u.arrays[pc.a].instance { assert Owns(s, v, pc.a, i); }
    } else if pc.Writing? || pc.Publishing? || pc.RollingBack? || pc.Reading? || pc.Clearing? {
      assert Owns(s, v, pc.a, pc.i);
    }
  }

  lemma ChangesReachable(s: State, u: State, t: nat, a: nat, m: Meta, q: Pc)
    requires NoneLost(s) && Changes(s, u, t, a, m, q) && s.stack <= u.stack && Todo(PcOf(s, t)) <= Todo(q)
    requires a != PRIMARY && Available(m) != {} ==> Available(s.arrays[a]) != {}
    ensures NoneLost(u)
  {
    forall b | b in u.arrays && Available(u.arrays[b]) != {} ensures Reachable(u, b) {
      if b != PRIMARY { StaysReachable(s, u, t, b); }
    }
  }

  lemma ChangesSlots(s: State, u: State, t: nat, a: nat, m: Meta, q: Pc)
    requires Slots(s) && Changes(s, u, t, a, m, q) && s.slots.Keys <= u.slots.Keys
    requires forall i :: i in m.instance && i !in s.arrays[a].instance ==> i < s.len && Slot(a, i) in u.slots
    ensures Slots(u)
  {
  }

  /** The stored values are the same. */
  lemma SameValues(s: State, u: State, a: nat, m: Meta)
    requires Kept(s) && a in s.arrays && u.arrays == s.arrays[a := m] && Available(m) == Available(s.arrays[a])
    requires forall b, i :: Stores(s, b, i) && Slot(b, i) in s.slots ==> Slot(b, i) in u.slots && u.slots[Slot(b, i)] == s.slots[Slot(b, i)]
    requires forall b, i :: Stores(s, b, i) && Slot(b, i) in u.slots ==> Slot(b, i) in s.slots
    requires u.accepted == s.accepted && u.handed == s.handed
    ensures Kept(u)
  {
    assert forall b, i :: Stores(u, b, i) <==> Stores(s, b, i);
    assert forall b, i, v :: ValueIn(u, b, i, v) <==> ValueIn(s, b, i, v);
  }

  lemma SameIncoming(s: State, u: State, t: nat)
    requires Incoming(s) && t in u.threads && u.threads == s.threads[t := u.threads[t]]
    requires Carried(u.threads[t]) == Carried(PcOf(s, t)) || Carried(u.threads[t]).None?
    requires u.accepted == s.accepted || (Carried(PcOf(s, t)).Some? && Carried(u.threads[t]).None?
                                          && u.accepted == s.accepted + {Carried(PcOf(s, t)).value})
    ensures Incoming(u)
  {
  }

  // ---------------------------------------------------------------- pushing

  lemma OwnFreeChanges(s: State, u: State, t: nat, a: nat, v: Val, i: nat)
    requires PcOf(s, t).Pushing? && a in s.arrays && i !in s.arrays[a].instance && i !in s.arrays[a].owned
    requires u == WithPc(WithMeta(s, a, s.arrays[a].(owned := s.arrays[a].owned + {i})), t, Writing(a, v, i))
    ensures Changes(s, u, t, a, u.arrays[a], u.threads[t]) && Available(u.arrays[a]) == Available(s.arrays[a])
  {
  }

  lemma OwnFreeKeeps(s: State, u: State, t: nat, a: nat, v: Val, i: nat)
    requires Inv(s) && PcOf(s, t).Pushing? && PcOf(s, t).a == a && PcOf(s, t).v == v && a in s.arrays
    requires i < s.len && i !in s.arrays[a].instance && i !in s.arrays[a].owned
    requires u == WithPc(WithMeta(s, a, s.arrays[a].(owned := s.arrays[a].owned + {i})), t, Writing(a, v, i))
    ensures Inv(u)
  {
    var m := u.arrays[a];
    OwnFreeChanges(s, u, t, a, v, i);
    ChangesOwners(s, u, t, a, m, u.threads[t]);
    ChangesThreads(s, u, t, a, m, u.threads[t]);
    ChangesSlots(s, u, t, a, m, u.threads[t]);
    ChangesReachable(s, u, t, a, m, u.threads[t]);
    SameValues(s, u, a, m);
    SameIncoming(s, u, t);
  }

  lemma PushStepKeeps(s: State, t: nat)
    requires Inv(s) && PcOf(s, t).Pushing? && PcOf(s, t).a in s.arrays
    ensures Inv(PushStep(s, t))
  {
    var Pushing(a, v, seen) := PcOf(s, t);
    var free := FreeSlot(seen, s.len);
    if !Closed(a, seen) && free.Some? && s.arrays[a] == seen {
      OwnFreeKeeps(s, PushStep(s, t), t, a, v, free.value);
    } else {
      GoesOn(s, t, PushStep(s, t).threads[t]);
    }
  }

  /** The thread that owns a slot without an instance writes its value. */
  lemma WriteKeeps(s: State, u: State, t: nat)
    requires Inv(s) && StepEnabled(s, t) && PcOf(s, t).Writing? && u == Stepped(s, t)
    ensures Inv(u)
  {
    var Writing(a, v, i) := PcOf(s, t);
    var m := s.arrays[a];
    assert PcOk(s, PcOf(s, t)) && Owns(s, t, a, i);
    assert u.arrays == s.arrays[a := m];
    assert Changes(s, u, t, a, m, u.threads[t]);
    ChangesOwners(s, u, t, a, m, u.threads[t]);
    ChangesThreads(s, u, t, a, m, u.threads[t]);
    ChangesSlots(s, u, t, a, m, u.threads[t]);
    ChangesReachable(s, u, t, a, m, u.threads[t]);
    SameValues(s, u, a, m);
    SameIncoming(s, u, t);
  }

  lemma PublishedKept(s: State, u: State, t: nat, a: nat, v: Val, i: nat)
    requires Kept(s) && Incoming(s) && t in s.threads && PcOf(s, t) == Publishing(a, v, i) && a in s.arrays
    requires i !in Available(s.arrays[a]) && Slot(a, i) in s.slots && s.slots[Slot(a, i)] == v
    requires a in u.arrays && u.arrays == s.arrays[a := u.arrays[a]] && Available(u.arrays[a]) == Available(s.arrays[a]) + {i}
    requires u.slots == s.slots && u.accepted == s.accepted + {v} && u.handed == s.handed
    ensures Kept(u)
  {
    assert forall b, j :: Stores(u, b, j) <==> Stores(s, b, j) || (b == a && j == i);
    forall b, j, x ensures ValueIn(u, b, j, x) <==> ValueIn(s, b, j, x) || (b == a && j == i && x == v) {}
    assert ValueIn(u, a, i, v);
    forall x | x in u.accepted ensures x in u.handed || exists b, j :: ValueIn(u, b, j, x) {
      if x != v && x !in s.handed {
        var b, j :| ValueIn(s, b, j, x);
        assert ValueIn(u, b, j, x);
      }
    }
  }

  lemma PublishKeeps(s: State, u: State, t: nat)
    requires Inv(s) && StepEnabled(s, t) && PcOf(s, t).Publishing? && u == PublishStep(s, t)
    requires !Closed(PcOf(s, t).a, s.arrays[PcOf(s, t).a])
    ensures Inv(u)
  {
    var Publishing(a, v, i) := PcOf(s, t);
    var m := u.arrays[a];
    assert PcOk(s, PcOf(s, t)) && Owns(s, t, a, i);
    assert Available(m) == Available(s.arrays[a]) + {i};
    assert Changes(s, u, t, a, m, Pushed(v));
    ChangesOwners(s, u, t, a, m, Pushed(v));
    ChangesThreads(s, u, t, a, m, Pushed(v));
    ChangesSlots(s, u, t, a, m, Pushed(v));
    ChangesReachable(s, u, t, a, m, Pushed(v));
    PublishedKept(s, u, t, a, v, i);
    SameIncoming(s, u, t);
  }

  /** A push that is rolled back goes on with its own value. */
  lemma RollBackKeeps(s: State, u: State, t: nat)
    requires Inv(s) && StepEnabled(s, t) && PcOf(s, t).RollingBack? && u == RollBackStep(s, t)
    ensures Inv(u) && u.threads[t] == Rejected(PcOf(s, t).a, PcOf(s, t).v)
  {
    var RollingBack(a, v, i) := PcOf(s, t);
    var m := u.arrays[a];
    assert PcOk(s, PcOf(s, t)) && Owns(s, t, a, i);
    assert Available(m) == Available(s.arrays[a]);
    assert Changes(s, u, t, a, m, u.threads[t]);
    ChangesOwners(s, u, t, a, m, u.threads[t]);
    ChangesThreads(s, u, t, a, m, u.threads[t]);
    ChangesSlots(s, u, t, a, m, u.threads[t]);
    ChangesReachable(s, u, t, a, m, u.threads[t]);
    SameValues(s, u, a, m);
    SameIncoming(s, u, t);
  }

  // ---------------------------------------------------------------- popping

  /** The instances in `taken` are claimed, and their values handed out. */
  lemma ClaimedKept(s: State, u: State, a: nat, taken: set<nat>)
    requires Kept(s) && a in s.arrays && taken <= Available(s.arrays[a])
    requires a in u.arrays && u.arrays == s.arrays[a := u.arrays[a]] && Available(u.arrays[a]) == Available(s.arrays[a]) - taken
    requires u.slots == s.slots && u.accepted == s.accepted && u.handed == s.handed + Values(s, a, taken)
    ensures Kept(u)
  {
    forall i | i in taken && Slot(a, i) in s.slots ensures ValueIn(s, a, i, s.slots[Slot(a, i)]) {}
    forall b, j ensures Stores(u, b, j) <==> Stores(s, b, j) && !(b == a && j in taken) {}
    forall b, j, x ensures ValueIn(u, b, j, x) <==> ValueIn(s, b, j, x) && !(b == a && j in taken) {}
    forall b, j, x | ValueIn(u, b, j, x) ensures x !in Values(s, a, taken) {
      assert ValueIn(s, b, j, x);
      assert forall i :: i in taken && Slot(a, i) in s.slots && s.slots[Slot(a, i)] == x ==> ValueIn(s, a, i, x);
    }
    forall x | x in u.accepted ensures x in u.handed || exists b, j :: ValueIn(u, b, j, x) {
      if x !in s.handed {
        var b, j :| ValueIn(s, b, j, x);
        assert b == a && j in taken ==> x in Values(s, a, taken);
        assert !(b == a && j in taken) ==> ValueIn(u, b, j, x);
      }
    }
  }

  lemma OneValue(s: State, a: nat, i: nat)
    requires Slot(a, i) in s.slots
    ensures Values(s, a, {i}) == {s.slots[Slot(a, i)]}
  {
  }

  lemma PopClaimKeeps(s: State, u: State, t: nat, i: nat)
    requires Inv(s) && StepEnabled(s, t) && PcOf(s, t).Popping? && u == PopStep(s, t)
    requires s.arrays[PcOf(s, t).a] == PcOf(s, t).seen && FullSlot(PcOf(s, t).seen, s.len) == Some(i)
    ensures Inv(u)
  {
    var a := PcOf(s, t).a;
    var m := u.arrays[a];
    OneValue(s, a, i);
    assert Available(m) == Available(s.arrays[a]) - {i};
    assert Changes(s, u, t, a, m, u.threads[t]);
    ChangesOwners(s, u, t, a, m, u.threads[t]);
    ChangesThreads(s, u, t, a, m, u.threads[t]);
    ChangesSlots(s, u, t, a, m, u.threads[t]);
    ChangesReachable(s, u, t, a, m, u.threads[t]);
    ClaimedKept(s, u, a, {i});
    SameIncoming(s, u, t);
  }

  lemma PopStepKeeps(s: State, t: nat)
    requires Inv(s) && StepEnabled(s, t) && PcOf(s, t).Popping?
    ensures Inv(PopStep(s, t))
  {
    var Popping(a, seen, _) := PcOf(s, t);
    assert PcOk(s, PcOf(s, t));
    var full := FullSlot(seen, s.len);
    if full.Some? && s.arrays[a] == seen {
      PopClaimKeeps(s, PopStep(s, t), t, full.value);
    } else {
      GoesOn(s, t, PopStep(s, t).threads[t]);
    }
  }

  lemma ReadKeeps(s: State, t: nat)
    requires Inv(s) && StepEnabled(s, t) && PcOf(s, t).Reading?
    ensures Inv(Stepped(s, t)) && Stepped(s, t).threads[t] == Clearing(PcOf(s, t).a, PcOf(s, t).v, PcOf(s, t).i)
  {
    assert PcOk(s, PcOf(s, t));
    GoesOn(s, t, Stepped(s, t).threads[t]);
  }

  lemma ClearKeeps(s: State, u: State, t: nat)
    requires Inv(s) && StepEnabled(s, t) && PcOf(s, t).Clearing? && u == ClearStep(s, t)
    ensures Inv(u)
  {
    var Clearing(a, v, i) := PcOf(s, t);
    var m := u.arrays[a];
    assert PcOk(s, PcOf(s, t)) && Owns(s, t, a, i);
    assert Available(m) == Available(s.arrays[a]);
    assert Changes(s, u, t, a, m, u.threads[t]);
    ChangesOwners(s, u, t, a, m, u.threads[t]);
    ChangesThreads(s, u, t, a, m, u.threads[t]);
    ChangesSlots(s, u, t, a, m, u.threads[t]);
    ChangesReachable(s, u, t, a, m, u.threads[t]);
    SameValues(s, u, a, m);
    SameIncoming(s, u, t);
  }

  // ---------------------------------------------------------------- popping all

  lemma ClaimedValues(s: State, a: nat, indices: set<nat>)
    requires Slots(s) && a in s.arrays && indices <= s.arrays[a].instance
    ensures ValuesAt(s, a, indices).Keys == indices
    ensures forall i :: i in indices ==>
              ValuesAt(s, a, indices)[i] == s.slots[Slot(a, i)] && ValuesAt(s, a, indices)[i] in Values(s, a, indices)
  {
  }

  lemma FetchingOk(s: State, u: State, a: nat, indices: set<nat>, todo: set<nat>, acc: seq<Val>)
    requires Slots(s) && a in s.arrays && indices <= s.arrays[a].instance
    requires a in u.arrays && u.arrays[a].instance == s.arrays[a].instance && u.slots == s.slots && u.len == s.len
    requires Values(s, a, indices) <= u.handed
    ensures ValuesAt(s, a, indices).Keys == indices && PcOk(u, Fetching(a, ValuesAt(s, a, indices), {}, todo, acc))
  {
    ClaimedValues(s, a, indices);
  }

  lemma DrainClaimKeeps(s: State, u: State, t: nat)
    requires Inv(s) && StepEnabled(s, t) && PcOf(s, t).Draining? && u == DrainStep(s, t)
    requires s.arrays[PcOf(s, t).a] == PcOf(s, t).seen && Available(PcOf(s, t).seen) != {}
    ensures Inv(u)
  {
    var Draining(a, seen, todo, acc) := PcOf(s, t);
    var m := u.arrays[a];
    FetchingOk(s, u, a, Available(seen), todo, acc);
    assert Available(m) == {};
    assert Changes(s, u, t, a, m, u.threads[t]);
    ChangesOwners(s, u, t, a, m, u.threads[t]);
    ChangesThreads(s, u, t, a, m, u.threads[t]);
    ChangesSlots(s, u, t, a, m, u.threads[t]);
    ChangesReachable(s, u, t, a, m, u.threads[t]);
    ClaimedKept(s, u, a, Available(seen));
    SameIncoming(s, u, t);
  }

  /** Each value that is read is the one that has been claimed, and all of them are read. */
  lemma FetchKeeps(s: State, t: nat)
    requires Inv(s) && StepEnabled(s, t) && PcOf(s, t).Fetching?
    ensures Inv(FetchStep(s, t))
    ensures var p, q := PcOf(s, t), FetchStep(s, t).threads[t];
            if q.Fetching? then
              exists i :: i in p.claimed && i !in p.fetched && q == p.(fetched := p.fetched + {i}, acc := p.acc + [p.claimed[i]])
            else p.fetched == p.claimed.Keys && q == Emptying(p.a, p.claimed.Keys, p.todo, p.acc)
  {
    var p := PcOf(s, t);
    assert PcOk(s, p);
    var next := FullSlot(Meta(p.claimed.Keys, p.fetched), s.len);
    if next.Some? {
      assert next.value in Available(Meta(p.claimed.Keys, p.fetched));
    } else {
      forall i | i in p.claimed ensures i in p.fetched {
        assert i !in Available(Meta(p.claimed.Keys, p.fetched));
      }
    }
    GoesOn(s, t, FetchStep(s, t).threads[t]);
  }

  lemma EmptyChanges(s: State, u: State, t: nat)
    requires Owners(s) && StepEnabled(s, t) && PcOf(s, t).Emptying? && u == EmptyStep(s, t)
    requires PcOf(s, t).taken <= s.arrays[PcOf(s, t).a].instance
    ensures var a := PcOf(s, t).a;
            && Available(u.arrays[a]) == Available(s.arrays[a])
            && Changes(s, u, t, a, u.arrays[a], u.threads[t])
  {
    var p := PcOf(s, t);
    assert forall i :: i in p.taken ==> Owns(s, t, p.a, i);
  }

  lemma EmptyKeeps(s: State, u: State, t: nat)
    requires Inv(s) && StepEnabled(s, t) && PcOf(s, t).Emptying? && u == EmptyStep(s, t)
    requires PcOf(s, t).a == PRIMARY ==> PcOf(s, t).todo == {}
    ensures Inv(u)
  {
    var a := PcOf(s, t).a;
    var m := u.arrays[a];
    assert PcOk(s, PcOf(s, t));
    EmptyChanges(s, u, t);
    ChangesOwners(s, u, t, a, m, u.threads[t]);
    ChangesThreads(s, u, t, a, m, u.threads[t]);
    ChangesSlots(s, u, t, a, m, u.threads[t]);
    ChangesReachable(s, u, t, a, m, u.threads[t]);
    SameValues(s, u, a, m);
    SameIncoming(s, u, t);
  }

  // ---------------------------------------------------------------- the stack

  /** An array without available instances is taken off the stack. */
  lemma DeleteKeeps(s: State, u: State, t: nat)
    requires Inv(s) && StepEnabled(s, t) && PcOf(s, t).Deleting? && u == Stepped(s, t)
    ensures Inv(u)
  {
    var a := PcOf(s, t).a;
    assert PcOk(s, PcOf(s, t));
    var q := u.threads[t];
    GoesOn(s, t, q);
    var m := WithPc(s, t, q);
    forall b | b in u.arrays && Available(u.arrays[b]) != {} ensures Reachable(u, b) {
      assert Reachable(m, b) && b != a;
    }
    SameButStack(m, u);
  }

  lemma SameButStack(s: State, u: State)
    requires u == s.(stack := u.stack) && Owners(s) && Threads(s) && Slots(s) && Kept(s) && Incoming(s)
    ensures Owners(u) && Threads(u) && Slots(u) && Kept(u) && Incoming(u)
  {
    assert forall t, a, i :: Owns(u, t, a, i) <==> Owns(s, t, a, i);
    assert forall a, i, v :: ValueIn(u, a, i, v) <==> ValueIn(s, a, i, v);
    forall t | t in u.threads ensures PcOk(u, u.threads[t]) {
      assert PcOk(s, s.threads[t]);
    }
  }

  lemma BeginPopAllKeeps(s: State, u: State, t: nat)
    requires Inv(s) && AtRest(PcOf(s, t)) && u == WithPc(s.(stack := {}), t, Detaching(s.stack, []))
    ensures Inv(u)
  {
    var q := Detaching(s.stack, []);
    GoesOn(s, t, q);
    var m := WithPc(s, t, q);
    SameButStack(m, u);
    forall b | b in u.arrays && Available(u.arrays[b]) != {} ensures Reachable(u, b) {
      assert Reachable(m, b);
      if b in s.stack { assert b in Todo(u.threads[t]); }
    }
  }

  /** A drained array is no longer on the list; nothing can be stored in it any more. */
  lemma DrainedKeeps(s: State, u: State, t: nat, q: Pc)
    requires Inv(s) && t in s.threads && PcOf(s, t).Draining? && PcOf(s, t).a in s.arrays
    requires Available(s.arrays[PcOf(s, t).a]) == {} || PcOf(s, t).a == PRIMARY
    requires q == Detaching(PcOf(s, t).todo - {PcOf(s, t).a}, PcOf(s, t).acc) || (q.Drained? && PcOf(s, t).todo <= {PcOf(s, t).a})
    requires u == WithPc(s, t, q)
    ensures Inv(u)
  {
    var a := PcOf(s, t).a;
    var m := WithPc(s, t, Detaching(PcOf(s, t).todo, PcOf(s, t).acc));
    GoesOn(s, t, Detaching(PcOf(s, t).todo, PcOf(s, t).acc));
    DrainedRest(m, u, t);
    DrainedNoneLost(m, u, t, a);
  }

  /** A thread that owns no slot and carries no value turns to something else of this kind. */
  lemma DrainedRest(m: State, u: State, t: nat)
    requires Owners(m) && Threads(m) && Slots(m) && Kept(m) && Incoming(m)
    requires t in m.threads && t in u.threads && u == WithPc(m, t, u.threads[t]) && m.threads[t].Detaching?
    requires (u.threads[t].Detaching? || u.threads[t].Drained?) && PcOk(u, u.threads[t])
    ensures Owners(u) && Threads(u) && Slots(u) && Kept(u) && Incoming(u)
  {
    assert forall v, b, i :: Owns(u, v, b, i) <==> Owns(m, v, b, i);
    assert forall b, i, v :: ValueIn(u, b, i, v) <==> ValueIn(m, b, i, v);
    forall v | v in u.threads ensures PcOk(u, u.threads[v]) {
      assert v != t ==> PcOk(m, m.threads[v]);
    }
  }

  lemma DrainedNoneLost(m: State, u: State, t: nat, a: nat)
    requires t in m.threads && t in u.threads && NoneLost(m)
    requires u == WithPc(m, t, u.threads[t]) && Todo(m.threads[t]) - {a} <= Todo(u.threads[t])
    requires a in m.arrays && (Available(m.arrays[a]) == {} || a == PRIMARY)
    ensures NoneLost(u)
  {
    forall b | b in u.arrays && Available(u.arrays[b]) != {} ensures Reachable(u, b) {
      assert Reachable(m, b);
      StillReachable(m, u, t, a, b);
    }
  }

  lemma StillReachable(m: State, u: State, t: nat, a: nat, b: nat)
    requires t in m.threads && t in u.threads && Reachable(m, b) && (b != a || b == PRIMARY)
    requires u == WithPc(m, t, u.threads[t]) && Todo(m.threads[t]) - {a} <= Todo(u.threads[t])
    ensures Reachable(u, b)
  {
    if b != PRIMARY && b !in u.stack {
      var v :| v in m.threads && b in Todo(m.threads[v]);
      assert b in Todo(u.threads[v]);
    }
  }

  lemma DrainStepKeeps(s: State, t: nat)
    requires Inv(s) && StepEnabled(s, t) && PcOf(s, t).Draining?
    requires PcOf(s, t).a == PRIMARY ==> PcOf(s, t).todo == {}
    ensures Inv(DrainStep(s, t))
  {
    var Draining(a, seen, todo, acc) := PcOf(s, t);
    assert PcOk(s, PcOf(s, t));
    if Available(seen) == {} {
      DrainedKeeps(s, DrainStep(s, t), t, DrainStep(s, t).threads[t]);
    } else if s.arrays[a] == seen {
      DrainClaimKeeps(s, DrainStep(s, t), t);
    } else {
      GoesOn(s, t, DrainStep(s, t).threads[t]);
    }
  }

  // ---------------------------------------------------------------- a new array

  lemma ExtendKept(s: State, u: State, n: nat, v: Val)
    requires Kept(s) && n !in s.arrays && v !in s.accepted
    requires u.arrays == s.arrays[n := Meta({0}, {})] && u.slots == s.slots[Slot(n, 0) := v]
    requires u.accepted == s.accepted + {v} && u.handed == s.handed
    ensures Kept(u)
  {
    forall b, j ensures Stores(u, b, j) <==> Stores(s, b, j) || (b == n && j == 0) {}
    forall b, j, x ensures ValueIn(u, b, j, x) <==> ValueIn(s, b, j, x) || (b == n && j == 0 && x == v) {}
    assert ValueIn(u, n, 0, v);
    forall x | x in u.accepted ensures x in u.handed || exists b, j :: ValueIn(u, b, j, x) {
      if x != v && x !in s.handed {
        var b, j :| ValueIn(s, b, j, x);
        assert ValueIn(u, b, j, x);
      }
    }
  }

  lemma ExtendThreads(s: State, u: State, t: nat, n: nat)
    requires Owners(s) && Threads(s) && n !in s.arrays && n != PRIMARY
    requires u.arrays == s.arrays[n := Meta({0}, {})] && Slot(n, 0) in u.slots
    requires u.slots == s.slots[Slot(n, 0) := u.slots[Slot(n, 0)]]
    requires t in u.threads && u.threads == s.threads[t := u.threads[t]] && u.threads[t].Pushed? && u.len == s.len && u.handed == s.handed
    ensures Threads(u)
  {
    forall v | v in u.threads ensures PcOk(u, u.threads[v]) {
      if v != t { assert PcOk(s, s.threads[v]); }
    }
  }

  lemma ExtendOwners(s: State, u: State, t: nat, n: nat)
    requires Owners(s) && Enabled(s, Extend(t, n)) && u == Apply(s, Extend(t, n))
    ensures Owners(u)
  {
    forall w, b, i ensures Owns(u, w, b, i) <==> Owns(s, w, b, i) {}
  }

  lemma ExtendKeeps(s: State, u: State, t: nat, n: nat)
    requires Inv(s) && Enabled(s, Extend(t, n)) && u == Apply(s, Extend(t, n))
    ensures Inv(u)
  {
    var v := PcOf(s, t).v;
    assert Carried(PcOf(s, t)) == Some(v);
    ExtendOwners(s, u, t, n);
    ExtendThreads(s, u, t, n);
    ExtendKept(s, u, n, v);
    SameIncoming(s, u, t);
    ExtendReachable(s, u, t, n);
  }

  lemma ExtendReachable(s: State, u: State, t: nat, n: nat)
    requires NoneLost(s) && Enabled(s, Extend(t, n)) && u == Apply(s, Extend(t, n))
    ensures NoneLost(u)
  {
    forall b | b in u.arrays && Available(u.arrays[b]) != {} ensures Reachable(u, b) {
      if b != n { StaysReachable(s, u, t, b); }
    }
  }

  // ---------------------------------------------------------------- every step

  lemma BeginPushKeeps(s: State, u: State, t: nat, v: Val)
    requires Inv(s) && Enabled(s, BeginPush(t, v)) && u == Apply(s, BeginPush(t, v))
    ensures Inv(u)
  {
    forall w, b, i ensures Owns(u, w, b, i) <==> Owns(s, w, b, i) {}
    forall b, i, x ensures ValueIn(u, b, i, x) <==> ValueIn(s, b, i, x) {}
    forall w | w in u.threads ensures PcOk(u, u.threads[w]) {
      if w != t { assert PcOk(s, s.threads[w]); }
    }
    forall b | b in u.arrays && Available(u.arrays[b]) != {} ensures Reachable(u, b) {
      StaysReachable(s, u, t, b);
    }
  }

  lemma PublishStepKeeps(s: State, t: nat)
    requires Inv(s) && StepEnabled(s, t) && PcOf(s, t).Publishing?
    ensures Inv(PublishStep(s, t))
  {
    var pc := PcOf(s, t);
    assert PcOk(s, pc);
    if Closed(pc.a, s.arrays[pc.a]) {
      GoesOn(s, t, RollingBack(pc.a, pc.v, pc.i));
    } else {
      PublishKeeps(s, PublishStep(s, t), t);
    }
  }

  /** The primary array is drained last. */
  ghost predicate PrimaryLast(s: State) {
    && PRIMARY !in s.stack
    && (forall t :: t in s.threads ==> PRIMARY !in Todo(s.threads[t]))
    && (forall t :: t in s.threads && Drains(s.threads[t]) && s.threads[t].a == PRIMARY ==> s.threads[t].todo == {})
  }

  predicate Drains(pc: Pc) { pc.Draining? || pc.Fetching? || pc.Emptying? }

  lemma StepKeeps(s: State, t: nat)
    requires Inv(s) && PrimaryLast(s) && StepEnabled(s, t)
    ensures Inv(Stepped(s, t))
  {
    match PcOf(s, t)
    case Pushing(_, _, _) => PushStepKeeps(s, t);
    case Writing(_, _, _) => WriteKeeps(s, Stepped(s, t), t);
    case Publishing(_, _, _) => PublishStepKeeps(s, t);
    case RollingBack(_, _, _) => RollBackKeeps(s, Stepped(s, t), t);
    case Popping(_, _, _) => PopStepKeeps(s, t);
    case Reading(_, _, _) => ReadKeeps(s, t);
    case Clearing(_, _, _) => ClearKeeps(s, Stepped(s, t), t);
    case Deleting(_, _, _) => DeleteKeeps(s, Stepped(s, t), t);
    case Draining(_, _, _, _) => DrainStepKeeps(s, t);
    case Fetching(_, _, _, _, _) => FetchKeeps(s, t);
    case Emptying(_, _, _, _) => EmptyKeeps(s, Stepped(s, t), t);
    case _ =>
  }

  lemma PrimaryLastStep(s: State, t: nat)
    requires PrimaryLast(s) && StepEnabled(s, t)
    ensures PrimaryLast(Stepped(s, t))
  {
    assert t in s.threads ==> Todo(Stepped(s, t).threads[t]) <= Todo(s.threads[t]);
  }

  lemma PrimaryLastKept(s: State, a: Action)
    requires PrimaryLast(s) && Enabled(s, a)
    ensures PrimaryLast(Apply(s, a))
  {
    if a.Step? { PrimaryLastStep(s, a.t); }
  }

  /** A thread looks at another array, or begins to look for one. */
  lemma ChoiceKeeps(s: State, a: Action)
    requires Inv(s) && Enabled(s, a) && (a.BeginPop? || a.Peek? || a.Visit? || a.Drain?)
    ensures Inv(Apply(s, a))
  {
    GoesOn(s, a.t, Apply(s, a).threads[a.t]);
  }

  lemma InvKept(s: State, a: Action)
    requires Inv(s) && PrimaryLast(s) && Enabled(s, a)
    ensures Inv(Apply(s, a))
  {
    match a
    case BeginPush(t, v) => BeginPushKeeps(s, Apply(s, a), t, v);
    case BeginPopAll(t) => BeginPopAllKeeps(s, Apply(s, a), t);
    case Step(t) => StepKeeps(s, t);
    case Extend(t, n) => ExtendKeeps(s, Apply(s, a), t, n);
    case _ => ChoiceKeeps(s, a);
  }
}
