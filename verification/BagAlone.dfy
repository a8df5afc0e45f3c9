/**
  Operations of the bag that nobody interferes with come to an end: a push with its value stored, in
  the primary array if there is room, a pop with a value if there is one, and a drain.
 */
module BagAlone {
  import opened Common
  import opened Bag
  import opened BagSafety
  import opened BagSteps
  import opened BagRuns
  import opened BagReturns
  import opened BagEmptied

  ghost predicate OnlyBy(acts: seq<Action>, t: nat) {
    forall i :: 0 <= i < |acts| ==> acts[i].t == t
  }

  /** Actions of thread `t` alone, none of which begins an operation, lead from `s` to `u`. */
  ghost predicate AloneReaches(s: State, t: nat, u: State) {
    exists acts :: Executes(s, acts, u) && NeverBegins(acts, t) && OnlyBy(acts, t)
  }

  lemma Stays(s: State, t: nat)
    ensures AloneReaches(s, t, s)
  {
    assert Executes(s, [], s) && NeverBegins([], t) && OnlyBy([], t);
  }

  lemma GoesFirst(s: State, a: Action, u: State)
    requires Enabled(s, a) && !Begins(a, a.t) && AloneReaches(Apply(s, a), a.t, u)
    ensures AloneReaches(s, a.t, u)
  {
    var acts :| Executes(Apply(s, a), acts, u) && NeverBegins(acts, a.t) && OnlyBy(acts, a.t);
    var all := [a] + acts;
    assert all[1..] == acts;
    assert forall i :: 0 < i < |all| ==> all[i] == acts[i - 1];
    assert Executes(s, all, u) && NeverBegins(all, a.t) && OnlyBy(all, a.t);
  }

  // ---------------------------------------------------------------- pushing

  lemma OwnedIsFilled(s: State, t: nat, v: Val, i: nat)
    requires PRIMARY in s.arrays && PcOf(s, t) == Writing(PRIMARY, v, i)
    ensures exists u :: AloneReaches(s, t, u) && PcOf(u, t) == Pushed(v) && ValueIn(u, PRIMARY, i, v) && u.arrays.Keys == s.arrays.Keys
  {
    var m := Apply(s, Step(t));
    var u := Apply(m, Step(t));
    assert m.threads[t] == Publishing(PRIMARY, v, i) && u.threads[t] == Pushed(v);
    Stays(u, t);
    GoesFirst(m, Step(t), u);
    GoesFirst(s, Step(t), u);
    assert ValueIn(u, PRIMARY, i, v);
  }

  lemma NewArrayTakes(s: State, t: nat, v: Val)
    requires PRIMARY in s.arrays && s.len > 0 && PcOf(s, t) == Overflowing(v)
    ensures exists u, a :: AloneReaches(s, t, u) && PcOf(u, t) == Pushed(v) && ValueIn(u, a, 0, v) && a !in s.arrays
  {
    var a := Unused(s.arrays.Keys);
    assert a !in s.arrays && a != PRIMARY;
    var u := Apply(s, Extend(t, a));
    Stays(u, t);
    GoesFirst(s, Extend(t, a), u);
    assert ValueIn(u, a, 0, v);
  }

  lemma BegunIsPushed(m: State, t: nat, v: Val)
    requires PRIMARY in m.arrays && m.len > 0 && PcOf(m, t) == Pushing(PRIMARY, v, m.arrays[PRIMARY])
    ensures exists u, a, i :: AloneReaches(m, t, u) && PcOf(u, t) == Pushed(v) && ValueIn(u, a, i, v)
              && if FreeSlot(m.arrays[PRIMARY], m.len).Some? then a == PRIMARY && u.arrays.Keys == m.arrays.Keys else a !in m.arrays
  {
    var n := Apply(m, Step(t));
    match FreeSlot(m.arrays[PRIMARY], m.len)
    case Some(i) =>
      OwnedIsFilled(n, t, v, i);
      var u :| AloneReaches(n, t, u) && PcOf(u, t) == Pushed(v) && ValueIn(u, PRIMARY, i, v) && u.arrays.Keys == n.arrays.Keys;
      GoesFirst(m, Step(t), u);
    case None =>
      NewArrayTakes(n, t, v);
      var u, a :| AloneReaches(n, t, u) && PcOf(u, t) == Pushed(v) && ValueIn(u, a, 0, v) && a !in n.arrays;
      GoesFirst(m, Step(t), u);
  }

  /** A push uses a free slot of the primary array if there is one; otherwise a new array can take the value. */
  lemma AlonePushes(len: nat, before: seq<Action>, s: State, t: nat, v: Val)
    requires len > 0 && Executes(Initial(len), before, s) && Enabled(s, BeginPush(t, v))
    ensures exists u, a, i :: AloneReaches(Apply(s, BeginPush(t, v)), t, u) && PcOf(u, t) == Pushed(v) && ValueIn(u, a, i, v)
              && if FreeSlot(s.arrays[PRIMARY], len).Some? then a == PRIMARY && u.arrays.Keys == s.arrays.Keys else a !in s.arrays
  {
    RunsKeepListed(Initial(len), before, s);
    BegunIsPushed(Apply(s, BeginPush(t, v)), t, v);
  }

  // ---------------------------------------------------------------- popping

  /** A pop that has claimed a value returns it. */
  lemma ClaimedIsPopped(s: State, t: nat, a: nat, i: nat, v: Val)
    requires a in s.arrays && Slot(a, i) in s.slots && s.slots[Slot(a, i)] == v && PcOf(s, t) == Reading(a, v, i)
    ensures exists u :: AloneReaches(s, t, u) && PcOf(u, t) == Popped(Some(v))
  {
    var m := Apply(s, Step(t));
    assert m.threads[t] == Clearing(a, v, i);
    var n := Apply(m, Step(t));
    if n.threads[t].Deleting? {
      var u := Apply(n, Step(t));
      Stays(u, t);
      GoesFirst(n, Step(t), u);
    } else {
      Stays(n, t);
    }
    var u :| AloneReaches(n, t, u) && PcOf(u, t) == Popped(Some(v));
    GoesFirst(m, Step(t), u);
    GoesFirst(s, Step(t), u);
  }

  /** The bag has something to pop: in the primary array or in an array still to be visited. */
  ghost predicate Offers(s: State, left: set<nat>) {
    exists a :: a in s.arrays && (a == PRIMARY || (a in left && a in s.stack)) && Available(s.arrays[a]) != {}
  }

  lemma LookUp(s: State, t: nat, a: nat)
    requires Slots(s) && Enabled(s, Visit(t, a))
    ensures var m := Apply(s, Visit(t, a));
            && Enabled(m, Step(t)) && m.slots == s.slots && m.stack == s.stack && m.arrays == s.arrays
            && PcOf(m, t) == Popping(a, s.arrays[a], PcOf(s, t).left - {a}) && Slots(m)
  {
  }

  lemma LookedAt(s: State, t: nat)
    requires Slots(s) && Enabled(s, Step(t)) && PcOf(s, t).Popping? && PcOf(s, t).seen == s.arrays[PcOf(s, t).a]
    ensures var p, n := PcOf(s, t), PopStep(s, t);
            && n.slots == s.slots && n.stack == s.stack
            && if Available(p.seen) != {} then
                 exists i :: i in Available(p.seen) && Slot(p.a, i) in s.slots && PcOf(n, t) == Reading(p.a, s.slots[Slot(p.a, i)], i)
                             && p.a in n.arrays
               else
                 n.arrays == s.arrays
                 && PcOf(n, t) == if p.a == PRIMARY then Popped(None)
                                  else if p.seen.instance == {} then Deleting(p.a, None, p.left) else Seeking(p.left)
  {
    var p := PcOf(s, t);
    if Available(p.seen) != {} {
      var j :| j in Available(p.seen);
      assert j < s.len;
    }
  }

  /** An overflow array with nothing to pop is left behind, and deleted if it has no instance at all. */
  lemma NextIsSought(n: State, t: nat, a: nat, left: set<nat>) returns (k: State)
    requires a in n.arrays && (PcOf(n, t) == Seeking(left) || PcOf(n, t) == Deleting(a, None, left))
    ensures PcOf(k, t) == Seeking(left) && k.arrays == n.arrays && k.slots == n.slots && k.len == n.len
    ensures k.stack <= n.stack && n.stack - {a} <= k.stack
    ensures forall u :: AloneReaches(k, t, u) ==> AloneReaches(n, t, u)
  {
    if PcOf(n, t).Seeking? {
      k := n;
    } else {
      k := Apply(n, Step(t));
      forall u | AloneReaches(k, t, u) ensures AloneReaches(n, t, u) { GoesFirst(n, Step(t), u); }
    }
  }

  lemma OffersOn(s: State, k: State, a: nat, left: set<nat>)
    requires Offers(s, left) && k.arrays == s.arrays && s.stack - {a} <= k.stack
    requires a != PRIMARY && a in s.arrays && Available(s.arrays[a]) == {}
    ensures Offers(k, left - {a})
  {
    var b :| b in s.arrays && (b == PRIMARY || (b in left && b in s.stack)) && Available(s.arrays[b]) != {};
    assert b != a;
  }

  /** The array is looked at, and the pop ends with a value if it has one, or if it is the primary array. */
  lemma LooksInto(s: State, t: nat, a: nat) returns (n: State)
    requires Slots(s) && PRIMARY !in s.stack && s.stack <= s.arrays.Keys && Enabled(s, Visit(t, a)) && PcOf(s, t).Seeking?
    ensures n.slots == s.slots && n.stack == s.stack && n.len == s.len
    ensures forall u :: AloneReaches(n, t, u) ==> AloneReaches(s, t, u)
    ensures if Available(s.arrays[a]) != {} then
              exists v :: exists u :: AloneReaches(n, t, u) && PcOf(u, t) == Popped(Some(v))
            else
              n.arrays == s.arrays
              && if a == PRIMARY then PcOf(n, t) == Popped(None)
                 else PcOf(n, t) == Seeking(PcOf(s, t).left - {a}) || PcOf(n, t) == Deleting(a, None, PcOf(s, t).left - {a})
  {
    var m := Apply(s, Visit(t, a));
    LookUp(s, t, a);
    n := Apply(m, Step(t));
    assert n == PopStep(m, t);
    LookedAt(m, t);
    forall u | AloneReaches(n, t, u) ensures AloneReaches(s, t, u) {
      GoesFirst(m, Step(t), u);
      GoesFirst(s, Visit(t, a), u);
    }
    if Available(s.arrays[a]) != {} {
      var i :| i in Available(s.arrays[a]) && Slot(a, i) in m.slots && PcOf(n, t) == Reading(a, m.slots[Slot(a, i)], i);
      ClaimedIsPopped(n, t, a, i, n.slots[Slot(a, i)]);
    }
  }

  lemma {:induction false} AloneSeeks(s: State, t: nat)
    requires Slots(s) && PRIMARY !in s.stack && s.stack <= s.arrays.Keys && PcOf(s, t).Seeking?
    ensures exists u :: AloneReaches(s, t, u) && PcOf(u, t).Popped? && (Offers(s, PcOf(s, t).left) ==> PcOf(u, t).got.Some?)
    decreases |PcOf(s, t).left|
  {
    var left := PcOf(s, t).left;
    if left !! s.stack {
      var n := LooksInto(s, t, PRIMARY);
      if Available(s.arrays[PRIMARY]) != {} {
        var v, u :| AloneReaches(n, t, u) && PcOf(u, t) == Popped(Some(v));
      } else {
        Stays(n, t);
        assert !Offers(s, left);
      }
    } else {
      var a :| a in left && a in s.stack;
      var n := LooksInto(s, t, a);
      if Available(s.arrays[a]) != {} {
        var v, u :| AloneReaches(n, t, u) && PcOf(u, t) == Popped(Some(v));
      } else {
        var k := NextIsSought(n, t, a, left - {a});
        assert |left| == |left - {a}| + 1;
        AloneSeeks(k, t);
        if Offers(s, left) { OffersOn(s, k, a, left); }
        var u :| AloneReaches(k, t, u) && PcOf(u, t).Popped? && (Offers(k, left - {a}) ==> PcOf(u, t).got.Some?);
      }
    }
  }

  /** A pop ends with a value if the primary array or an array on the stack has one to offer. */
  lemma AlonePops(len: nat, before: seq<Action>, s: State, t: nat)
    requires Executes(Initial(len), before, s) && Enabled(s, BeginPop(t))
    ensures exists u :: AloneReaches(Apply(s, BeginPop(t)), t, u) && PcOf(u, t).Popped?
              && ((exists a, i, v :: ValueIn(s, a, i, v) && (a == PRIMARY || a in s.stack)) ==> PcOf(u, t).got.Some?)
  {
    AlwaysListed(len, before, s);
    var m := Apply(s, BeginPop(t));
    AloneSeeks(m, t);
    if a, i, v :| ValueIn(s, a, i, v) && (a == PRIMARY || a in s.stack) {
      assert i in Available(m.arrays[a]);
      assert Offers(m, s.stack);
    }
  }

  // ---------------------------------------------------------------- draining

  ghost predicate Good(s: State) { Inv(s) && PrimaryLast(s) && Listed(s) }

  /** Thread `t` takes the action, and the state after it is as good. */
  lemma GoodStep(s: State, a: Action) returns (k: State)
    requires Good(s) && Enabled(s, a) && !Begins(a, a.t)
    ensures k == Apply(s, a) && Good(k)
    ensures forall u :: AloneReaches(k, a.t, u) ==> AloneReaches(s, a.t, u)
  {
    k := Apply(s, a);
    InvKept(s, a);
    PrimaryLastKept(s, a);
    if a.Step? { ListedStep(s, a.t); }
    forall u | AloneReaches(k, a.t, u) ensures AloneReaches(s, a.t, u) { GoesFirst(s, a, u); }
  }

  lemma OneLessToRead(p: Pc, q: Pc, i: nat)
    requires p.Fetching? && i in p.claimed && i !in p.fetched
    requires q == p.(fetched := p.fetched + {i}, acc := p.acc + [p.claimed[i]])
    ensures |q.claimed.Keys - q.fetched| < |p.claimed.Keys - p.fetched|
  {
    assert p.claimed.Keys - p.fetched == (q.claimed.Keys - q.fetched) + {i};
  }

  /** One more of the slots that have been claimed is read, or all of them have been. */
  lemma FetchGoes(s: State, t: nat, p: Pc, q: Pc)
    requires Inv(s) && StepEnabled(s, t) && p == PcOf(s, t) && p.Fetching? && q == FetchStep(s, t).threads[t]
    ensures if q.Fetching? then
              q.a == p.a && q.claimed == p.claimed && q.todo == p.todo
              && |q.claimed.Keys - q.fetched| < |p.claimed.Keys - p.fetched|
            else q == Emptying(p.a, p.claimed.Keys, p.todo, p.acc)
  {
    FetchKeeps(s, t);
    if q.Fetching? {
      var i :| i in p.claimed && i !in p.fetched && q == p.(fetched := p.fetched + {i}, acc := p.acc + [p.claimed[i]]);
      OneLessToRead(p, q, i);
    }
  }

  lemma SameArrays(s: State, t: nat)
    requires StepEnabled(s, t) && PcOf(s, t).Fetching?
    ensures Apply(s, Step(t)) == FetchStep(s, t) && FetchStep(s, t).arrays == s.arrays
  {
  }

  /** The slots that have been claimed are all read. */
  lemma {:induction false} AloneFetches(s: State, t: nat) returns (k: State)
    requires Good(s) && PcOf(s, t).Fetching?
    ensures Good(k) && k.arrays == s.arrays
    ensures PcOf(k, t).Emptying? && PcOf(k, t).a == PcOf(s, t).a && PcOf(k, t).taken == PcOf(s, t).claimed.Keys
            && PcOf(k, t).todo == PcOf(s, t).todo
    ensures forall u :: AloneReaches(k, t, u) ==> AloneReaches(s, t, u)
    decreases |PcOf(s, t).claimed.Keys - PcOf(s, t).fetched|
  {
    assert StepEnabled(s, t) by { assert PcOk(s, PcOf(s, t)); }
    k := GoodStep(s, Step(t));
    SameArrays(s, t);
    FetchGoes(s, t, PcOf(s, t), PcOf(k, t));
    if PcOf(k, t).Fetching? { k := AloneFetches(k, t); }
  }

  /** An array that nobody else pushes to is drained in one round. */
  lemma AloneEmpties(s: State, t: nat) returns (k: State)
    requires Good(s) && PcOf(s, t).Draining? && PcOf(s, t).a in s.arrays && PcOf(s, t).seen == s.arrays[PcOf(s, t).a]
    ensures Good(k)
    ensures if PcOf(s, t).a == PRIMARY then PcOf(k, t).Drained?
            else PcOf(k, t).Detaching? && PcOf(k, t).todo == PcOf(s, t).todo - {PcOf(s, t).a}
    ensures forall u :: AloneReaches(k, t, u) ==> AloneReaches(s, t, u)
  {
    var p := PcOf(s, t);
    var m := GoodStep(s, Step(t));
    assert m == DrainStep(s, t);
    if Available(p.seen) == {} {
      k := m;
    } else {
      ClaimedValues(s, p.a, Available(p.seen));
      var n := AloneFetches(m, t);
      assert PcOk(n, PcOf(n, t));
      k := AloneFrees(n, t);
    }
  }

  /** Once its instances are claimed and read, the array has nothing left to drain. */
  lemma AloneFrees(s: State, t: nat) returns (k: State)
    requires Good(s) && PcOf(s, t).Emptying? && PcOf(s, t).a in s.arrays && Available(s.arrays[PcOf(s, t).a]) == {}
    ensures Good(k)
    ensures if PcOf(s, t).a == PRIMARY then PcOf(k, t).Drained?
            else PcOf(k, t).Detaching? && PcOf(k, t).todo == PcOf(s, t).todo - {PcOf(s, t).a}
    ensures forall u :: AloneReaches(k, t, u) ==> AloneReaches(s, t, u)
  {
    var p := PcOf(s, t);
    assert PcOk(s, p);
    assert forall i :: i in p.taken ==> Owns(s, t, p.a, i);
    var m := GoodStep(s, Step(t));
    assert m == EmptyStep(s, t);
    if p.a == PRIMARY {
      k := m;
    } else {
      assert Available(m.arrays[p.a]) == {};
      k := GoodStep(m, Step(t));
      assert k == DrainStep(m, t);
    }
  }

  lemma {:induction false} AloneDetaches(s: State, t: nat) returns (u: State)
    requires Good(s) && PcOf(s, t).Detaching?
    ensures AloneReaches(s, t, u) && PcOf(u, t).Drained?
    decreases |PcOf(s, t).todo|
  {
    var todo := PcOf(s, t).todo;
    var a := PRIMARY;
    if todo != {} {
      a :| a in todo;
      assert a in Todo(s.threads[t]);
    }
    var m := GoodStep(s, Drain(t, a));
    var k := AloneEmpties(m, t);
    if todo == {} {
      u := k;
      Stays(k, t);
    } else {
      assert PRIMARY !in Todo(s.threads[t]);
      assert |todo| == |todo - {a}| + 1;
      u := AloneDetaches(k, t);
    }
  }

  /** A drain comes to an end. */
  lemma AloneDrains(len: nat, before: seq<Action>, s: State, t: nat)
    requires Executes(Initial(len), before, s) && Enabled(s, BeginPopAll(t))
    ensures exists u :: AloneReaches(Apply(s, BeginPopAll(t)), t, u) && PcOf(u, t).Drained?
  {
    AlwaysListed(len, before, s);
    InvKept(s, BeginPopAll(t));
    PrimaryLastKept(s, BeginPopAll(t));
    var u := AloneDetaches(Apply(s, BeginPopAll(t)), t);
  }
}
