/**
  What holds of every run of the bag: values are conserved.
 */
module BagRuns {
  import opened Common
  import opened Bag
  import opened BagSafety
  import opened BagSteps

  /** `acts` takes `s` to `t`. */
  ghost predicate Executes(s: State, acts: seq<Action>, t: State)
    decreases |acts|
  {
    if acts == [] then s == t else Enabled(s, acts[0]) && Executes(Apply(s, acts[0]), acts[1..], t)
  }

  lemma {:induction false} RunsKeepInv(s: State, acts: seq<Action>, t: State)
    requires Inv(s) && PrimaryLast(s) && Executes(s, acts, t)
    ensures Inv(t) && PrimaryLast(t)
    decreases |acts|
  {
    if acts != [] {
      InvKept(s, acts[0]);
      PrimaryLastKept(s, acts[0]);
      RunsKeepInv(Apply(s, acts[0]), acts[1..], t);
    }
  }

  // ---------------------------------------------------------------- conservation

  /** A value whose push has succeeded has been handed out, or sits in one slot that can be reached. */
  lemma AcceptedIsHandedOrStored(len: nat, acts: seq<Action>, s: State, v: Val)
    requires Executes(Initial(len), acts, s)
    ensures v in s.accepted <==> v in s.handed || exists a, i :: ValueIn(s, a, i, v)
    ensures forall a, i :: ValueIn(s, a, i, v) ==> v !in s.handed && Reachable(s, a)
    ensures forall a, i, b, j :: ValueIn(s, a, i, v) && ValueIn(s, b, j, v) ==> a == b && i == j
  {
    InitialInv(len);
    RunsKeepInv(Initial(len), acts, s);
    forall a, i | ValueIn(s, a, i, v) ensures v !in s.handed && Reachable(s, a) {
      assert i in Available(s.arrays[a]);
    }
  }

  /** How many instances the step claims. */
  ghost function Claimed(s: State, a: Action): nat
    requires Enabled(s, a)
  {
    if !a.Step? then 0
    else match PcOf(s, a.t)
      case Popping(arr, seen, _) => if FullSlot(seen, s.len).Some? && s.arrays[arr] == seen then 1 else 0
      case Draining(arr, seen, _, _) => if s.arrays[arr] == seen then |Available(seen)| else 0
      case _ => 0
  }

  /** Values in different slots are different. */
  lemma {:induction false} AsManyValues(s: State, a: nat, taken: set<nat>)
    requires Kept(s) && Slots(s) && a in s.arrays && taken <= Available(s.arrays[a])
    ensures |Values(s, a, taken)| == |taken| && Values(s, a, taken) !! s.handed
    decreases |taken|
  {
    forall i | i in taken ensures ValueIn(s, a, i, s.slots[Slot(a, i)]) {}
    if taken == {} {
      assert Values(s, a, taken) == {};
    } else {
      var i :| i in taken;
      var rest := taken - {i};
      AsManyValues(s, a, rest);
      var v := s.slots[Slot(a, i)];
      assert Values(s, a, taken) == Values(s, a, rest) + {v};
      assert v !in Values(s, a, rest);
    }
  }

  lemma ClaimsAreNew(s: State, a: Action)
    requires Inv(s) && Enabled(s, a)
    ensures |Apply(s, a).handed| == |s.handed| + Claimed(s, a)
  {
    if a.Step? {
      var pc := PcOf(s, a.t);
      if pc.Popping? && Claimed(s, a) == 1 {
        var i := FullSlot(pc.seen, s.len).value;
        AsManyValues(s, pc.a, {i});
        OneValue(s, pc.a, i);
      } else if pc.Draining? && s.arrays[pc.a] == pc.seen {
        AsManyValues(s, pc.a, Available(pc.seen));
      } else {
        NothingHanded(s, a.t);
      }
    }
  }

  lemma NothingHanded(s: State, t: nat)
    requires StepEnabled(s, t)
    requires PcOf(s, t).Popping? ==> FullSlot(PcOf(s, t).seen, s.len).None? || s.arrays[PcOf(s, t).a] != PcOf(s, t).seen
    requires PcOf(s, t).Draining? ==> s.arrays[PcOf(s, t).a] != PcOf(s, t).seen
    ensures Stepped(s, t).handed == s.handed
  {
  }

  ghost function AllClaimed(s: State, acts: seq<Action>): nat
    decreases |acts|
  {
    if acts == [] || !Enabled(s, acts[0]) then 0
    else Claimed(s, acts[0]) + AllClaimed(Apply(s, acts[0]), acts[1..])
  }

  /** There are as many values handed out as instances have been claimed: none is handed out twice. */
  lemma {:induction false} HandedOutOnce(s: State, acts: seq<Action>, t: State)
    requires Inv(s) && PrimaryLast(s) && Executes(s, acts, t)
    ensures |t.handed| == |s.handed| + AllClaimed(s, acts)
    decreases |acts|
  {
    if acts != [] {
      ClaimsAreNew(s, acts[0]);
      InvKept(s, acts[0]);
      PrimaryLastKept(s, acts[0]);
      HandedOutOnce(Apply(s, acts[0]), acts[1..], t);
    }
  }

  // ---------------------------------------------------------------- overflow arrays

  lemma ClosedStep(s: State, act: Action, a: nat)
    requires Inv(s) && Enabled(s, act) && a in s.arrays && Closed(a, s.arrays[a])
    ensures a in Apply(s, act).arrays && Closed(a, Apply(s, act).arrays[a])
  {
    if act.Step? { assert PcOk(s, PcOf(s, act.t)); }
  }

  /** An overflow array that has nothing to hand out never gets a value again. */
  lemma {:induction false} EmptyStaysEmpty(s: State, acts: seq<Action>, t: State, a: nat)
    requires Inv(s) && PrimaryLast(s) && Executes(s, acts, t) && a in s.arrays && Closed(a, s.arrays[a])
    ensures a in t.arrays && Closed(a, t.arrays[a]) && forall i, v :: !ValueIn(t, a, i, v)
    decreases |acts|
  {
    if acts != [] {
      ClosedStep(s, acts[0], a);
      InvKept(s, acts[0]);
      PrimaryLastKept(s, acts[0]);
      EmptyStaysEmpty(Apply(s, acts[0]), acts[1..], t, a);
    }
  }

  /** An array that is reported empty and deleted, or has been drained, has nothing to hand out. */
  lemma DeletedOrDrainedIsEmpty(len: nat, acts: seq<Action>, s: State, t: nat)
    requires Executes(Initial(len), acts, s) && t in s.threads && (s.threads[t].Deleting? || s.threads[t].Draining?)
    requires s.threads[t].Draining? ==> Available(s.threads[t].seen) == {} && s.threads[t].a != PRIMARY
    ensures s.threads[t].a in s.arrays && Closed(s.threads[t].a, s.arrays[s.threads[t].a])
  {
    InitialInv(len);
    RunsKeepInv(Initial(len), acts, s);
    assert PcOk(s, s.threads[t]);
  }

  // ---------------------------------------------------------------- threads that go on

  /** What is on the stack or on somebody's list exists. */
  ghost predicate Listed(s: State) {
    s.stack <= s.arrays.Keys && forall t :: t in s.threads ==> Todo(s.threads[t]) <= s.arrays.Keys
  }

  lemma ListedStep(s: State, t: nat)
    requires Listed(s) && StepEnabled(s, t)
    ensures Listed(Stepped(s, t)) && Stepped(s, t).len == s.len
  {
    assert t in s.threads ==> Todo(Stepped(s, t).threads[t]) <= Todo(s.threads[t]);
  }

  lemma {:induction false} RunsKeepListed(s: State, acts: seq<Action>, t: State)
    requires Listed(s) && Executes(s, acts, t)
    ensures Listed(t) && t.len == s.len
    decreases |acts|
  {
    if acts != [] {
      if acts[0].Step? { ListedStep(s, acts[0].t); }
      RunsKeepListed(Apply(s, acts[0]), acts[1..], t);
    }
  }

  lemma {:induction false} Unused(arrays: set<nat>) returns (n: nat)
    ensures forall a :: a in arrays ==> a < n
    decreases |arrays|
  {
    if arrays == {} {
      n := 0;
    } else {
      var a :| a in arrays;
      var m := Unused(arrays - {a});
      n := if m <= a then a + 1 else m;
      forall b | b in arrays ensures b < n { assert b != a ==> b in arrays - {a}; }
    }
  }

  /** The thread can do what it is going to do next. */
  ghost predicate CanGoOn(s: State, t: nat) {
    || Enabled(s, Step(t))
    || exists a :: Enabled(s, Peek(t, a)) || Enabled(s, Extend(t, a)) || Enabled(s, Visit(t, a)) || Enabled(s, Drain(t, a))
  }

  lemma ChooserCanGoOn(s: State, t: nat)
    requires PRIMARY in s.arrays && Listed(s) && s.len > 0 && t in s.threads
    requires var pc := s.threads[t]; pc.Overflowing? || pc.Extending? || pc.Seeking? || pc.Detaching?
    ensures CanGoOn(s, t)
  {
    var pc := s.threads[t];
    if pc.Overflowing? || pc.Extending? {
      var n := Unused(s.arrays.Keys);
      assert n !in s.arrays && n != PRIMARY;
      assert Enabled(s, Extend(t, n));
    } else if pc.Seeking? && pc.left !! s.stack {
      assert Enabled(s, Visit(t, PRIMARY));
    } else if pc.Seeking? {
      var a :| a in pc.left && a in s.stack;
      assert Enabled(s, Visit(t, a));
    } else if pc.todo == {} {
      assert Enabled(s, Drain(t, PRIMARY));
    } else {
      var a :| a in pc.todo;
      assert a in Todo(pc) && Enabled(s, Drain(t, a));
    }
  }

  lemma StepperCanGoOn(s: State, t: nat)
    requires Slots(s) && t in s.threads && PcOk(s, s.threads[t]) && !AtRest(s.threads[t])
    requires var pc := s.threads[t]; !pc.Overflowing? && !pc.Extending? && !pc.Seeking? && !pc.Detaching?
    ensures StepEnabled(s, t)
  {
  }

  /** No thread in the midst of an operation is ever blocked. */
  lemma NeverBlocked(len: nat, acts: seq<Action>, s: State, t: nat)
    requires len > 0 && Executes(Initial(len), acts, s) && t in s.threads && !AtRest(s.threads[t])
    ensures CanGoOn(s, t)
  {
    InitialInv(len);
    RunsKeepInv(Initial(len), acts, s);
    RunsKeepListed(Initial(len), acts, s);
    var pc := s.threads[t];
    assert PcOk(s, pc);
    if pc.Overflowing? || pc.Extending? || pc.Seeking? || pc.Detaching? {
      ChooserCanGoOn(s, t);
    } else {
      StepperCanGoOn(s, t);
    }
  }
}
