/**
  When the operations of the bag find nothing more: a pop that returns nothing, and a drain that has
  returned, have missed no value that was there when they began.
 */
module BagEmptied {
  import opened Common
  import opened Bag
  import opened BagSafety
  import opened BagSteps
  import opened BagRuns
  import opened BagReturns

  // ---------------------------------------------------------------- stored values stay

  /** What was stored in `s0` is still there in `s`, or has been claimed. */
  ghost predicate Remains(s0: State, s: State) {
    && s.len == s0.len && s0.arrays.Keys <= s.arrays.Keys && s0.handed <= s.handed
    && forall a, i, v :: ValueIn(s0, a, i, v) ==> ValueIn(s, a, i, v) || v in s.handed
  }

  lemma WriteRemains(s: State, t: nat)
    requires Inv(s) && StepEnabled(s, t) && PcOf(s, t).Writing?
    ensures Remains(s, Stepped(s, t))
  {
    assert PcOk(s, PcOf(s, t)) && Owns(s, t, PcOf(s, t).a, PcOf(s, t).i);
  }

  lemma ClearRemains(s: State, t: nat)
    requires Inv(s) && StepEnabled(s, t) && (PcOf(s, t).Clearing? || PcOf(s, t).Emptying?)
    ensures Remains(s, Stepped(s, t))
  {
    var pc := PcOf(s, t);
    forall a, i, v | ValueIn(s, a, i, v) ensures ValueIn(Stepped(s, t), a, i, v) {
      assert Holds(pc, a, i) ==> Owns(s, t, a, i);
    }
  }

  lemma ClaimRemains(s: State, t: nat)
    requires Inv(s) && StepEnabled(s, t) && (PcOf(s, t).Popping? || PcOf(s, t).Draining?)
    ensures Remains(s, Stepped(s, t))
  {
    var pc := PcOf(s, t);
    forall a, i, v | ValueIn(s, a, i, v) ensures ValueIn(Stepped(s, t), a, i, v) || v in Stepped(s, t).handed {
      assert v in Values(s, a, Available(s.arrays[a]));
    }
  }

  lemma OtherStepRemains(s: State, t: nat)
    requires Inv(s) && StepEnabled(s, t)
    requires var pc := PcOf(s, t); !pc.Writing? && !pc.Clearing? && !pc.Emptying? && !pc.Popping? && !pc.Draining?
    ensures Remains(s, Stepped(s, t))
  {
  }

  lemma ActionRemains(s: State, a: Action)
    requires Inv(s) && Enabled(s, a)
    ensures Remains(s, Apply(s, a))
  {
    if a.Step? {
      var pc := PcOf(s, a.t);
      if pc.Writing? {
        WriteRemains(s, a.t);
      } else if pc.Clearing? || pc.Emptying? {
        ClearRemains(s, a.t);
      } else if pc.Popping? || pc.Draining? {
        ClaimRemains(s, a.t);
      } else {
        OtherStepRemains(s, a.t);
      }
    }
  }

  lemma RemainsOn(r: State, s: State, u: State)
    requires Remains(r, s) && Remains(s, u)
    ensures Remains(r, u)
  {
  }

  // ---------------------------------------------------------------- what has been seen of an array

  /** All that was stored in array `a` has been claimed. */
  ghost predicate Gone(s0: State, s: State, a: nat) {
    forall i, v :: ValueIn(s0, a, i, v) ==> v in s.handed
  }

  /** The bitmaps, loaded some time ago, show all that was stored in the array and has not been claimed. */
  ghost predicate Shows(s0: State, s: State, a: nat, seen: Meta) {
    forall i, v :: ValueIn(s0, a, i, v) ==> v in s.handed || i in Available(seen)
  }

  /** Nothing is left in the array, or it is no longer on the stack. */
  ghost predicate Done(s0: State, s: State, a: nat) {
    Gone(s0, s, a) || (a in s.arrays && a !in s.stack)
  }

  ghost predicate AllDone(s0: State, s: State, but: set<nat>) {
    forall b :: b in s0.stack && b !in but ==> Done(s0, s, b)
  }

  ghost predicate AllGone(s0: State, s: State, but: set<nat>) {
    forall b :: b in s0.stack && b !in but ==> Gone(s0, s, b)
  }

  lemma LoadedShows(s0: State, s: State, a: nat)
    requires Remains(s0, s) && a in s.arrays
    ensures Shows(s0, s, a, s.arrays[a])
  {
  }

  lemma NothingShown(s0: State, s: State, a: nat, seen: Meta)
    requires Shows(s0, s, a, seen) && Slots(s0) && s.len == s0.len
    requires Available(seen) == {} || FullSlot(seen, s.len).None?
    ensures Gone(s0, s, a)
  {
    forall i: nat, v | ValueIn(s0, a, i, v) ensures v in s.handed {
      assert i < s0.len;
    }
  }

  /** The stack only ever gets new arrays. */
  lemma StackStays(s: State, act: Action, a: nat)
    requires Enabled(s, act) && a in s.arrays && a !in s.stack
    ensures a in Apply(s, act).arrays && a !in Apply(s, act).stack
  {
  }

  lemma SeenStays(s0: State, s: State, act: Action, but: set<nat>)
    requires Inv(s) && Enabled(s, act)
    ensures AllDone(s0, s, but) ==> AllDone(s0, Apply(s, act), but)
    ensures AllGone(s0, s, but) ==> AllGone(s0, Apply(s, act), but)
    ensures forall a :: Gone(s0, s, a) ==> Gone(s0, Apply(s, act), a)
    ensures forall a, seen :: Shows(s0, s, a, seen) ==> Shows(s0, Apply(s, act), a, seen)
  {
    ActionRemains(s, act);
    forall b | Done(s0, s, b) ensures Done(s0, Apply(s, act), b) {
      if b in s.arrays && b !in s.stack { StackStays(s, act, b); }
    }
  }

  // ---------------------------------------------------------------- a pop that finds nothing

  /** What a pop that began in `s0` has found so far. */
  ghost predicate Searches(s0: State, s: State, pc: Pc) {
    match pc
    case Seeking(left) => left <= s0.stack && AllDone(s0, s, left)
    case Popping(a, seen, left) => left <= s0.stack && Shows(s0, s, a, seen) && AllDone(s0, s, if a == PRIMARY then {} else left + {a})
    case Deleting(a, got, left) => got.None? ==> left <= s0.stack && AllDone(s0, s, left)
    case Popped(got) => got.None? ==> AllDone(s0, s, {}) && Gone(s0, s, PRIMARY)
    case Reading(_, _, _) => true
    case Clearing(_, _, _) => true
    case _ => false
  }

  lemma OthersSearch(s0: State, s: State, a: Action, pc: Pc)
    requires Inv(s) && Enabled(s, a) && Searches(s0, s, pc)
    ensures Searches(s0, Apply(s, a), pc)
  {
    match pc
    case Seeking(left) => SeenStays(s0, s, a, left);
    case Popping(b, _, left) => SeenStays(s0, s, a, if b == PRIMARY then {} else left + {b});
    case Deleting(_, _, left) => SeenStays(s0, s, a, left);
    case _ => SeenStays(s0, s, a, {});
  }

  lemma VisitSearches(s0: State, s: State, t: nat, a: nat)
    requires Remains(s0, s) && PRIMARY !in s0.stack && s0.stack <= s0.arrays.Keys
    requires Enabled(s, Visit(t, a)) && Searches(s0, s, PcOf(s, t))
    ensures Searches(s0, Apply(s, Visit(t, a)), PcOf(Apply(s, Visit(t, a)), t))
  {
    var u, left := Apply(s, Visit(t, a)), PcOf(s, t).left;
    LoadedShows(s0, u, a);
    forall b | b in s0.stack && b !in (if a == PRIMARY then {} else left - {a} + {a}) ensures Done(s0, u, b) {
      assert b !in left ==> Done(s0, s, b);
      assert b in left ==> b !in s.stack && b in s.arrays;
    }
  }

  /** What the pop knows when it finds nothing in the array. */
  lemma NothingFound(s0: State, u: State, a: nat, left: set<nat>)
    requires Gone(s0, u, a) && AllDone(s0, u, if a == PRIMARY then {} else left + {a})
    ensures if a == PRIMARY then AllDone(s0, u, {}) else AllDone(s0, u, left)
  {
  }

  lemma PopSearches(s0: State, s: State, t: nat)
    requires Inv(s) && Slots(s0) && Remains(s0, s) && PRIMARY !in s0.stack
    requires Enabled(s, Step(t)) && PcOf(s, t).Popping? && Searches(s0, s, PcOf(s, t))
    ensures Searches(s0, PopStep(s, t), PcOf(PopStep(s, t), t))
  {
    var Popping(a, seen, left) := PcOf(s, t);
    var u := PopStep(s, t);
    ActionRemains(s, Step(t));
    RemainsOn(s0, s, u);
    SeenStays(s0, s, Step(t), if a == PRIMARY then {} else left + {a});
    if FullSlot(seen, s.len).None? {
      NothingShown(s0, s, a, seen);
      NothingFound(s0, u, a, left);
    } else if s.arrays[a] != seen {
      LoadedShows(s0, u, a);
    }
  }

  lemma ActionSearches(s0: State, s: State, a: Action, t: nat)
    requires Inv(s) && Slots(s0) && Remains(s0, s) && PRIMARY !in s0.stack && s0.stack <= s0.arrays.Keys
    requires Enabled(s, a) && !Begins(a, t) && Searches(s0, s, PcOf(s, t))
    ensures Searches(s0, Apply(s, a), PcOf(Apply(s, a), t))
  {
    if a.t != t {
      OthersStay(s, a, t);
      OthersSearch(s0, s, a, PcOf(s, t));
    } else if a.Visit? {
      VisitSearches(s0, s, t, a.a);
    } else if PcOf(s, t).Popping? {
      PopSearches(s0, s, t);
    } else {
      OthersSearch(s0, s, a, PcOf(s, t));
    }
  }

  lemma {:induction false} RunSearches(s0: State, s: State, acts: seq<Action>, u: State, t: nat)
    requires Inv(s) && PrimaryLast(s) && Slots(s0) && Remains(s0, s) && PRIMARY !in s0.stack && s0.stack <= s0.arrays.Keys
    requires Executes(s, acts, u) && NeverBegins(acts, t) && Searches(s0, s, PcOf(s, t))
    ensures Searches(s0, u, PcOf(u, t)) && Remains(s0, u)
    decreases |acts|
  {
    if acts != [] {
      assert !Begins(acts[0], t) && NeverBegins(acts[1..], t);
      ActionSearches(s0, s, acts[0], t);
      ActionRemains(s, acts[0]);
      RemainsOn(s0, s, Apply(s, acts[0]));
      InvKept(s, acts[0]);
      PrimaryLastKept(s, acts[0]);
      RunSearches(s0, Apply(s, acts[0]), acts[1..], u, t);
    }
  }

  lemma AlwaysListed(len: nat, acts: seq<Action>, s: State)
    requires Executes(Initial(len), acts, s)
    ensures Inv(s) && PrimaryLast(s) && Listed(s)
  {
    InitialInv(len);
    RunsKeepInv(Initial(len), acts, s);
    RunsKeepListed(Initial(len), acts, s);
  }

  /**
    When a pop returns nothing, whatever was in the primary array or on the stack when it began has
    been claimed by others, or its array has been detached from the stack and someone is draining it.
   */
  lemma NothingPopped(len: nat, before: seq<Action>, s: State, t: nat, acts: seq<Action>, u: State, a: nat, i: nat, v: Val)
    requires Executes(Initial(len), before, s) && Enabled(s, BeginPop(t))
    requires Executes(Apply(s, BeginPop(t)), acts, u) && NeverBegins(acts, t) && PcOf(u, t) == Popped(None)
    requires ValueIn(s, a, i, v) && (a == PRIMARY || a in s.stack)
    ensures v in u.handed || (a != PRIMARY && a !in u.stack && exists w :: w in u.threads && a in Todo(u.threads[w]))
  {
    AlwaysListed(len, before, s);
    var m := Apply(s, BeginPop(t));
    ActionRemains(s, BeginPop(t));
    InvKept(s, BeginPop(t));
    PrimaryLastKept(s, BeginPop(t));
    RunSearches(s, m, acts, u, t);
    RunsKeepInv(m, acts, u);
    if v !in u.handed {
      assert ValueIn(u, a, i, v);
      assert i in Available(u.arrays[a]);
      assert Reachable(u, a);
    }
  }

  // ---------------------------------------------------------------- a drain

  /** What a drain that began in `s0` has emptied so far. */
  ghost predicate Exhausts(s0: State, s: State, pc: Pc) {
    match pc
    case Detaching(todo, _) => AllGone(s0, s, todo)
    case Draining(a, seen, todo, _) => AllGone(s0, s, todo) && Shows(s0, s, a, seen)
    case Fetching(a, _, _, todo, _) => AllGone(s0, s, todo) && Gone(s0, s, a)
    case Emptying(a, _, todo, _) => AllGone(s0, s, todo) && Gone(s0, s, a)
    case Drained(_) => AllGone(s0, s, {}) && Gone(s0, s, PRIMARY)
    case _ => false
  }

  lemma OthersExhaust(s0: State, s: State, a: Action, pc: Pc)
    requires Inv(s) && Enabled(s, a) && Exhausts(s0, s, pc)
    ensures Exhausts(s0, Apply(s, a), pc)
  {
    SeenStays(s0, s, a, Todo(pc));
    if pc.Drained? { assert Todo(pc) == {}; }
  }

  lemma DrainExhausts(s0: State, s: State, t: nat)
    requires Inv(s) && Slots(s0) && Remains(s0, s)
    requires Enabled(s, Step(t)) && PcOf(s, t).Draining? && Exhausts(s0, s, PcOf(s, t))
    requires PcOf(s, t).a == PRIMARY ==> PcOf(s, t).todo == {}
    ensures Exhausts(s0, DrainStep(s, t), PcOf(DrainStep(s, t), t))
  {
    var Draining(a, seen, todo, acc) := PcOf(s, t);
    var u := DrainStep(s, t);
    ActionRemains(s, Step(t));
    RemainsOn(s0, s, u);
    SeenStays(s0, s, Step(t), todo);
    if Available(seen) == {} {
      NothingShown(s0, s, a, seen);
    } else if s.arrays[a] == seen {
      assert forall i: nat, v :: ValueIn(s0, a, i, v) ==> ValueIn(u, a, i, v) || v in u.handed;
    } else {
      LoadedShows(s0, u, a);
    }
  }

  lemma ActionExhausts(s0: State, s: State, a: Action, t: nat)
    requires Inv(s) && PrimaryLast(s) && Slots(s0) && Remains(s0, s)
    requires Enabled(s, a) && !Begins(a, t) && Exhausts(s0, s, PcOf(s, t))
    ensures Exhausts(s0, Apply(s, a), PcOf(Apply(s, a), t))
  {
    var pc := PcOf(s, t);
    if a.t != t {
      OthersStay(s, a, t);
      OthersExhaust(s0, s, a, pc);
    } else if pc.Draining? {
      DrainExhausts(s0, s, t);
    } else {
      OthersExhaust(s0, s, a, pc);
      if a.Drain? { LoadedShows(s0, s, a.a); }
    }
  }

  lemma {:induction false} RunExhausts(s0: State, s: State, acts: seq<Action>, u: State, t: nat)
    requires Inv(s) && PrimaryLast(s) && Slots(s0) && Remains(s0, s)
    requires Executes(s, acts, u) && NeverBegins(acts, t) && Exhausts(s0, s, PcOf(s, t))
    ensures Exhausts(s0, u, PcOf(u, t))
    decreases |acts|
  {
    if acts != [] {
      assert !Begins(acts[0], t) && NeverBegins(acts[1..], t);
      ActionExhausts(s0, s, acts[0], t);
      ActionRemains(s, acts[0]);
      RemainsOn(s0, s, Apply(s, acts[0]));
      InvKept(s, acts[0]);
      PrimaryLastKept(s, acts[0]);
      RunExhausts(s0, Apply(s, acts[0]), acts[1..], u, t);
    }
  }

  /** When a drain returns, whatever was in the primary array or on the stack when it began has been claimed. */
  lemma DrainMissesNothing(len: nat, before: seq<Action>, s: State, t: nat, acts: seq<Action>, u: State, a: nat, i: nat, v: Val)
    requires Executes(Initial(len), before, s) && Enabled(s, BeginPopAll(t))
    requires Executes(Apply(s, BeginPopAll(t)), acts, u) && NeverBegins(acts, t) && AtRest(PcOf(u, t))
    requires ValueIn(s, a, i, v) && (a == PRIMARY || a in s.stack)
    ensures v in u.handed
  {
    AlwaysListed(len, before, s);
    var m := Apply(s, BeginPopAll(t));
    ActionRemains(s, BeginPopAll(t));
    InvKept(s, BeginPopAll(t));
    PrimaryLastKept(s, BeginPopAll(t));
    RunExhausts(s, m, acts, u, t);
    assert Gone(s, u, a);
  }
}
