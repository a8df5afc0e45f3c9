/**
  The bag: a primary array of slots and a stack of overflow arrays. Each array has two bitmaps: which
  slots hold an instance, and which are owned by a thread that is filling or emptying them.

  Every load and every compare-and-exchange of an array's bitmaps, every access to a slot and every
  access to the stack is one step. Values stand for themselves: no two pushes are of the same value.
 */
module Bag {
  import opened Common

  type Val = nat

  /** The primary array. */
  const PRIMARY: nat := 0

  datatype Slot = Slot(arr: nat, index: nat)

  datatype Meta = Meta(instance: set<nat>, owned: set<nat>)

  /** What a thread does next, with the bitmaps it has loaded. */
  datatype Pc =
    | Idle
    | Pushing(a: nat, v: Val, seen: Meta)           // own a free slot
    | Writing(a: nat, v: Val, i: nat)               // write the value
    | Publishing(a: nat, v: Val, i: nat)            // turn the owned slot into an instance
    | RollingBack(a: nat, v: Val, i: nat)           // take the value out again
    | Overflowing(v: Val)                           // the primary array is full: look at the stack
    | Extending(v: Val)                             // push a new array on the stack
    | Pushed(v: Val)
    | Seeking(left: set<nat>)                       // which array to pop from next; `left` is still to be visited
    | Popping(a: nat, seen: Meta, left: set<nat>)   // own an instance
    | Reading(a: nat, v: Val, i: nat)               // `v` is history: the value that has been claimed
    | Clearing(a: nat, v: Val, i: nat)              // free the slot
    | Deleting(a: nat, got: Option<Val>, left: set<nat>)    // delete an empty array
    | Popped(got: Option<Val>)
    | Detaching(todo: set<nat>, acc: seq<Val>)      // which array to drain next; `acc` is what has been read so far
    | Draining(a: nat, seen: Meta, todo: set<nat>, acc: seq<Val>)   // own all instances
    | Fetching(a: nat, claimed: map<nat, Val>, fetched: set<nat>,   // read their values one after the other;
               todo: set<nat>, acc: seq<Val>)       // `claimed` is history: the values that have been claimed
    | Emptying(a: nat, taken: set<nat>, todo: set<nat>, acc: seq<Val>)   // free their slots
    | Drained(acc: seq<Val>)

  datatype State = State(
    len: nat,                      // the number of slots of an array
    arrays: map<nat, Meta>,
    slots: map<Slot, Val>,
    stack: set<nat>,               // the overflow arrays on the stack
    threads: map<nat, Pc>,
    accepted: set<Val>,            // history: values whose push has succeeded
    handed: set<Val>)              // history: values that have been claimed by a pop

  datatype Action =
    | BeginPush(t: nat, v: Val)
    | BeginPop(t: nat)
    | BeginPopAll(t: nat)
    | Step(t: nat)
    | Peek(t: nat, a: nat)         // the array that was the topmost of the stack when it was looked up
    | Extend(t: nat, n: nat)
    | Visit(t: nat, a: nat)        // the next array to pop from; the primary array when all others are visited or gone
    | Drain(t: nat, a: nat)        // the next array to drain

  function PcOf(s: State, t: nat): Pc {
    if t in s.threads then s.threads[t] else Idle
  }

  function WithPc(s: State, t: nat, pc: Pc): State {
    s.(threads := s.threads[t := pc])
  }

  function WithMeta(s: State, a: nat, m: Meta): State {
    s.(arrays := s.arrays[a := m])
  }

  /** Instances that nobody is taking out. */
  function Available(m: Meta): set<nat> { m.instance - m.owned }

  /** The thread has returned from its last operation. */
  predicate AtRest(pc: Pc) { pc.Idle? || pc.Pushed? || pc.Popped? || pc.Drained? }

  /** The first slot that is neither an instance nor owned. */
  function FreeSlot(m: Meta, len: nat, i: nat := 0): (r: Option<nat>)
    requires i <= len
    ensures r.Some? ==> r.value < len && r.value !in m.instance && r.value !in m.owned
    decreases len - i
  {
    if i == len then None
    else if i !in m.instance && i !in m.owned then Some(i)
    else FreeSlot(m, len, i + 1)
  }

  /** The first available instance. */
  function FullSlot(m: Meta, len: nat, i: nat := 0): (r: Option<nat>)
    requires i <= len
    ensures r.Some? ==> r.value < len && r.value in Available(m)
    ensures r.None? ==> forall j :: i <= j < len ==> j !in Available(m)
    decreases len - i
  {
    if i == len then None
    else if i in Available(m) then Some(i)
    else FullSlot(m, len, i + 1)
  }

  /** An overflow array without available instances takes no more values. */
  predicate Closed(a: nat, m: Meta) { a != PRIMARY && Available(m) == {} }

  /** Where a rejected push goes on. */
  function Rejected(a: nat, v: Val): Pc {
    if a == PRIMARY then Overflowing(v) else Extending(v)
  }

  function PushStep(s: State, t: nat): State
    requires PcOf(s, t).Pushing? && PcOf(s, t).a in s.arrays
  {
    var Pushing(a, v, seen) := PcOf(s, t);
    if Closed(a, seen) then WithPc(s, t, Rejected(a, v))
    else match FreeSlot(seen, s.len)
      case None => WithPc(s, t, Rejected(a, v))
      case Some(i) =>
        if s.arrays[a] == seen then WithPc(WithMeta(s, a, seen.(owned := seen.owned + {i})), t, Writing(a, v, i))
        else WithPc(s, t, Pushing(a, v, s.arrays[a]))
  }

  function PublishStep(s: State, t: nat): State
    requires PcOf(s, t).Publishing? && PcOf(s, t).a in s.arrays
  {
    var Publishing(a, v, i) := PcOf(s, t);
    var m := s.arrays[a];
    if Closed(a, m) then WithPc(s, t, RollingBack(a, v, i))
    else WithPc(WithMeta(s, a, Meta(m.instance + {i}, m.owned - {i})).(accepted := s.accepted + {v}), t, Pushed(v))
  }

  /** The value is read back from the slot and goes on to the next array. */
  function RollBackStep(s: State, t: nat): State
    requires PcOf(s, t).RollingBack? && PcOf(s, t).a in s.arrays && Slot(PcOf(s, t).a, PcOf(s, t).i) in s.slots
  {
    var RollingBack(a, _, i) := PcOf(s, t);
    var m := s.arrays[a];
    WithPc(WithMeta(s, a, m.(owned := m.owned - {i})), t, Rejected(a, s.slots[Slot(a, i)]))
  }

  function PopStep(s: State, t: nat): State
    requires PcOf(s, t).Popping? && PcOf(s, t).a in s.arrays
    requires forall i :: i in s.arrays[PcOf(s, t).a].instance ==> Slot(PcOf(s, t).a, i) in s.slots
  {
    var Popping(a, seen, left) := PcOf(s, t);
    match FullSlot(seen, s.len)
    case None =>
      WithPc(s, t, if a == PRIMARY then Popped(None)
                   else if seen.instance == {} then Deleting(a, None, left) else Seeking(left))
    case Some(i) =>
      if s.arrays[a] == seen then
        var v := s.slots[Slot(a, i)];
        WithPc(WithMeta(s, a, seen.(owned := seen.owned + {i})).(handed := s.handed + {v}), t, Reading(a, v, i))
      else WithPc(s, t, Popping(a, s.arrays[a], left))
  }

  /** The value is read; whoever finds no instance left deletes the array. */
  function ClearStep(s: State, t: nat): State
    requires PcOf(s, t).Clearing? && PcOf(s, t).a in s.arrays
  {
    var Clearing(a, v, i) := PcOf(s, t);
    var m := s.arrays[a];
    var cleared := Meta(m.instance - {i}, m.owned - {i});
    WithPc(WithMeta(s, a, cleared), t,
           if a != PRIMARY && cleared.instance == {} then Deleting(a, Some(v), {}) else Popped(Some(v)))
  }

  function Values(s: State, a: nat, indices: set<nat>): set<Val> {
    set i | i in indices && Slot(a, i) in s.slots :: s.slots[Slot(a, i)]
  }

  function ValuesAt(s: State, a: nat, indices: set<nat>): map<nat, Val> {
    map i | i in indices && Slot(a, i) in s.slots :: s.slots[Slot(a, i)]
  }

  /** All available instances of the array are claimed at once. */
  function DrainStep(s: State, t: nat): State
    requires PcOf(s, t).Draining? && PcOf(s, t).a in s.arrays
  {
    var Draining(a, seen, todo, acc) := PcOf(s, t);
    if Available(seen) == {} then WithPc(s, t, if a == PRIMARY then Drained(acc) else Detaching(todo - {a}, acc))
    else if s.arrays[a] == seen then
      WithPc(WithMeta(s, a, seen.(owned := seen.owned + Available(seen)))
             .(handed := s.handed + Values(s, a, Available(seen))),
             t, Fetching(a, ValuesAt(s, a, Available(seen)), {}, todo, acc))
    else WithPc(s, t, Draining(a, s.arrays[a], todo, acc))
  }

  /** The next claimed slot is read, in the order of the slots. */
  function FetchStep(s: State, t: nat): State
    requires PcOf(s, t).Fetching?
    requires forall i :: i in PcOf(s, t).claimed ==> Slot(PcOf(s, t).a, i) in s.slots
  {
    var Fetching(a, claimed, fetched, todo, acc) := PcOf(s, t);
    match FullSlot(Meta(claimed.Keys, fetched), s.len)
    case None => WithPc(s, t, Emptying(a, claimed.Keys, todo, acc))
    case Some(i) => WithPc(s, t, Fetching(a, claimed, fetched + {i}, todo, acc + [s.slots[Slot(a, i)]]))
  }

  /** The primary array is left after one round; others are drained until nothing is available. */
  function EmptyStep(s: State, t: nat): State
    requires PcOf(s, t).Emptying? && PcOf(s, t).a in s.arrays
  {
    var Emptying(a, taken, todo, acc) := PcOf(s, t);
    var m := s.arrays[a];
    var cleared := Meta(m.instance - taken, m.owned - taken);
    WithPc(WithMeta(s, a, cleared), t, if a == PRIMARY then Drained(acc) else Draining(a, cleared, todo, acc))
  }

  predicate StepEnabled(s: State, t: nat) {
    match PcOf(s, t)
    case Pushing(a, _, _) => a in s.arrays
    case Writing(a, _, _) => a in s.arrays
    case Publishing(a, _, _) => a in s.arrays
    case RollingBack(a, _, i) => a in s.arrays && Slot(a, i) in s.slots
    case Popping(a, _, _) => a in s.arrays && forall i :: i in s.arrays[a].instance ==> Slot(a, i) in s.slots
    case Reading(a, _, i) => a in s.arrays && Slot(a, i) in s.slots
    case Clearing(a, _, _) => a in s.arrays
    case Deleting(_, _, _) => true
    case Draining(a, _, _, _) => a in s.arrays
    case Fetching(a, claimed, _, _, _) => a in s.arrays && forall i :: i in claimed ==> Slot(a, i) in s.slots
    case Emptying(a, _, _, _) => a in s.arrays
    case _ => false
  }

  /** The value is not on its way in, and has not been in before. */
  ghost predicate FreshVal(s: State, v: Val) {
    v !in s.accepted && forall t :: t in s.threads ==> Carried(s.threads[t]) != Some(v)
  }

  /** The value a pushing thread has not delivered yet. */
  function Carried(pc: Pc): Option<Val> {
    match pc
    case Pushing(_, v, _) => Some(v)
    case Writing(_, v, _) => Some(v)
    case Publishing(_, v, _) => Some(v)
    case RollingBack(_, v, _) => Some(v)
    case Overflowing(v) => Some(v)
    case Extending(v) => Some(v)
    case _ => None
  }

  ghost predicate Enabled(s: State, a: Action) {
    match a
    case BeginPush(t, v) => AtRest(PcOf(s, t)) && FreshVal(s, v) && PRIMARY in s.arrays
    case BeginPop(t) => AtRest(PcOf(s, t))
    case BeginPopAll(t) => AtRest(PcOf(s, t))
    case Step(t) => StepEnabled(s, t)
    case Peek(t, a) => PcOf(s, t).Overflowing? && a in s.arrays && a != PRIMARY
    case Extend(t, n) =>
      (PcOf(s, t).Extending? || PcOf(s, t).Overflowing?) && n !in s.arrays && n != PRIMARY && s.len > 0
    case Visit(t, a) =>
      && PcOf(s, t).Seeking? && a in s.arrays
      && (a in PcOf(s, t).left || (a == PRIMARY && PcOf(s, t).left !! s.stack))
    case Drain(t, a) =>
      && PcOf(s, t).Detaching? && a in s.arrays
      && (if PcOf(s, t).todo == {} then a == PRIMARY else a in PcOf(s, t).todo)
  }

  function Stepped(s: State, t: nat): State
    requires StepEnabled(s, t)
  {
    match PcOf(s, t)
    case Pushing(_, _, _) => PushStep(s, t)
    case Writing(a, v, i) => WithPc(s.(slots := s.slots[Slot(a, i) := v]), t, Publishing(a, v, i))
    case Publishing(_, _, _) => PublishStep(s, t)
    case RollingBack(_, _, _) => RollBackStep(s, t)
    case Popping(_, _, _) => PopStep(s, t)
    case Reading(a, _, i) => WithPc(s, t, Clearing(a, s.slots[Slot(a, i)], i))
    case Clearing(_, _, _) => ClearStep(s, t)
    case Deleting(a, got, left) => WithPc(s.(stack := s.stack - {a}), t, if got.Some? then Popped(got) else Seeking(left))
    case Draining(_, _, _, _) => DrainStep(s, t)
    case Fetching(_, _, _, _, _) => FetchStep(s, t)
    case Emptying(_, _, _, _) => EmptyStep(s, t)
    case _ => s
  }

  ghost function Apply(s: State, a: Action): State
    requires Enabled(s, a)
  {
    match a
    case BeginPush(t, v) => WithPc(s, t, Pushing(PRIMARY, v, s.arrays[PRIMARY]))
    case BeginPop(t) => WithPc(s, t, Seeking(s.stack))
    case BeginPopAll(t) => WithPc(s.(stack := {}), t, Detaching(s.stack, []))
    case Step(t) => Stepped(s, t)
    case Peek(t, a) => WithPc(s, t, Pushing(a, PcOf(s, t).v, s.arrays[a]))
    case Extend(t, n) =>
      var v := PcOf(s, t).v;
      WithPc(WithMeta(s, n, Meta({0}, {})).(slots := s.slots[Slot(n, 0) := v], stack := s.stack + {n},
                                            accepted := s.accepted + {v}), t, Pushed(v))
    case Visit(t, a) => WithPc(s, t, Popping(a, s.arrays[a], PcOf(s, t).left - {a}))
    case Drain(t, a) => WithPc(s, t, Draining(a, s.arrays[a], PcOf(s, t).todo, PcOf(s, t).acc))
  }

  /** An empty bag with arrays of `len` slots. */
  function Initial(len: nat): State {
    State(len, map[PRIMARY := Meta({}, {})], map[], {}, map[], {}, {})
  }
}
