/**
  What the operations of the linked list return, and that they take place: `push_back` puts its entry
  in unless the entry it is pushed to is deleted, `next_ptr` returns the next entry that is not
  deleted, and of all calls that delete an entry one succeeds.
 */
module LinkedListReturns {
  import opened Common
  import opened LinkedList
  import opened LinkedListSafety
  import opened LinkedListSteps
  import opened LinkedListRuns

  predicate Begins(a: Action, t: nat) { a.t == t && !a.Push? && !a.Step? && !a.Abandon? }

  ghost predicate NeverBegins(acts: seq<Action>, t: nat) {
    forall i :: 0 <= i < |acts| ==> !Begins(acts[i], t)
  }

  /** An action changes the program point of its own thread only. */
  lemma OthersStay(s: State, a: Action, t: nat)
    requires Enabled(s, a) && a.t != t
    ensures PcOf(Apply(s, a), t) == PcOf(s, t)
  {
  }

  // ---------------------------------------------------------------- pushing

  /** `entry` has been put in between `self` and what was behind it, and nothing else has changed. */
  ghost predicate PutIn(s: State, u: State, self: nat, entry: nat, mark: bool) {
    && self in s.links && entry !in s.links && u.links.Keys == s.links.Keys + {entry}
    && u.links[self].target == Some(entry) && u.links[entry].target == s.links[self].target
    && (u.links[self].tag.First? <==> mark) && !Deleted(u, self) && u.links[entry].tag.Clear?
    && forall e :: e in s.links && e != self ==> u.links[e] == s.links[e]
  }

  /**
    An attempt to push ends the operation unless the link of `self` has changed since it was loaded:
    the entry is refused if `self` is deleted, and otherwise it is in the list. Where it is not
    accepted nothing has happened.
   */
  lemma PushTakesPlace(acts: seq<Action>, s: State, t: nat, entry: nat, pos: real)
    requires Executes(Initial(), acts, s) && Enabled(s, Push(t, entry, pos))
    ensures var Pushing(self, seen, mark) := PcOf(s, t);
            var u := Apply(s, Push(t, entry, pos));
            && (PcOf(u, t).Idle? ==> PcOf(u, t).result == if Deleted(s, self) then Refused else Accepted(entry))
            && (!PcOf(u, t).Idle? ==> seen != s.links[self] && PcOf(u, t) == Pushing(self, s.links[self], mark))
            && (if PcOf(u, t) == Idle(Accepted(entry)) then PutIn(s, u, self, entry, mark)
                else u.links == s.links && u.pos == s.pos)
  {
    InitialInv();
    RunsKeepInv(Initial(), acts, s);
    assert PcOk(s, PcOf(s, t));
  }

  /** The entries that thread `t` has put in. */
  ghost function Entered(s: State, acts: seq<Action>, t: nat): seq<nat>
    decreases |acts|
  {
    if acts == [] || !Enabled(s, acts[0]) then [] else EnteredBy(s, acts[0], t) + Entered(Apply(s, acts[0]), acts[1..], t)
  }

  ghost function EnteredBy(s: State, a: Action, t: nat): seq<nat>
    requires Enabled(s, a)
  {
    if a.Push? && a.t == t && a.entry in Apply(s, a).links then [a.entry] else []
  }

  /** How far a thread has come with a push, having put in `entered`. */
  ghost predicate Tries(s: State, pc: Pc, self: nat, mark: bool, entered: seq<nat>) {
    match pc
    case Pushing(e, _, m) => e == self && m == mark && entered == []
    case Idle(Accepted(entry)) => entered == [entry]
    case Idle(Refused) => entered == [] && Deleted(s, self)
    case _ => false
  }

  lemma PushTries(s: State, t: nat, entry: nat, pos: real, self: nat, mark: bool)
    requires Enabled(s, Push(t, entry, pos)) && PcOk(s, PcOf(s, t)) && Tries(s, PcOf(s, t), self, mark, [])
    ensures Tries(Pushed(s, t, entry, pos), PcOf(Pushed(s, t, entry, pos), t), self, mark, EnteredBy(s, Push(t, entry, pos), t))
  {
  }

  lemma OtherTries(s: State, a: Action, t: nat, self: nat, mark: bool, entered: seq<nat>)
    requires Positions(s) && Enabled(s, a) && !Begins(a, t) && Tries(s, PcOf(s, t), self, mark, entered)
    requires a.t != t || !a.Push?
    ensures Tries(Apply(s, a), PcOf(Apply(s, a), t), self, mark, entered)
  {
    StepIsPermanent(s, a);
    if a.t != t { OthersStay(s, a, t); }
  }

  lemma ActionTries(s: State, a: Action, t: nat, self: nat, mark: bool, entered: seq<nat>)
    requires Inv(s) && Enabled(s, a) && !Begins(a, t) && Tries(s, PcOf(s, t), self, mark, entered)
    ensures Tries(Apply(s, a), PcOf(Apply(s, a), t), self, mark, entered + EnteredBy(s, a, t))
  {
    if a.t == t && a.Push? {
      assert PcOk(s, PcOf(s, t));
      assert [] + EnteredBy(s, a, t) == EnteredBy(s, a, t);
      PushTries(s, t, a.entry, a.pos, self, mark);
    } else {
      assert entered + EnteredBy(s, a, t) == entered;
      OtherTries(s, a, t, self, mark, entered);
    }
  }

  lemma {:induction false} RunTries(s: State, acts: seq<Action>, u: State, t: nat, self: nat, mark: bool, entered: seq<nat>)
    requires Inv(s) && Executes(s, acts, u) && NeverBegins(acts, t) && Tries(s, PcOf(s, t), self, mark, entered)
    ensures Tries(u, PcOf(u, t), self, mark, entered + Entered(s, acts, t))
    decreases |acts|
  {
    if acts == [] {
      assert entered + [] == entered;
    } else {
      var a, rest, m := acts[0], acts[1..], Apply(s, acts[0]);
      assert !Begins(a, t) && NeverBegins(rest, t);
      ActionTries(s, a, t, self, mark, entered);
      InvKept(s, a);
      RunTries(m, rest, u, t, self, mark, entered + EnteredBy(s, a, t));
      assert entered + Entered(s, acts, t) == (entered + EnteredBy(s, a, t)) + Entered(m, rest, t);
    }
  }

  /**
    Whatever other threads do, a push that returns has put in one entry and says so, or it has put in
    none and the entry it was to be pushed to is deleted.
   */
  lemma PushAnswers(before: seq<Action>, s: State, t: nat, self: nat, mark: bool, acts: seq<Action>, u: State)
    requires Executes(Initial(), before, s) && Enabled(s, BeginPush(t, self, mark))
    requires Executes(Apply(s, BeginPush(t, self, mark)), acts, u) && NeverBegins(acts, t)
    ensures var entered := Entered(Apply(s, BeginPush(t, self, mark)), acts, t);
            match PcOf(u, t)
            case Idle(Accepted(entry)) => entered == [entry]
            case Idle(Refused) => entered == [] && Deleted(u, self)
            case Pushing(e, _, m) => entered == [] && e == self && m == mark
            case _ => false
  {
    InitialInv();
    RunsKeepInv(Initial(), before, s);
    var m := Apply(s, BeginPush(t, self, mark));
    InvKept(s, BeginPush(t, self, mark));
    RunTries(m, acts, u, t, self, mark, []);
    assert [] + Entered(m, acts, t) == Entered(m, acts, t);
  }

  // ---------------------------------------------------------------- the next entry

  /** What `next_ptr` is going to return, once the walk has arrived. */
  function Decided(pc: Pc): Option<Option<nat>> {
    match pc
    case Linking(_, _, _, next, _, _, _) => Some(next)
    case Sweeping(_, next, _, _, _) => Some(next)
    case Resetting(next, _, _, _) => Some(next)
    case Idle(Next(next)) => Some(next)
    case _ => None
  }

  /** `next` is behind `self`, and all entries between that were there in `s0` are deleted. */
  ghost predicate Skipped(s0: State, self: nat, s: State, next: Option<nat>) {
    && self in s0.pos && (next.Some? ==> next.value in s.pos && s0.pos[self] < s.pos[next.value])
    && forall e :: e in s0.pos && s0.pos[self] < s0.pos[e] && BeforeTarget(s, e, next) ==> Deleted(s, e)
  }

  /** How far a thread has come in the search for the entry next to `self` that began in `s0`. */
  ghost predicate Seeks(s0: State, self: nat, s: State, pc: Pc) {
    && self in s0.links
    && (pc.Walking? || pc.Claiming? || pc.Linking? ==> pc.self == self && pc.seen == s0.links[self])
    && (if Decided(pc).Some? then Skipped(s0, self, s, Decided(pc).value) else pc.Walking? || pc.Claiming?)
  }

  lemma SkippedKept(s0: State, self: nat, s: State, u: State, next: Option<nat>)
    requires Skipped(s0, self, s, next) && Keeps(s0, s) && Keeps(s, u)
    ensures Skipped(s0, self, u, next)
  {
    forall e | e in s0.pos && s0.pos[self] < s0.pos[e] && BeforeTarget(u, e, next) ensures Deleted(u, e) {
      assert BeforeTarget(s, e, next);
    }
  }

  lemma ArrivalSkips(s0: State, self: nat, s: State, start: nat, at: Option<nat>)
    requires Keeps(s0, s) && Gap(s0, self, Some(start)) && Dead(s, start, at)
    ensures Skipped(s0, self, s, at)
  {
    forall e | e in s0.pos && s0.pos[self] < s0.pos[e] && BeforeTarget(s, e, at) ensures Deleted(s, e) {
      assert s0.pos[e] < s0.pos[start] ==> BeforeTarget(s0, e, Some(start));
    }
  }

  /** Where a walk arrives the entry is not deleted, and it becomes the answer. */
  lemma WalkSeeks(s0: State, self: nat, s: State, t: nat)
    requires self in s0.links && Gap(s0, self, s0.links[self].target) && Keeps(s0, s)
    requires Enabled(s, Step(t)) && PcOf(s, t).Walking? && PcOk(s, PcOf(s, t)) && Seeks(s0, self, s, PcOf(s, t))
    ensures Seeks(s0, self, WalkStep(s, t), PcOf(WalkStep(s, t), t))
    ensures var next := Decided(PcOf(WalkStep(s, t), t));
            next.Some? && next.value.Some? ==> next.value.value in s.links && !Deleted(s, next.value.value)
  {
    var pc := PcOf(s, t);
    var u := WalkStep(s, t);
    if Decided(PcOf(u, t)).Some? {
      ArrivalSkips(s0, self, s, pc.start, pc.at);
      WalkingIsPermanent(s, t);
      SkippedKept(s0, self, s, u, pc.at);
    }
  }

  lemma CleanupSeeks(s0: State, self: nat, s: State, t: nat)
    requires Positions(s) && Keeps(s0, s) && Enabled(s, Step(t)) && !PcOf(s, t).Walking? && Seeks(s0, self, s, PcOf(s, t))
    ensures Seeks(s0, self, Apply(s, Step(t)), PcOf(Apply(s, Step(t)), t))
    ensures Decided(PcOf(s, t)) == Decided(PcOf(Apply(s, Step(t)), t))
  {
    var pc := PcOf(s, t);
    var u := Apply(s, Step(t));
    StepIsPermanent(s, Step(t));
    if Decided(pc).Some? { SkippedKept(s0, self, s, u, Decided(pc).value); }
  }

  /** The search goes on; if its answer is decided only now, it is not deleted. */
  lemma ActionSeeks(s0: State, self: nat, s: State, a: Action, t: nat)
    requires Inv(s0) && Inv(s) && Keeps(s0, s) && Enabled(s, a) && !Begins(a, t) && Seeks(s0, self, s, PcOf(s, t))
    ensures Seeks(s0, self, Apply(s, a), PcOf(Apply(s, a), t))
    ensures var next := Decided(PcOf(Apply(s, a), t));
            && (Decided(PcOf(s, t)).Some? ==> next == Decided(PcOf(s, t)))
            && (next.Some? && next.value.Some? && Decided(PcOf(s, t)).None? ==>
                  next.value.value in s.links && !Deleted(s, next.value.value))
  {
    var pc := PcOf(s, t);
    if a.t == t && a.Step? && pc.Walking? {
      assert PcOk(s, pc) && Gap(s0, self, s0.links[self].target);
      WalkSeeks(s0, self, s, t);
    } else if a.t == t && a.Step? {
      CleanupSeeks(s0, self, s, t);
    } else {
      StayingSeeks(s0, self, s, a, t);
    }
  }

  lemma StayingSeeks(s0: State, self: nat, s: State, a: Action, t: nat)
    requires Positions(s) && Keeps(s0, s) && Enabled(s, a) && Seeks(s0, self, s, PcOf(s, t))
    requires if a.t == t then a.Abandon? else true
    ensures Seeks(s0, self, Apply(s, a), PcOf(Apply(s, a), t))
    ensures Decided(PcOf(s, t)) == Decided(PcOf(Apply(s, a), t))
  {
    StepIsPermanent(s, a);
    if a.t != t { OthersStay(s, a, t); }
    if Decided(PcOf(s, t)).Some? { SkippedKept(s0, self, s, Apply(s, a), Decided(PcOf(s, t)).value); }
  }

  /** At some moment of the run `e` is in the list and not deleted. */
  ghost predicate EverUndeleted(s: State, acts: seq<Action>, e: nat)
    decreases |acts|
  {
    || (e in s.links && !Deleted(s, e))
    || (acts != [] && Enabled(s, acts[0]) && EverUndeleted(Apply(s, acts[0]), acts[1..], e))
  }

  lemma {:induction false} RunSeeks(s0: State, self: nat, s: State, acts: seq<Action>, u: State, t: nat)
    requires Inv(s0) && Inv(s) && Keeps(s0, s) && Executes(s, acts, u) && NeverBegins(acts, t)
    requires Seeks(s0, self, s, PcOf(s, t))
    ensures Seeks(s0, self, u, PcOf(u, t))
    ensures var next := Decided(PcOf(u, t));
            && (Decided(PcOf(s, t)).Some? ==> next == Decided(PcOf(s, t)))
            && (next.Some? && next.value.Some? && Decided(PcOf(s, t)).None? ==> EverUndeleted(s, acts, next.value.value))
    decreases |acts|
  {
    if acts != [] {
      var a, rest, m := acts[0], acts[1..], Apply(s, acts[0]);
      assert !Begins(a, t) && NeverBegins(rest, t);
      ActionSeeks(s0, self, s, a, t);
      StepIsPermanent(s, a);
      InvKept(s, a);
      RunSeeks(s0, self, m, rest, u, t);
    }
  }

  lemma NextBegunSeeks(s: State, t: nat, self: nat)
    requires LinksOk(s) && self in s.links
    ensures var m := NextBegun(s, t, self);
            && Keeps(s, m) && Seeks(s, self, m, PcOf(m, t))
            && (Decided(PcOf(m, t)).Some? ==> Decided(PcOf(m, t)).value.None?)
  {
    assert Gap(s, self, s.links[self].target);
  }

  /**
    Whatever other threads do, `next_ptr` returns an entry behind `self` that has not been deleted at
    some moment of the call, and all entries between that were there when the call began are deleted;
    if it returns nothing, all entries that were behind `self` are.
   */
  lemma NextAnswers(before: seq<Action>, s: State, t: nat, self: nat, acts: seq<Action>, u: State)
    requires Executes(Initial(), before, s) && Enabled(s, BeginNext(t, self))
    requires Executes(Apply(s, BeginNext(t, self)), acts, u) && NeverBegins(acts, t) && PcOf(u, t).Idle?
    ensures PcOf(u, t).result.Next?
    ensures var next := PcOf(u, t).result.next;
            && self in s.pos
            && (next.Some? ==> next.value in u.pos && s.pos[self] < u.pos[next.value]
                               && EverUndeleted(Apply(s, BeginNext(t, self)), acts, next.value))
            && forall e :: e in s.pos && s.pos[self] < s.pos[e] && BeforeTarget(u, e, next) ==> Deleted(u, e)
  {
    InitialInv();
    RunsKeepInv(Initial(), before, s);
    InvKept(s, BeginNext(t, self));
    NextBegunSeeks(s, t, self);
    RunSeeks(s, self, NextBegun(s, t, self), acts, u, t);
  }

  // ---------------------------------------------------------------- unlinking

  ghost predicate OnlySteps(acts: seq<Action>, t: nat) {
    forall i :: 0 <= i < |acts| ==> acts[i] == Step(t)
  }

  /** Nobody else interferes: the link of `self` is as it was found, and leads to the answer in the end. */
  ghost predicate Unlinks(link: Link, self: nat, s: State, pc: Pc) {
    && self in s.links && self !in Claims(pc)
    && match pc
       case Walking(e, seen, _, _, _, _, _, _) => e == self && seen == link && s.links[self] == link
       case Claiming(e, seen, _, entry, _, _, _, _) => e == self && seen == link && s.links[self] == link && entry != self
       case Linking(e, seen, _, _, _, _, _) => e == self && seen == link && s.links[self] == link
       case Sweeping(_, next, _, _, _) => s.links[self] == Link(next, link.tag)
       case Idle(Next(next)) => s.links[self] == Link(next, link.tag)
       case _ => false
  }

  /** `self` stands before everything that the walk meets. */
  ghost predicate InFront(s: State, self: nat, link: Link) {
    link.target.Some? && self in s.pos && link.target.value in s.pos && s.pos[self] < s.pos[link.target.value]
  }

  lemma WalkUnlinks(link: Link, self: nat, s: State, t: nat)
    requires Enabled(s, Step(t)) && PcOf(s, t).Walking? && PcOk(s, PcOf(s, t)) && InFront(s, self, link)
    requires Unlinks(link, self, s, PcOf(s, t)) && !link.tag.Both?
    ensures Unlinks(link, self, WalkStep(s, t), PcOf(WalkStep(s, t), t))
  {
  }

  lemma ClaimUnlinks(link: Link, self: nat, s: State, t: nat)
    requires Enabled(s, Step(t)) && PcOf(s, t).Claiming? && PcOk(s, PcOf(s, t)) && InFront(s, self, link)
    requires Unlinks(link, self, s, PcOf(s, t))
    ensures Unlinks(link, self, ClaimStep(s, t), PcOf(ClaimStep(s, t), t))
  {
  }

  lemma LinkUnlinks(link: Link, self: nat, s: State, t: nat)
    requires Enabled(s, Step(t)) && PcOf(s, t).Linking? && PcOk(s, PcOf(s, t))
    requires Unlinks(link, self, s, PcOf(s, t))
    ensures Unlinks(link, self, LinkStep(s, t), PcOf(LinkStep(s, t), t))
  {
    CleanupOk(s, PcOf(s, t), true);
  }

  lemma SweepUnlinks(link: Link, self: nat, s: State, t: nat)
    requires Enabled(s, Step(t)) && PcOf(s, t).Sweeping? && PcOk(s, PcOf(s, t))
    requires Unlinks(link, self, s, PcOf(s, t))
    ensures Unlinks(link, self, SweepStep(s, t), PcOf(SweepStep(s, t), t))
  {
    assert PcOf(s, t).claimed[0] == PcOf(s, t).entry;
  }

  lemma StepUnlinks(link: Link, self: nat, s: State, t: nat)
    requires Enabled(s, Step(t)) && PcOk(s, PcOf(s, t)) && InFront(s, self, link)
    requires Unlinks(link, self, s, PcOf(s, t)) && !link.tag.Both?
    ensures Unlinks(link, self, Apply(s, Step(t)), PcOf(Apply(s, Step(t)), t)) && Apply(s, Step(t)).pos == s.pos
  {
    match PcOf(s, t)
    case Walking(_, _, _, _, _, _, _, _) => WalkUnlinks(link, self, s, t);
    case Claiming(_, _, _, _, _, _, _, _) => ClaimUnlinks(link, self, s, t);
    case Linking(_, _, _, _, _, _, _) => LinkUnlinks(link, self, s, t);
    case Sweeping(_, _, _, _, _) => SweepUnlinks(link, self, s, t);
    case _ =>
  }

  lemma {:induction false} RunUnlinks(link: Link, self: nat, s: State, acts: seq<Action>, u: State, t: nat)
    requires Inv(s) && Executes(s, acts, u) && OnlySteps(acts, t) && InFront(s, self, link)
    requires Unlinks(link, self, s, PcOf(s, t)) && !link.tag.Both?
    ensures Unlinks(link, self, u, PcOf(u, t))
    decreases |acts|
  {
    if acts != [] {
      assert acts[0] == Step(t) && OnlySteps(acts[1..], t);
      assert PcOk(s, PcOf(s, t));
      StepUnlinks(link, self, s, t);
      InvKept(s, acts[0]);
      RunUnlinks(link, self, Apply(s, acts[0]), acts[1..], u, t);
    }
  }

  lemma NextBegunUnlinks(s: State, t: nat, self: nat)
    requires LinksOk(s) && self in s.links
    ensures var m := NextBegun(s, t, self);
            && Unlinks(s.links[self], self, m, PcOf(m, t))
            && (s.links[self].target.Some? ==> InFront(m, self, s.links[self]))
  {
    assert Gap(s, self, s.links[self].target);
  }

  /** A call of `next_ptr` that nobody interferes with leaves `self` linked to the entry that it returns. */
  lemma NextUnlinks(before: seq<Action>, s: State, t: nat, self: nat, acts: seq<Action>, u: State)
    requires Executes(Initial(), before, s) && Enabled(s, BeginNext(t, self)) && !s.links[self].tag.Both?
    requires Executes(Apply(s, BeginNext(t, self)), acts, u) && OnlySteps(acts, t) && PcOf(u, t).Idle?
    ensures self in u.links && PcOf(u, t).result == Next(u.links[self].target) && u.links[self].tag == s.links[self].tag
  {
    InitialInv();
    RunsKeepInv(Initial(), before, s);
    InvKept(s, BeginNext(t, self));
    NextBegunUnlinks(s, t, self);
    assert acts != [] ==> acts[0] == Step(t);
    if s.links[self].target.Some? {
      RunUnlinks(s.links[self], self, NextBegun(s, t, self), acts, u, t);
    }
  }

  // ---------------------------------------------------------------- clean-up

  /** Links of `s0` lead from `start` through all of `walked` to `at`. */
  ghost predicate Leads(s0: State, start: nat, walked: seq<nat>, at: Option<nat>) {
    && (forall i :: 0 <= i < |walked| ==> walked[i] in s0.links)
    && (forall i :: 0 <= i < |walked| - 1 ==> s0.links[walked[i]].target == Some(walked[i + 1]))
    && (walked != [] ==> s0.links[walked[|walked| - 1]].target == at)
    && Some(start) == if walked == [] then at else Some(walked[0])
  }

  /** All of `walked` but the entries that are still claimed link to `next`. */
  ghost predicate Swept(s: State, walked: seq<nat>, next: Option<nat>, claimed: seq<nat>) {
    && |claimed| <= |walked| && claimed == walked[|walked| - |claimed|..]
    && forall i :: 0 <= i < |walked| - |claimed| ==> walked[i] in s.links && s.links[walked[i]] == Link(next, Second)
  }

  ghost predicate Cleaned(s0: State, start: nat, s: State, next: Option<nat>, claimed: seq<nat>) {
    exists walked :: Leads(s0, start, walked, next) && Swept(s, walked, next, claimed)
  }

  /** The links that the walk has still to load are as they were. */
  ghost predicate Untouched(s0: State, s: State, claimed: seq<nat>) {
    s.links.Keys == s0.links.Keys && forall e :: e in s.links && e !in claimed ==> s.links[e] == s0.links[e]
  }

  /** A walk that claims all it passes, and the clean-up after it. */
  ghost predicate Cleans(s0: State, start: nat, s: State, pc: Pc) {
    match pc
    case Walking(_, _, b, at, _, _, ended, claimed) =>
      b == start && !ended && Leads(s0, start, claimed, at) && Untouched(s0, s, claimed)
    case Claiming(_, _, b, entry, state, _, _, claimed) =>
      b == start && Leads(s0, start, claimed, Some(entry)) && Untouched(s0, s, claimed)
      && entry !in claimed && entry in s.links && s.links[entry] == state
    case Linking(_, _, b, next, _, _, claimed) => b == start && Leads(s0, start, claimed, next)
    case Sweeping(_, next, _, _, claimed) => Cleaned(s0, start, s, next, claimed)
    case Idle(Next(next)) => Cleaned(s0, start, s, next, [])
    case _ => false
  }

  lemma LeadsOn(s0: State, start: nat, walked: seq<nat>, e: nat, at: Option<nat>)
    requires Leads(s0, start, walked, Some(e)) && e in s0.links && s0.links[e].target == at
    ensures Leads(s0, start, walked + [e], at)
  {
    var w := walked + [e];
    forall i | 0 <= i < |w| - 1 ensures s0.links[w[i]].target == Some(w[i + 1]) {
      assert i < |walked| - 1 ==> w[i + 1] == walked[i + 1];
    }
  }

  lemma WalkCleans(s0: State, start: nat, s: State, t: nat)
    requires Enabled(s, Step(t)) && PcOf(s, t).Walking? && PcOk(s, PcOf(s, t))
    requires Cleans(s0, start, s, PcOf(s, t))
    requires forall e :: e in s0.links ==> !s0.links[e].tag.Both?
    ensures Cleans(s0, start, WalkStep(s, t), PcOf(WalkStep(s, t), t))
  {
    var pc := PcOf(s, t);
    var u := WalkStep(s, t);
    assert pc.at.Some? ==> pc.at.value !in pc.claimed;
    if PcOf(u, t).Idle? {
      assert pc.claimed == [];
      assert Swept(u, [], pc.at, []);
      assert Cleaned(s0, start, u, pc.at, []);
    }
  }

  lemma ClaimCleans(s0: State, start: nat, s: State, t: nat)
    requires Enabled(s, Step(t)) && PcOf(s, t).Claiming? && PcOk(s, PcOf(s, t))
    requires Cleans(s0, start, s, PcOf(s, t))
    ensures Cleans(s0, start, ClaimStep(s, t), PcOf(ClaimStep(s, t), t))
  {
    var pc := PcOf(s, t);
    LeadsOn(s0, start, pc.claimed, pc.entry, pc.state.target);
  }

  lemma LinkCleans(s0: State, start: nat, s: State, t: nat)
    requires Enabled(s, Step(t)) && PcOf(s, t).Linking? && PcOk(s, PcOf(s, t))
    requires s.links[PcOf(s, t).self] == PcOf(s, t).seen
    requires Cleans(s0, start, s, PcOf(s, t))
    ensures Cleans(s0, start, LinkStep(s, t), PcOf(LinkStep(s, t), t))
  {
    var pc := PcOf(s, t);
    var u := LinkStep(s, t);
    assert Swept(u, pc.claimed, pc.next, pc.claimed);
    assert Cleaned(s0, start, u, pc.next, pc.claimed);
  }

  lemma SweepCleans(s0: State, start: nat, s: State, t: nat)
    requires Enabled(s, Step(t)) && PcOf(s, t).Sweeping? && PcOk(s, PcOf(s, t))
    requires Cleans(s0, start, s, PcOf(s, t))
    ensures Cleans(s0, start, SweepStep(s, t), PcOf(SweepStep(s, t), t))
  {
    var pc := PcOf(s, t);
    var u := SweepStep(s, t);
    var walked :| Leads(s0, start, walked, pc.next) && Swept(s, walked, pc.next, pc.claimed);
    ChainEnds(s, pc.claimed, pc.entry, pc.end);
    assert walked[|walked| - |pc.claimed|] == pc.claimed[0];
    assert pc.claimed[1..] == walked[|walked| - |pc.claimed[1..]|..];
    assert Swept(u, walked, pc.next, pc.claimed[1..]);
    assert |pc.claimed| == 1 ==> pc.claimed[1..] == [];
    assert Cleaned(s0, start, u, pc.next, pc.claimed[1..]);
  }

  lemma StepCleans(s0: State, self: nat, start: nat, s: State, t: nat)
    requires Enabled(s, Step(t)) && PcOk(s, PcOf(s, t)) && Cleans(s0, start, s, PcOf(s, t))
    requires self in s0.links && Unlinks(s0.links[self], self, s, PcOf(s, t))
    requires forall e :: e in s0.links ==> !s0.links[e].tag.Both?
    ensures Cleans(s0, start, Apply(s, Step(t)), PcOf(Apply(s, Step(t)), t))
  {
    match PcOf(s, t)
    case Walking(_, _, _, _, _, _, _, _) => WalkCleans(s0, start, s, t);
    case Claiming(_, _, _, _, _, _, _, _) => ClaimCleans(s0, start, s, t);
    case Linking(_, _, _, _, _, _, _) => LinkCleans(s0, start, s, t);
    case Sweeping(_, _, _, _, _) => SweepCleans(s0, start, s, t);
    case _ =>
  }

  lemma {:induction false} RunCleans(s0: State, self: nat, s: State, acts: seq<Action>, u: State, t: nat)
    requires Inv(s) && Executes(s, acts, u) && OnlySteps(acts, t)
    requires self in s0.links && InFront(s, self, s0.links[self]) && Unlinks(s0.links[self], self, s, PcOf(s, t))
    requires Cleans(s0, s0.links[self].target.value, s, PcOf(s, t))
    requires forall e :: e in s0.links ==> !s0.links[e].tag.Both?
    ensures Cleans(s0, s0.links[self].target.value, u, PcOf(u, t))
    decreases |acts|
  {
    if acts != [] {
      assert acts[0] == Step(t) && OnlySteps(acts[1..], t);
      assert PcOk(s, PcOf(s, t));
      StepUnlinks(s0.links[self], self, s, t);
      StepCleans(s0, self, s0.links[self].target.value, s, t);
      InvKept(s, acts[0]);
      RunCleans(s0, self, Apply(s, acts[0]), acts[1..], u, t);
    }
  }

  lemma NextBegunCleans(s: State, t: nat, self: nat)
    requires self in s.links && s.links[self].target.Some? && !s.links[self].tag.Both?
    ensures Cleans(s, s.links[self].target.value, NextBegun(s, t, self), PcOf(NextBegun(s, t, self), t))
  {
  }

  lemma AllCleaned(s0: State, start: nat, u: State, pc: Pc)
    requires Cleans(s0, start, u, pc) && pc.Idle?
    ensures pc.result.Next?
    ensures exists walked :: Leads(s0, start, walked, pc.result.next)
              && forall e :: e in walked ==> e in u.links && u.links[e] == Link(pc.result.next, Second)
  {
    var next := pc.result.next;
    var walked :| Leads(s0, start, walked, next) && Swept(u, walked, next, []);
    forall e | e in walked ensures e in u.links && u.links[e] == Link(next, Second) {
      var i :| 0 <= i < |walked| && walked[i] == e;
    }
  }

  /**
    If no other walk is under way and nobody interferes, the entries that a call has passed are those
    from the former target of `self` up to the one returned, and all of them link to that one.
   */
  lemma NextCleansUp(before: seq<Action>, s: State, t: nat, self: nat, acts: seq<Action>, u: State)
    requires Executes(Initial(), before, s) && Enabled(s, BeginNext(t, self)) && s.links[self].target.Some?
    requires forall e :: e in s.links ==> !s.links[e].tag.Both?
    requires Executes(Apply(s, BeginNext(t, self)), acts, u) && OnlySteps(acts, t) && PcOf(u, t).Idle?
    ensures PcOf(u, t).result.Next?
    ensures exists walked :: Leads(s, s.links[self].target.value, walked, PcOf(u, t).result.next)
              && forall e :: e in walked ==> e in u.links && u.links[e] == Link(PcOf(u, t).result.next, Second)
  {
    InitialInv();
    RunsKeepInv(Initial(), before, s);
    InvKept(s, BeginNext(t, self));
    NextBegunUnlinks(s, t, self);
    NextBegunCleans(s, t, self);
    RunCleans(s, self, NextBegun(s, t, self), acts, u, t);
    AllCleaned(s, s.links[self].target.value, u, PcOf(u, t));
  }

  // ---------------------------------------------------------------- tags

  /** How many calls that delete `e` have succeeded. */
  ghost function Deletions(s: State, acts: seq<Action>, e: nat): nat
    decreases |acts|
  {
    if acts == [] || !Enabled(s, acts[0]) then 0 else
    (if acts[0].DeleteSelf? && acts[0].self == e && PcOf(Apply(s, acts[0]), acts[0].t) == Idle(Tagged(true)) then 1 else 0)
    + Deletions(Apply(s, acts[0]), acts[1..], e)
  }

  /** An entry is deleted by exactly one successful call, and by no other step. */
  lemma {:induction false} DeletedByOneCall(s: State, acts: seq<Action>, u: State, e: nat)
    requires Inv(s) && Executes(s, acts, u)
    ensures Deletions(s, acts, e) == if Deleted(u, e) && !Deleted(s, e) then 1 else 0
    decreases |acts|
  {
    if acts != [] {
      InvKept(s, acts[0]);
      StepIsPermanent(s, acts[0]);
      assert PcOk(s, PcOf(s, acts[0].t));
      ActionDeletes(s, acts[0], e);
      HistoryIsPermanent(Apply(s, acts[0]), acts[1..], u);
      DeletedByOneCall(Apply(s, acts[0]), acts[1..], u, e);
    }
  }

  lemma WalkDeletes(s: State, t: nat, e: nat)
    requires Enabled(s, Step(t)) && PcOk(s, PcOf(s, t)) && !PcOf(s, t).Sweeping? && !PcOf(s, t).Resetting?
    ensures Deleted(Apply(s, Step(t)), e) <==> Deleted(s, e)
  {
  }

  lemma CleanupDeletes(s: State, t: nat, e: nat)
    requires Enabled(s, Step(t)) && PcOk(s, PcOf(s, t)) && (PcOf(s, t).Sweeping? || PcOf(s, t).Resetting?)
    requires Deleted(s, PcOf(s, t).entry)
    ensures Deleted(Apply(s, Step(t)), e) <==> Deleted(s, e)
  {
  }

  lemma PushDeletes(s: State, t: nat, entry: nat, pos: real, e: nat)
    requires Enabled(s, Push(t, entry, pos)) && PcOk(s, PcOf(s, t))
    ensures Deleted(Pushed(s, t, entry, pos), e) <==> Deleted(s, e)
  {
  }

  lemma StepDeletes(s: State, t: nat, e: nat)
    requires Owned(s) && Enabled(s, Step(t)) && PcOk(s, PcOf(s, t))
    ensures Deleted(Apply(s, Step(t)), e) <==> Deleted(s, e)
  {
    var pc := PcOf(s, t);
    if pc.Sweeping? || pc.Resetting? {
      assert pc.claimed[0] == pc.entry && Owns(s, t, pc.entry);
      CleanupDeletes(s, t, e);
    } else {
      WalkDeletes(s, t, e);
    }
  }

  lemma ActionDeletes(s: State, a: Action, e: nat)
    requires Owned(s) && Enabled(s, a) && PcOk(s, PcOf(s, a.t))
    ensures var deletes := a.DeleteSelf? && a.self == e && PcOf(Apply(s, a), a.t) == Idle(Tagged(true));
            deletes <==> Deleted(Apply(s, a), e) && !Deleted(s, e)
  {
    match a
    case Push(t, entry, pos) => PushDeletes(s, t, entry, pos, e);
    case Step(t) => StepDeletes(s, t, e);
    case _ =>
  }

  /** Marking and unmarking change the mark, and nothing but the mark, of an entry that is not deleted. */
  lemma MarksAnswer(s: State, t: nat, self: nat, mark: bool)
    requires PcOf(s, t).Idle? && self in s.links
    ensures var u := Apply(s, if mark then Mark(t, self) else Unmark(t, self));
            && (PcOf(u, t) == Idle(Tagged(true)) <==> !Deleted(s, self) && s.links[self].tag.First? != mark)
            && (PcOf(u, t) == Idle(Tagged(true)) ==> u.links == s.links[self := Link(s.links[self].target, if mark then First else Clear)])
            && (PcOf(u, t) != Idle(Tagged(true)) ==> PcOf(u, t) == Idle(Tagged(false)) && u.links == s.links)
  {
  }
}
