/**
  Operations of the linked list that nobody interferes with come to an end.
 */
module LinkedListAlone {
  import opened Common
  import opened LinkedList
  import opened LinkedListSafety
  import opened LinkedListSteps
  import opened LinkedListRuns
  import opened LinkedListReturns

  /** Steps of thread `t` alone lead from `s` to a state in which it has returned. */
  ghost predicate AloneReturns(s: State, t: nat) {
    exists acts, u :: Executes(s, acts, u) && OnlySteps(acts, t) && PcOf(u, t).Idle?
  }

  lemma StepsFirst(s: State, t: nat)
    requires Enabled(s, Step(t)) && AloneReturns(Apply(s, Step(t)), t)
    ensures AloneReturns(s, t)
  {
    var acts, u :| Executes(Apply(s, Step(t)), acts, u) && OnlySteps(acts, t) && PcOf(u, t).Idle?;
    assert ([Step(t)] + acts)[1..] == acts;
    assert Executes(s, [Step(t)] + acts, u) && OnlySteps([Step(t)] + acts, t);
  }

  lemma HasReturned(s: State, t: nat)
    requires PcOf(s, t).Idle?
    ensures AloneReturns(s, t)
  {
    assert Executes(s, [], s) && OnlySteps([], t);
  }

  /** Some run leads to `s`. */
  ghost predicate Reached(s: State) {
    exists acts :: Executes(Initial(), acts, s)
  }

  lemma {:induction false} OneMoreAction(s: State, acts: seq<Action>, m: State, a: Action)
    requires Executes(s, acts, m) && Enabled(m, a)
    ensures Executes(s, acts + [a], Apply(m, a))
    decreases |acts|
  {
    if acts == [] {
      assert acts + [a] == [a] && [a][1..] == [];
      assert Executes(Apply(m, a), [], Apply(m, a));
    } else {
      OneMoreAction(Apply(s, acts[0]), acts[1..], m, a);
      assert (acts + [a])[1..] == acts[1..] + [a];
    }
  }

  lemma StaysReached(s: State, a: Action)
    requires Reached(s) && Enabled(s, a)
    ensures Reached(Apply(s, a))
  {
    var acts :| Executes(Initial(), acts, s);
    OneMoreAction(Initial(), acts, s, a);
  }

  lemma ReachedIsOk(s: State, t: nat)
    requires Reached(s)
    ensures Inv(s) && PcOk(s, PcOf(s, t))
    ensures !PcOf(s, t).Idle? && !PcOf(s, t).Pushing? ==> Enabled(s, Step(t))
  {
    var acts :| Executes(Initial(), acts, s);
    InitialInv();
    RunsKeepInv(Initial(), acts, s);
  }

  // ---------------------------------------------------------------- releasing the claimed entries

  lemma {:induction false} AloneCleansUp(s: State, t: nat)
    requires Reached(s) && (PcOf(s, t).Sweeping? || PcOf(s, t).Resetting?)
    ensures AloneReturns(s, t)
    decreases |PcOf(s, t).claimed|
  {
    ReachedIsOk(s, t);
    var m := Apply(s, Step(t));
    StaysReached(s, Step(t));
    if PcOf(m, t).Idle? { HasReturned(m, t); } else { AloneCleansUp(m, t); }
    StepsFirst(s, t);
  }

  lemma AloneLinks(s: State, t: nat)
    requires Reached(s) && PcOf(s, t).Linking?
    ensures AloneReturns(s, t)
  {
    ReachedIsOk(s, t);
    var m := Apply(s, Step(t));
    StaysReached(s, Step(t));
    if PcOf(m, t).Idle? { HasReturned(m, t); } else { AloneCleansUp(m, t); }
    StepsFirst(s, t);
  }

  // ---------------------------------------------------------------- walking

  /** The entries from `at` on. */
  ghost function From(pos: map<nat, real>, at: Option<nat>): set<nat> {
    set e | e in pos && at.Some? && at.value in pos && pos[at.value] <= pos[e]
  }

  lemma FurtherOn(s: State, e: nat, at: Option<nat>)
    requires BeforeTarget(s, e, at)
    ensures |From(s.pos, at)| < |From(s.pos, Some(e))|
  {
    assert e in From(s.pos, Some(e)) && e !in From(s.pos, at);
    assert From(s.pos, at) < From(s.pos, Some(e));
    Smaller(From(s.pos, at), From(s.pos, Some(e)));
  }

  ghost function Ahead(s: State, pc: Pc): nat {
    match pc
    case Walking(_, _, _, at, _, _, _, _) => 2 * |From(s.pos, at)| + 1
    case Claiming(_, _, _, e, _, _, _, _) => 2 * |From(s.pos, Some(e))|
    case _ => 0
  }

  lemma WalkComesCloser(s: State, t: nat)
    requires LinksOk(s) && PcOf(s, t).Walking? && Enabled(s, Step(t))
    ensures var q := PcOf(WalkStep(s, t), t);
            && (q.Idle? || q.Linking? || q.Walking? || q.Claiming?)
            && (q.Walking? || q.Claiming? ==> Ahead(WalkStep(s, t), q) < Ahead(s, PcOf(s, t)))
  {
    var at := PcOf(s, t).at;
    if at.Some? {
      assert Gap(s, at.value, s.links[at.value].target);
      FurtherOn(s, at.value, s.links[at.value].target);
    }
  }

  lemma ClaimComesCloser(s: State, t: nat)
    requires PcOf(s, t).Claiming? && PcOk(s, PcOf(s, t))
    ensures var q := PcOf(ClaimStep(s, t), t); q.Walking? && Ahead(ClaimStep(s, t), q) < Ahead(s, PcOf(s, t))
  {
    FurtherOn(s, PcOf(s, t).entry, PcOf(s, t).state.target);
  }

  /** Each step of a walk brings it closer to the end of the list. */
  lemma StepComesCloser(s: State, t: nat)
    requires Reached(s) && (PcOf(s, t).Walking? || PcOf(s, t).Claiming?)
    ensures Enabled(s, Step(t))
    ensures var m := Apply(s, Step(t));
            && (PcOf(m, t).Idle? || PcOf(m, t).Linking? || PcOf(m, t).Walking? || PcOf(m, t).Claiming?)
            && (PcOf(m, t).Walking? || PcOf(m, t).Claiming? ==> Ahead(m, PcOf(m, t)) < Ahead(s, PcOf(s, t)))
  {
    ReachedIsOk(s, t);
    if PcOf(s, t).Walking? { WalkComesCloser(s, t); } else { ClaimComesCloser(s, t); }
  }

  lemma {:induction false} AloneWalks(s: State, t: nat)
    requires Reached(s) && (PcOf(s, t).Walking? || PcOf(s, t).Claiming?)
    ensures AloneReturns(s, t)
    decreases Ahead(s, PcOf(s, t))
  {
    StepComesCloser(s, t);
    var m := Apply(s, Step(t));
    StaysReached(s, Step(t));
    if PcOf(m, t).Idle? {
      HasReturned(m, t);
    } else if PcOf(m, t).Linking? {
      AloneLinks(m, t);
    } else {
      AloneWalks(m, t);
    }
    StepsFirst(s, t);
  }

  /** A call of `next_ptr` that nobody interferes with returns, however far it has come. */
  lemma AloneFindsNext(before: seq<Action>, s: State, t: nat)
    requires Executes(Initial(), before, s) && !PcOf(s, t).Pushing?
    ensures AloneReturns(s, t)
  {
    assert Reached(s);
    match PcOf(s, t)
    case Idle(_) => HasReturned(s, t);
    case Linking(_, _, _, _, _, _, _) => AloneLinks(s, t);
    case Walking(_, _, _, _, _, _, _, _) => AloneWalks(s, t);
    case Claiming(_, _, _, _, _, _, _, _) => AloneWalks(s, t);
    case _ => AloneCleansUp(s, t);
  }

  lemma FirstAttempt(m: State, t: nat, entry: nat, pos: real)
    requires PcOf(m, t).Pushing? && PcOf(m, t).self in m.links && PcOf(m, t).seen == m.links[PcOf(m, t).self] && entry !in m.links
    ensures var self, u := PcOf(m, t).self, Pushed(m, t, entry, pos);
            if Deleted(m, self) then PcOf(u, t) == Idle(Refused) && u.links == m.links
            else PcOf(u, t) == Idle(Accepted(entry)) && PutIn(m, u, self, entry, PcOf(m, t).mark)
  {
  }

  /** A push that nobody interferes with takes one attempt, and succeeds exactly if its entry is not deleted. */
  lemma AlonePushes(before: seq<Action>, s: State, t: nat, self: nat, mark: bool, entry: nat)
    requires Executes(Initial(), before, s) && Enabled(s, BeginPush(t, self, mark)) && entry !in s.links
    ensures exists pos, u :: Executes(s, [BeginPush(t, self, mark), Push(t, entry, pos)], u)
              && if Deleted(s, self) then PcOf(u, t) == Idle(Refused) && u.links == s.links
                 else PcOf(u, t) == Idle(Accepted(entry)) && PutIn(s, u, self, entry, mark)
  {
    var m := Apply(s, BeginPush(t, self, mark));
    assert self in m.pos by {
      assert Reached(s);
      ReachedIsOk(s, t);
    }
    PositionExists(m, self);
    var pos :| DirectlyBehind(m, self, pos);
    var u := Apply(m, Push(t, entry, pos));
    FirstAttempt(m, t, entry, pos);
    TwoActions(s, BeginPush(t, self, mark), Push(t, entry, pos));
  }

  lemma TwoActions(s: State, a: Action, b: Action)
    requires Enabled(s, a) && Enabled(Apply(s, a), b)
    ensures Executes(s, [a, b], Apply(Apply(s, a), b))
  {
    assert Executes(s, [], s);
    OneMoreAction(s, [], s, a);
    OneMoreAction(s, [] + [a], Apply(s, a), b);
    assert [] + [a] + [b] == [a, b];
  }
}
