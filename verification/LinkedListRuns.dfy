/**
  What holds of every run of the linked list: clean-up never loses an entry.
 */
module LinkedListRuns {
  import opened Common
  import opened LinkedList
  import opened LinkedListSafety
  import opened LinkedListSteps

  /** `acts` takes `s` to `t`. */
  ghost predicate Executes(s: State, acts: seq<Action>, t: State)
    decreases |acts|
  {
    if acts == [] then s == t else Enabled(s, acts[0]) && Executes(Apply(s, acts[0]), acts[1..], t)
  }

  lemma {:induction false} RunsKeepInv(s: State, acts: seq<Action>, t: State)
    requires Inv(s) && Executes(s, acts, t)
    ensures Inv(t)
    decreases |acts|
  {
    if acts != [] {
      InvKept(s, acts[0]);
      RunsKeepInv(Apply(s, acts[0]), acts[1..], t);
    }
  }

  // ---------------------------------------------------------------- the history is faithful

  /** There is always a position directly behind an entry. */
  lemma PositionExists(s: State, self: nat)
    requires self in s.pos
    ensures exists pos :: DirectlyBehind(s, self, pos)
  {
    var pos := PositionAmong(s, self, s.pos.Keys);
    assert DirectlyBehind(s, self, pos);
  }

  lemma {:induction false} PositionAmong(s: State, self: nat, es: set<nat>) returns (pos: real)
    requires self in s.pos && es <= s.pos.Keys
    ensures s.pos[self] < pos
    ensures forall e :: e in es && s.pos[self] < s.pos[e] ==> pos < s.pos[e]
    decreases |es|
  {
    if es == {} {
      pos := s.pos[self] + 1.0;
    } else {
      var x :| x in es;
      pos := PositionAmong(s, self, es - {x});
      if s.pos[self] < s.pos[x] <= pos {
        pos := (s.pos[self] + s.pos[x]) / 2.0;
      }
    }
  }

  ghost predicate Keeps(s: State, u: State) {
    && (forall e :: e in s.pos ==> e in u.pos && u.pos[e] == s.pos[e])
    && (forall e :: Deleted(s, e) ==> Deleted(u, e))
  }

  lemma WalkingIsPermanent(s: State, t: nat)
    requires Enabled(s, Step(t)) && (PcOf(s, t).Walking? || PcOf(s, t).Claiming? || PcOf(s, t).Linking?)
    ensures Keeps(s, Apply(s, Step(t)))
  {
  }

  lemma CleanupIsPermanent(s: State, t: nat)
    requires Enabled(s, Step(t)) && (PcOf(s, t).Sweeping? || PcOf(s, t).Resetting?)
    ensures Keeps(s, Apply(s, Step(t)))
  {
  }

  lemma PushIsPermanent(s: State, t: nat, entry: nat, pos: real)
    requires Positions(s) && Enabled(s, Push(t, entry, pos))
    ensures Keeps(s, Pushed(s, t, entry, pos))
  {
  }

  lemma StepIsPermanent(s: State, a: Action)
    requires Positions(s) && Enabled(s, a)
    ensures Keeps(s, Apply(s, a))
  {
    match a
    case Push(t, entry, pos) => PushIsPermanent(s, t, entry, pos);
    case Step(t) =>
      if PcOf(s, t).Sweeping? || PcOf(s, t).Resetting? {
        CleanupIsPermanent(s, t);
      } else {
        WalkingIsPermanent(s, t);
      }
    case _ =>
  }

  /** Entries keep their positions, and a deleted entry stays deleted. */
  lemma {:induction false} HistoryIsPermanent(s: State, acts: seq<Action>, t: State)
    requires Inv(s) && Executes(s, acts, t)
    ensures Keeps(s, t)
    decreases |acts|
  {
    if acts != [] {
      StepIsPermanent(s, acts[0]);
      InvKept(s, acts[0]);
      HistoryIsPermanent(Apply(s, acts[0]), acts[1..], t);
    }
  }

  // ---------------------------------------------------------------- nothing gets lost

  /** Following links leads from each entry of the path to the next. */
  ghost predicate Path(s: State, path: seq<nat>) {
    forall i :: 0 <= i < |path| - 1 ==> path[i] in s.links && s.links[path[i]].target == Some(path[i + 1])
  }

  ghost predicate Reaches(s: State, a: nat, x: nat) {
    exists path :: path != [] && path[0] == a && path[|path| - 1] == x && Path(s, path)
  }

  ghost function Between(s: State, a: nat, x: nat): set<nat>
    requires a in s.pos && x in s.pos
  {
    set e | e in s.pos && s.pos[a] < s.pos[e] <= s.pos[x]
  }

  lemma {:induction false} Smaller(a: set<nat>, b: set<nat>)
    requires a < b
    ensures |a| < |b|
  {
    assert |b| == |b - a| + |a| by { assert b == (b - a) + a; }
    assert b - a != {};
  }

  /** An entry that is not deleted can be reached from every entry before it. */
  lemma {:induction false} UndeletedIsReachable(s: State, a: nat, x: nat)
    requires Inv(s) && a in s.links && x in s.links && s.pos[a] < s.pos[x] && !Deleted(s, x)
    ensures Reaches(s, a, x)
    decreases |Between(s, a, x)|
  {
    var target := s.links[a].target;
    assert Gap(s, a, target);
    assert target.Some? && s.pos[target.value] <= s.pos[x] by {
      assert BeforeTarget(s, x, target) ==> Deleted(s, x);
    }
    var b := target.value;
    if b == x {
      assert Path(s, [a, x]);
    } else {
      assert Between(s, b, x) < Between(s, a, x) by {
        assert b in Between(s, a, x) && b !in Between(s, b, x);
      }
      Smaller(Between(s, b, x), Between(s, a, x));
      UndeletedIsReachable(s, b, x);
      OneStepFarther(s, a, b, x);
    }
  }

  lemma OneStepFarther(s: State, a: nat, b: nat, x: nat)
    requires a in s.links && s.links[a].target == Some(b) && Reaches(s, b, x)
    ensures Reaches(s, a, x)
  {
    var path :| path != [] && path[0] == b && path[|path| - 1] == x && Path(s, path);
    var longer := [a] + path;
    assert forall i :: 0 < i < |longer| ==> longer[i] == path[i - 1];
    assert Path(s, longer);
  }

  /** Whatever happens, an entry stays reachable from all entries before it until it is deleted. */
  lemma NothingGetsLost(s: State, acts: seq<Action>, t: State, a: nat, x: nat)
    requires Inv(s) && Executes(s, acts, t)
    requires a in s.links && x in s.links && s.pos[a] < s.pos[x] && !Deleted(t, x)
    ensures Reaches(t, a, x)
  {
    RunsKeepInv(s, acts, t);
    HistoryIsPermanent(s, acts, t);
    UndeletedIsReachable(t, a, x);
  }

  /** An entry that is accepted can be reached from the entry it is pushed to. */
  lemma PushedIsReachable(s: State, t: nat, entry: nat, pos: real)
    requires Inv(s) && Enabled(s, Push(t, entry, pos)) && PcOf(Pushed(s, t, entry, pos), t) == Idle(Accepted(entry))
    ensures Reaches(Pushed(s, t, entry, pos), PcOf(s, t).self, entry)
  {
    PushKeeps(s, t, entry, pos);
    UndeletedIsReachable(Pushed(s, t, entry, pos), PcOf(s, t).self, entry);
  }

  // ---------------------------------------------------------------- what a walk finds

  /**
    Where a walk arrives, the entry is not deleted, and all entries from the first one it met up to
    there are; at the end of the list all of them are.
   */
  lemma WalkFindsNext(acts: seq<Action>, s: State, t: nat)
    requires Executes(Initial(), acts, s) && Enabled(s, Step(t)) && PcOf(s, t).Walking?
    requires !WalkStep(s, t).threads[t].Walking? && !WalkStep(s, t).threads[t].Claiming?
    ensures var pc := PcOf(s, t);
            && (pc.at.Some? ==> pc.at.value in s.links && !Deleted(s, pc.at.value))
            && pc.start in s.pos
            && (forall e :: e in s.pos && s.pos[pc.start] <= s.pos[e] && BeforeTarget(s, e, pc.at) ==> Deleted(s, e))
  {
    InitialInv();
    RunsKeepInv(Initial(), acts, s);
    assert PcOk(s, PcOf(s, t));
  }

  /** A thread that has finished has none of its claims left: without walks nothing is tagged `Both`. */
  lemma FinishedWalksLeaveNoClaims(acts: seq<Action>, s: State, e: nat)
    requires Executes(Initial(), acts, s) && e in s.links && s.links[e].tag.Both?
    ensures exists t :: t in s.threads && !s.threads[t].Idle? && !s.threads[t].Pushing? && e in Claims(s.threads[t])
  {
    InitialInv();
    RunsKeepInv(Initial(), acts, s);
    var t :| Owns(s, t, e);
    assert t in s.threads && e in Claims(s.threads[t]);
  }

  /** An entry is cleaned up by one thread at a time. */
  lemma OneCleanerAtATime(acts: seq<Action>, s: State, t: nat, u: nat, e: nat)
    requires Executes(Initial(), acts, s)
    requires t in s.threads && u in s.threads && e in Claims(s.threads[t]) && e in Claims(s.threads[u])
    ensures t == u && e in s.links && s.links[e].tag.Both?
  {
    InitialInv();
    RunsKeepInv(Initial(), acts, s);
    assert Owns(s, t, e) && Owns(s, u, e);
  }

  // ---------------------------------------------------------------- threads that go on

  /** No thread in the midst of a push, a walk or a clean-up is ever blocked. */
  lemma NeverBlocked(acts: seq<Action>, s: State, t: nat, entry: nat)
    requires Executes(Initial(), acts, s) && !PcOf(s, t).Idle? && entry !in s.links
    ensures if PcOf(s, t).Pushing? then exists pos :: Enabled(s, Push(t, entry, pos)) else Enabled(s, Step(t))
  {
    InitialInv();
    RunsKeepInv(Initial(), acts, s);
    var pc := PcOf(s, t);
    assert PcOk(s, pc);
    if pc.Pushing? {
      PositionExists(s, pc.self);
      var pos :| DirectlyBehind(s, pc.self, pos);
      assert Enabled(s, Push(t, entry, pos));
    }
  }
}
