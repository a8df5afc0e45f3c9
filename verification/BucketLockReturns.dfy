/**
  What the operations of a bucket lock return: an attempt to lock the bucket ends with the lock of the
  wanted kind, or without one and then the bucket has been killed.
 */
module BucketLockReturns {
  import opened Common
  import opened BucketLock
  import opened BucketLockSafety
  import opened BucketLockRuns

  // ---------------------------------------------------------------- who is refused

  /** The thread has been refused, or is going to be once it has woken up the queue. */
  predicate IsRefused(pc: Pc) {
    match pc
    case Idle(result) => result.NoLocker?
    case Signalling(Locked(_, outcome)) => outcome.Killed?
    case Waking(_, Locked(_, outcome)) => outcome.Killed?
    case Blocked(_, outcome) => outcome.Killed?
    case _ => false
  }

  ghost predicate RefusedByKilled(s: State) {
    forall t :: t in s.threads && IsRefused(s.threads[t]) ==> s.word.killed
  }

  lemma RefusalKept(s: State, a: Action)
    requires RefusedByKilled(s) && Seen(s) && Enabled(s, a)
    ensures RefusedByKilled(Apply(s, a)) && Seen(Apply(s, a))
  {
    if s.word.killed { KilledStays(s, a); }
    if a.Step? { assert PcOk(PcOf(s, a.t)); }
  }

  lemma {:induction false} RunsKeepRefusal(s: State, acts: seq<Action>, u: State)
    requires RefusedByKilled(s) && Seen(s) && Executes(s, acts, u)
    ensures RefusedByKilled(u)
    decreases |acts|
  {
    if acts != [] {
      RefusalKept(s, acts[0]);
      RunsKeepRefusal(Apply(s, acts[0]), acts[1..], u);
    }
  }

  /** Whoever returns without the lock, or is about to, finds the bucket killed. */
  lemma OnlyKilledRefuses(acts: seq<Action>, s: State, t: nat)
    requires Executes(Initial(), acts, s) && IsRefused(PcOf(s, t))
    ensures s.word.killed
  {
    RunsKeepRefusal(Initial(), acts, s);
  }

  /** A bucket is killed exactly if someone has killed it. */
  lemma {:induction false} KilledBySomeone(s: State, acts: seq<Action>, u: State)
    requires Seen(s) && Executes(s, acts, u)
    ensures u.word.killed <==> s.word.killed || exists i :: 0 <= i < |acts| && acts[i].Kill?
    decreases |acts|
  {
    if acts != [] {
      var m, rest := Apply(s, acts[0]), acts[1..];
      OnlyKillKills(s, acts[0]);
      KilledBySomeone(m, rest, u);
      assert forall i :: 0 <= i < |rest| ==> rest[i] == acts[i + 1];
      if i :| 0 <= i < |acts| && acts[i].Kill? {
        assert i > 0 ==> rest[i - 1].Kill?;
      }
    }
  }

  lemma OnlyKillKills(s: State, a: Action)
    requires Seen(s) && Enabled(s, a)
    ensures Seen(Apply(s, a)) && (Apply(s, a).word.killed <==> s.word.killed || a.Kill?)
  {
    if a.Step? { assert PcOk(PcOf(s, a.t)); }
  }

  // ---------------------------------------------------------------- what an attempt ends with

  predicate Begins(a: Action, t: nat) { a.t == t && (a.Begin? || a.Release?) }

  ghost predicate NeverBegins(acts: seq<Action>, t: nat) {
    forall i :: 0 <= i < |acts| ==> !Begins(acts[i], t)
  }

  /** The thread is on its way to a lock of `kind`, has it, or has been refused. */
  predicate Attempts(pc: Pc, kind: Kind) {
    match pc
    case Idle(result) => result.NoLocker?
    case Signalling(next) => next.Locked? && next.kind == kind && !next.outcome.Failed?
    case Waking(_, next) => next.Locked? && next.kind == kind && !next.outcome.Failed?
    case _ => pc.kind == kind
  }

  /** The thread has released the lock, and may still have to wake up the queue. */
  predicate Releases(pc: Pc) {
    match pc
    case Idle(result) => result.Unlocked?
    case Signalling(next) => next.Released?
    case Waking(_, next) => next.Released?
    case _ => false
  }

  lemma ActionGoesOn(s: State, a: Action, t: nat, kind: Kind)
    requires Enabled(s, a) && !Begins(a, t)
    ensures Attempts(PcOf(s, t), kind) ==> Attempts(PcOf(Apply(s, a), t), kind)
    ensures Releases(PcOf(s, t)) ==> Releases(PcOf(Apply(s, a), t))
  {
  }

  lemma {:induction false} RunGoesOn(s: State, acts: seq<Action>, u: State, t: nat, kind: Kind)
    requires Executes(s, acts, u) && NeverBegins(acts, t)
    ensures Attempts(PcOf(s, t), kind) ==> Attempts(PcOf(u, t), kind)
    ensures Releases(PcOf(s, t)) ==> Releases(PcOf(u, t))
    decreases |acts|
  {
    if acts != [] {
      assert !Begins(acts[0], t) && NeverBegins(acts[1..], t);
      ActionGoesOn(s, acts[0], t, kind);
      RunGoesOn(Apply(s, acts[0]), acts[1..], u, t, kind);
    }
  }

  lemma AlwaysInv(before: seq<Action>, s: State, a: Action, acts: seq<Action>, u: State)
    requires Executes(Initial(), before, s) && Enabled(s, a) && Executes(Apply(s, a), acts, u)
    ensures Inv(u) && RefusedByKilled(u)
  {
    InitialInv();
    RunsKeepInv(Initial(), before, s);
    RunsKeepRefusal(Initial(), before, s);
    InvKept(s, a);
    RefusalKept(s, a);
    RunsKeepInv(Apply(s, a), acts, u);
    RunsKeepRefusal(Apply(s, a), acts, u);
  }

  /**
    Whatever other threads do, an attempt to lock that ends does so with the lock of the kind that was
    asked for, or without a lock and then the bucket has been killed.
   */
  lemma AttemptEnds(before: seq<Action>, s: State, t: nat, kind: Kind, acts: seq<Action>, u: State)
    requires Executes(Initial(), before, s) && Enabled(s, Begin(t, kind))
    requires Executes(Apply(s, Begin(t, kind)), acts, u) && NeverBegins(acts, t)
    requires PcOf(u, t).Idle? || PcOf(u, t).Holding?
    ensures PcOf(u, t) == Holding(kind) || (PcOf(u, t) == Idle(NoLocker) && u.word.killed)
    ensures PcOf(u, t).Holding? ==> if kind.Writer? then u.word.lock else u.word.readers > 0
  {
    RunGoesOn(Apply(s, Begin(t, kind)), acts, u, t, kind);
    AlwaysInv(before, s, Begin(t, kind), acts, u);
    if PcOf(u, t).Holding? { HolderCounts(u, t); }
  }

  /** After a release the thread has no lock, and it does nothing but wake up the queue. */
  lemma ReleaseEnds(s: State, t: nat, acts: seq<Action>, u: State)
    requires Enabled(s, Release(t)) && Executes(ReleaseStep(s, t), acts, u) && NeverBegins(acts, t)
    ensures Releases(PcOf(u, t)) && Has(PcOf(u, t)).None?
  {
    RunGoesOn(ReleaseStep(s, t), acts, u, t, PcOf(s, t).kind);
  }

  // ---------------------------------------------------------------- without interference

  /** The bucket can be locked. */
  predicate Available(kind: Kind, w: Word) {
    if kind.Writer? then !Held(w) else !Crowded(w)
  }

  /** A reader does not look further if there are too many, and a killed bucket refuses everyone else. */
  predicate Refuses(kind: Kind, w: Word) {
    w.killed && (kind.Writer? || !Crowded(w))
  }

  /**
    An attempt that nobody interferes with locks the bucket exactly if it is available and has not been
    killed, and is refused if it has been; otherwise the thread joins the queue.
   */
  lemma AloneLocks(s: State, t: nat, kind: Kind)
    requires Enabled(s, Begin(t, kind))
    ensures exists acts, u :: Executes(s, [Begin(t, kind)] + acts, u) && (forall i :: 0 <= i < |acts| ==> acts[i] == Step(t))
              && (if Refuses(kind, s.word) then PcOf(u, t) == Idle(NoLocker) && u.word == s.word
                  else if Available(kind, s.word) then PcOf(u, t) == Holding(kind) && u.word == LockedWord(kind, s.word)
                  else PcOf(u, t) == Enqueuing(kind) && u.word == s.word)
  {
    var m := Apply(s, Begin(t, kind));
    var n := LoadStep(m, t);
    assert Executes(n, [], n) && Executes(m, [Step(t)], n);
    if n.threads[t].Swapping? {
      var u := SwapStep(n, t);
      assert Executes(n, [Step(t)], u);
      assert [Step(t), Step(t)][1..] == [Step(t)];
      assert Executes(m, [Step(t), Step(t)], u);
      assert ([Begin(t, kind)] + [Step(t), Step(t)])[1..] == [Step(t), Step(t)];
      assert Executes(s, [Begin(t, kind)] + [Step(t), Step(t)], u);
    } else {
      assert ([Begin(t, kind)] + [Step(t)])[1..] == [Step(t)];
      assert Executes(s, [Begin(t, kind)] + [Step(t)], n);
    }
  }

  /** What is left to a thread that has taken the queue: everyone in it is signalled. */
  lemma {:induction false} AloneSignals(s: State, t: nat)
    requires PcOf(s, t).Waking?
    ensures exists acts, u :: Executes(s, acts, u) && (forall i :: 0 <= i < |acts| ==> acts[i] == Step(t))
              && PcOf(u, t) == Woken(PcOf(s, t).next)
              && u.word == s.word && u.queue == s.queue
              && forall x :: x in u.signalled <==> x in s.signalled || x in PcOf(s, t).list
    decreases |PcOf(s, t).list|
  {
    var list, m := PcOf(s, t).list, Stepped(s, t);
    if list == [] {
      assert Executes(m, [], m) && Executes(s, [Step(t)], m);
    } else {
      AloneSignals(m, t);
      var acts, u :| Executes(m, acts, u) && (forall i :: 0 <= i < |acts| ==> acts[i] == Step(t))
                     && PcOf(u, t) == Woken(PcOf(m, t).next) && u.word == m.word && u.queue == m.queue
                     && forall x :: x in u.signalled <==> x in m.signalled || x in PcOf(m, t).list;
      assert ([Step(t)] + acts)[1..] == acts;
      assert Executes(s, [Step(t)] + acts, u);
      assert forall x :: x in list <==> x == list[0] || x in list[1..];
    }
  }

  /** A thread that is to signal the queue can do so on its own: it empties it and signals all who were in it. */
  lemma AloneWakes(s: State, t: nat)
    requires PcOf(s, t).Signalling?
    ensures exists acts, u :: Executes(s, acts, u) && (forall i :: 0 <= i < |acts| ==> acts[i] == Step(t))
              && PcOf(u, t) == Woken(PcOf(s, t).next)
              && u.word == s.word && u.queue == []
              && forall x :: x in u.signalled <==> x in s.signalled || x in s.queue
  {
    var m := Stepped(s, t);
    AloneSignals(m, t);
    var acts, u :| Executes(m, acts, u) && (forall i :: 0 <= i < |acts| ==> acts[i] == Step(t))
                   && PcOf(u, t) == Woken(PcOf(m, t).next) && u.word == m.word && u.queue == m.queue
                   && forall x :: x in u.signalled <==> x in m.signalled || x in PcOf(m, t).list;
    assert ([Step(t)] + acts)[1..] == acts;
    assert Executes(s, [Step(t)] + acts, u);
  }
}
