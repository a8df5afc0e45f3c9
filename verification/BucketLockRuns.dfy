/**
  What holds of every run of a bucket lock.
 */
module BucketLockRuns {
  import opened Common
  import opened BucketLock
  import opened BucketLockSafety

  /** `acts` takes `s` to `t`. */
  ghost predicate Executes(s: State, acts: seq<Action>, t: State)
    decreases |acts|
  {
    if acts == [] then s == t else Enabled(s, acts[0]) && Executes(Apply(s, acts[0]), acts[1..], t)
  }

  lemma {:induction false} RunsKeepInv(s: State, acts: seq<Action>, t: State)
    requires Inv(s) && Executes(s, acts, t)
    ensures Inv(t)
    decreases |acts|
  {
    if acts != [] {
      InvKept(s, acts[0]);
      RunsKeepInv(Apply(s, acts[0]), acts[1..], t);
    }
  }

  /** A killed bucket stays killed. */
  lemma {:induction false} KilledIsPermanent(s: State, acts: seq<Action>, t: State)
    requires Executes(s, acts, t) && s.word.killed && Seen(s)
    ensures t.word.killed
    decreases |acts|
  {
    if acts != [] {
      KilledStays(s, acts[0]);
      KilledIsPermanent(Apply(s, acts[0]), acts[1..], t);
    }
  }

  lemma KilledStays(s: State, a: Action)
    requires Enabled(s, a) && s.word.killed && Seen(s)
    ensures Apply(s, a).word.killed && Seen(Apply(s, a))
  {
    if a.Step? { assert PcOk(PcOf(s, a.t)); }
  }

  lemma TwoOfOne(a: set<nat>, t: nat, u: nat)
    requires |a| <= 1 && t in a && u in a
    ensures t == u
  {
    assert |a - {t}| == |a| - 1;
    assert a - {t} == {};
  }

  /** A writer is alone, whoever else there is, and readers are counted. */
  lemma WritersAreAlone(acts: seq<Action>, s: State, t: nat, u: nat)
    requires Executes(Initial(), acts, s) && t in s.threads && u in s.threads
    requires Has(s.threads[t]) == Some(Writer) && Has(s.threads[u]).Some?
    ensures t == u && s.word.lock && s.word.readers == 0
  {
    InitialInv();
    RunsKeepInv(Initial(), acts, s);
    HolderCounts(s, t);
    HolderCounts(s, u);
    assert t in Holders(s, Writer) && u in Holders(s, Writer);
    TwoOfOne(Holders(s, Writer), t, u);
  }

  /** The number of readers in the word is their number, and it stays below the lock bit. */
  lemma ReadersAreCounted(acts: seq<Action>, s: State)
    requires Executes(Initial(), acts, s)
    ensures s.word.readers == |Holders(s, Reader)| <= SLOCK_MAX
    ensures forall t :: t in s.threads && Has(s.threads[t]) == Some(Reader) ==> s.word.readers > 0 && !s.word.lock
  {
    InitialInv();
    RunsKeepInv(Initial(), acts, s);
    forall t | t in s.threads && Has(s.threads[t]) == Some(Reader) ensures s.word.readers > 0 && !s.word.lock {
      HolderCounts(s, t);
    }
  }

  // ---------------------------------------------------------------- waking up

  lemma HeldByOne(s: State)
    requires Exclusive(s) && Held(s.word)
    ensures exists t :: t in s.threads && Has(s.threads[t]).Some?
  {
    var kind := if s.word.lock then Writer else Reader;
    assert Holders(s, kind) != {} by {
      if kind.Writer? { assert |Holders(s, Writer)| > 0; } else { assert |Holders(s, Reader)| > 0; }
    }
    var t :| t in Holders(s, kind);
  }

  /**
    No wake-up is lost: a blocked thread that has not been signalled is about to be signalled, or its
    entry is in the queue and the queue is about to be taken, or the lock is held by someone who will
    find the waiting flag set.
   */
  lemma NoWakeUpIsLost(acts: seq<Action>, s: State, t: nat)
    requires Executes(Initial(), acts, s)
    requires t in s.threads && s.threads[t].Blocked? && s.threads[t].outcome.Failed? && t !in s.signalled
    ensures || (exists u :: Wakes(s, u, t))
            || (t in s.queue && Pending(s))
            || (t in s.queue && s.word.waiting && exists u :: u in s.threads && Has(s.threads[u]).Some?)
  {
    InitialInv();
    RunsKeepInv(Initial(), acts, s);
    if t in s.queue && !Pending(s) {
      assert Watched(s, t);
      HeldByOne(s);
    }
  }

  /** When a thread goes on from waiting nobody refers to its queue entry any more. */
  lemma EntryIsFreeToGo(acts: seq<Action>, s: State, t: nat)
    requires Executes(Initial(), acts, s) && PcOf(s, t).Blocked? && StepEnabled(s, t)
    ensures t !in s.queue && forall u :: !Wakes(s, u, t)
  {
    InitialInv();
    RunsKeepInv(Initial(), acts, s);
  }

  /** A thread can go on by itself: it can take a step, or release what it holds. */
  predicate CanGoOn(s: State, t: nat) {
    t in s.threads && (StepEnabled(s, t) || s.threads[t].Holding?)
  }

  /** As long as someone is blocked, some thread can go on. */
  lemma NeverStuck(acts: seq<Action>, s: State, t: nat)
    requires Executes(Initial(), acts, s) && t in s.threads && s.threads[t].Blocked?
    ensures exists u :: CanGoOn(s, u)
  {
    InitialInv();
    RunsKeepInv(Initial(), acts, s);
    if t in s.signalled {
      assert CanGoOn(s, t);
    } else if t in s.queue {
      QueuedHasHelp(s, t);
    } else {
      var u :| Wakes(s, u, t);
      assert CanGoOn(s, u);
    }
  }

  lemma QueuedHasHelp(s: State, t: nat)
    requires Inv(s) && t in s.threads && s.threads[t].Blocked? && t in s.queue
    ensures exists u :: CanGoOn(s, u)
  {
    if Pending(s) {
      var u :| u in s.threads && s.threads[u].Signalling?;
      assert CanGoOn(s, u);
    } else if s.threads[t].outcome.Failed? {
      assert Watched(s, t);
      HeldByOne(s);
      var u :| u in s.threads && Has(s.threads[u]).Some?;
      HolderHasHelp(s, u);
    }
  }

  lemma HolderHasHelp(s: State, u: nat)
    requires Inv(s) && u in s.threads && Has(s.threads[u]).Some?
    ensures exists v :: CanGoOn(s, v)
  {
    if s.threads[u].Blocked? && u !in s.signalled {
      assert Done(s.threads[u]) && HasEntry(s.threads[u]);
      var v :| Wakes(s, v, u);
      assert CanGoOn(s, v);
    } else {
      assert CanGoOn(s, u);
    }
  }
}
