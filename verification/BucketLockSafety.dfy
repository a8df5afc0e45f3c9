/**
  What every run of a bucket lock keeps: writers exclude each other and readers, and no waiter is
  left without someone who will wake it up.
 */
module BucketLockSafety {
  import opened Common
  import opened BucketLock

  // ---------------------------------------------------------------- who holds the lock

  /** The lock a thread has, even if it still waits for its own queue entry. */
  function Has(pc: Pc): Option<Kind> {
    match pc
    case Holding(kind) => Some(kind)
    case Signalling(Locked(kind, Acquired)) => Some(kind)
    case Waking(_, Locked(kind, Acquired)) => Some(kind)
    case Blocked(kind, Acquired) => Some(kind)
    case _ => None
  }

  ghost function Holders(s: State, kind: Kind): set<nat> {
    set t | t in s.threads && Has(s.threads[t]) == Some(kind)
  }

  ghost predicate Exclusive(s: State) {
    && |Holders(s, Writer)| == (if s.word.lock then 1 else 0)
    && |Holders(s, Reader)| == s.word.readers <= SLOCK_MAX
    && !(s.word.lock && s.word.readers > 0)
  }

  // ---------------------------------------------------------------- where queue entries are

  /** The thread has an entry of its own that it has not seen signalled. */
  predicate HasEntry(pc: Pc) {
    match pc
    case Marking(_) => true
    case Loading(_, queued) => queued
    case Swapping(_, queued, _) => queued
    case Signalling(next) => next.Locked?
    case Waking(_, next) => next.Locked?
    case Blocked(_, _) => true
    case _ => false
  }

  function ListOf(pc: Pc): seq<nat> {
    match pc case Waking(list, _) => list case _ => []
  }

  /** Thread `u` is going to signal the entry of `t`. */
  ghost predicate Wakes(s: State, u: nat, t: nat) {
    u in s.threads && t in ListOf(s.threads[u])
  }

  /** The entry of every waiting thread is in exactly one place, and nobody refers to another. */
  ghost predicate Entries(s: State) {
    && Distinct(s.queue)
    && (forall u :: u in s.threads ==> Distinct(ListOf(s.threads[u])))
    && (forall t :: t in s.queue ==> HasEntry(PcOf(s, t)) && t !in s.signalled)
    && (forall u, t :: Wakes(s, u, t) ==> HasEntry(PcOf(s, t)) && t !in s.queue && t !in s.signalled)
    && (forall u, v, t :: Wakes(s, u, t) && Wakes(s, v, t) ==> u == v)
    && (forall t :: t in s.signalled ==> HasEntry(PcOf(s, t)))
    && (forall t :: t in s.threads && HasEntry(s.threads[t]) ==>
          t in s.queue || t in s.signalled || exists u :: Wakes(s, u, t))
  }

  // ---------------------------------------------------------------- who wakes whom

  ghost predicate Pending(s: State) {
    exists u :: u in s.threads && s.threads[u].Signalling?
  }

  /** The thread has set the waiting flag and has not got the lock. */
  predicate Marked(pc: Pc) {
    match pc
    case Loading(_, queued) => queued
    case Swapping(_, queued, _) => queued
    case Blocked(_, outcome) => outcome.Failed?
    case _ => false
  }

  /** The word is as it was loaded, unless the lock is held. */
  predicate StillSeen(w: Word, kind: Kind, seen: Word) {
    && seen.waiting && w.waiting && !seen.lock
    && (Held(w) || w == seen)
  }

  ghost predicate Watched(s: State, t: nat)
    requires t in s.threads
  {
    && s.word.waiting
    && (s.threads[t].Blocked? ==> Held(s.word))
    && (s.threads[t].Swapping? ==> StillSeen(s.word, s.threads[t].kind, s.threads[t].seen))
  }

  /** A queued thread that has set the flag will be woken up by a pending signal, or by a release. */
  ghost predicate NoneLost(s: State) {
    forall t :: t in s.threads && t in s.queue && Marked(s.threads[t]) ==> Pending(s) || Watched(s, t)
  }

  /** What a thread has loaded allows it to lock the bucket; who signals the queue has not failed. */
  predicate PcOk(pc: Pc) {
    match pc
    case Swapping(kind, _, seen) => !seen.lock && seen.readers < SLOCK_MAX && (kind.Writer? ==> seen.readers == 0) && !seen.killed
    case Signalling(Locked(_, outcome)) => !outcome.Failed?
    case Waking(_, Locked(_, outcome)) => !outcome.Failed?
    case _ => true
  }

  ghost predicate Seen(s: State) {
    forall t :: t in s.threads ==> PcOk(s.threads[t])
  }

  /** The thread has taken the queue, with its own entry, and waits to be signalled. */
  predicate Done(pc: Pc) {
    match pc
    case Waking(_, next) => next.Locked?
    case Blocked(_, outcome) => !outcome.Failed?
    case _ => false
  }

  ghost predicate Taken(s: State) {
    forall t :: t in s.threads && Done(s.threads[t]) ==> t !in s.queue
  }

  ghost predicate Inv(s: State) {
    Exclusive(s) && Entries(s) && NoneLost(s) && Seen(s) && Taken(s)
  }

  lemma InitialInv()
    ensures Inv(Initial())
  {
    assert Holders(Initial(), Writer) == {} && Holders(Initial(), Reader) == {};
  }

  // ---------------------------------------------------------------- the lock

  lemma SameHolders(s: State, u: State, t: nat, kind: Kind)
    requires t in u.threads && u.threads == s.threads[t := u.threads[t]]
    requires Has(u.threads[t]) == Some(kind) <==> Has(PcOf(s, t)) == Some(kind)
    ensures Holders(u, kind) == Holders(s, kind)
  {
  }

  lemma OneMoreHolder(s: State, u: State, t: nat, kind: Kind)
    requires t in u.threads && u.threads == s.threads[t := u.threads[t]]
    requires Has(u.threads[t]) == Some(kind) && Has(PcOf(s, t)) != Some(kind)
    ensures |Holders(u, kind)| == |Holders(s, kind)| + 1
  {
    assert Holders(u, kind) == Holders(s, kind) + {t} && t !in Holders(s, kind);
  }

  lemma OneLessHolder(s: State, u: State, t: nat, kind: Kind)
    requires t in u.threads && u.threads == s.threads[t := u.threads[t]]
    requires Has(u.threads[t]) != Some(kind) && Has(PcOf(s, t)) == Some(kind)
    ensures |Holders(u, kind)| == |Holders(s, kind)| - 1
  {
    assert Holders(u, kind) == Holders(s, kind) - {t} && t in Holders(s, kind);
  }

  lemma SameLock(s: State, u: State, t: nat)
    requires Exclusive(s) && t in u.threads && u.threads == s.threads[t := u.threads[t]]
    requires u.word.lock == s.word.lock && u.word.readers == s.word.readers && Has(u.threads[t]) == Has(PcOf(s, t))
    ensures Exclusive(u)
  {
    SameHolders(s, u, t, Writer);
    SameHolders(s, u, t, Reader);
  }

  lemma SwapExclusive(s: State, t: nat)
    requires Exclusive(s) && Seen(s) && PcOf(s, t).Swapping?
    ensures Exclusive(SwapStep(s, t))
  {
    var pc, u := PcOf(s, t), SwapStep(s, t);
    if s.word == pc.seen {
      OneMoreHolder(s, u, t, pc.kind);
      SameHolders(s, u, t, if pc.kind.Writer? then Reader else Writer);
    } else {
      SameLock(s, u, t);
    }
  }

  lemma HolderCounts(s: State, t: nat)
    requires Exclusive(s) && t in s.threads && Has(s.threads[t]).Some?
    ensures Held(s.word)
    ensures Has(s.threads[t]).value.Writer? ==> s.word.lock
    ensures Has(s.threads[t]).value.Reader? ==> s.word.readers > 0
  {
    var kind := Has(s.threads[t]).value;
    assert t in Holders(s, kind);
    assert |Holders(s, kind)| > 0;
    if kind.Writer? { assert |Holders(s, Writer)| > 0; } else { assert |Holders(s, Reader)| > 0; }
  }

  lemma ReleaseExclusive(s: State, t: nat)
    requires Exclusive(s) && Enabled(s, Release(t))
    ensures Exclusive(ReleaseStep(s, t))
  {
    var pc, u := PcOf(s, t), ReleaseStep(s, t);
    HolderCounts(s, t);
    OneLessHolder(s, u, t, pc.kind);
    SameHolders(s, u, t, if pc.kind.Writer? then Reader else Writer);
  }

  // ---------------------------------------------------------------- entries

  /** One thread goes on; its entry stays where it is, and it signals the same entries. */
  lemma SameEntries(s: State, u: State, t: nat)
    requires Entries(s) && t in u.threads && u.threads == s.threads[t := u.threads[t]]
    requires u.queue == s.queue && u.signalled == s.signalled
    requires ListOf(u.threads[t]) == ListOf(PcOf(s, t)) && HasEntry(u.threads[t]) == HasEntry(PcOf(s, t))
    ensures Entries(u)
  {
    assert forall v, x :: Wakes(u, v, x) <==> Wakes(s, v, x);
    assert forall x :: HasEntry(PcOf(u, x)) <==> HasEntry(PcOf(s, x));
  }

  lemma EnqueueEntries(s: State, u: State, t: nat)
    requires Entries(s) && PcOf(s, t).Enqueuing? && u == Stepped(s, t)
    ensures Entries(u)
  {
    assert forall v, x :: Wakes(u, v, x) <==> Wakes(s, v, x);
    assert forall x :: x != t ==> (HasEntry(PcOf(u, x)) <==> HasEntry(PcOf(s, x)));
    assert !HasEntry(PcOf(s, t)) && t !in s.queue;
    forall x | x in u.threads && HasEntry(u.threads[x])
      ensures x in u.queue || x in u.signalled || exists v :: Wakes(u, v, x)
    {
      if x != t && x !in s.queue && x !in s.signalled {
        var v :| Wakes(s, v, x);
        assert Wakes(u, v, x);
      }
    }
  }

  lemma TakeEntries(s: State, u: State, t: nat)
    requires Entries(s) && PcOf(s, t).Signalling? && u == Stepped(s, t)
    ensures Entries(u)
  {
    assert forall x :: HasEntry(PcOf(u, x)) <==> HasEntry(PcOf(s, x));
    assert forall v, x :: Wakes(u, v, x) <==> (v == t && x in s.queue) || (v != t && Wakes(s, v, x));
    forall x | x in u.threads && HasEntry(u.threads[x])
      ensures x in u.queue || x in u.signalled || exists v :: Wakes(u, v, x)
    {
      if x in s.queue {
        assert Wakes(u, t, x);
      } else if x !in s.signalled {
        var v :| Wakes(s, v, x);
        assert Wakes(u, v, x);
      }
    }
  }

  /** Only the first entry of the list leaves it. */
  lemma WakeWakes(s: State, u: State, t: nat, v: nat, x: nat)
    requires Entries(s) && PcOf(s, t).Waking? && PcOf(s, t).list != [] && u == Stepped(s, t)
    ensures Wakes(u, v, x) <==> Wakes(s, v, x) && x != PcOf(s, t).list[0]
  {
    var list := PcOf(s, t).list;
    assert ListOf(u.threads[t]) == list[1..];
    assert Wakes(s, t, list[0]);
    if v == t {
      assert x in list <==> x == list[0] || x in list[1..];
    } else {
      assert Wakes(u, v, x) <==> Wakes(s, v, x);
    }
  }

  lemma WakeEntries(s: State, u: State, t: nat)
    requires Entries(s) && PcOf(s, t).Waking? && PcOf(s, t).list != [] && u == Stepped(s, t)
    ensures Entries(u)
  {
    var list := PcOf(s, t).list;
    assert Wakes(s, t, list[0]);
    forall v, x ensures Wakes(u, v, x) <==> Wakes(s, v, x) && x != list[0] {
      WakeWakes(s, u, t, v, x);
    }
    forall x ensures HasEntry(PcOf(u, x)) <==> HasEntry(PcOf(s, x)) {
    }
    forall x | x in u.threads && HasEntry(u.threads[x])
      ensures x in u.queue || x in u.signalled || exists v :: Wakes(u, v, x)
    {
      if x !in s.queue && x !in u.signalled {
        var v :| Wakes(s, v, x);
        assert Wakes(u, v, x);
      }
    }
  }

  lemma UnblockEntries(s: State, u: State, t: nat)
    requires Entries(s) && PcOf(s, t).Blocked? && t in s.signalled && u == Stepped(s, t)
    ensures Entries(u)
  {
    assert forall v, x :: Wakes(u, v, x) <==> Wakes(s, v, x);
    assert forall v :: !Wakes(s, v, t);
    assert forall x :: x != t ==> (HasEntry(PcOf(u, x)) <==> HasEntry(PcOf(s, x)));
    forall x | x in u.threads && HasEntry(u.threads[x])
      ensures x in u.queue || x in u.signalled || exists v :: Wakes(u, v, x)
    {
      if x !in s.queue && x !in s.signalled {
        var v :| Wakes(s, v, x);
        assert Wakes(u, v, x);
      }
    }
  }

  // ---------------------------------------------------------------- nobody is lost

  /** No signal is lost, nobody releases the lock, and `t` itself is watched or not waiting. */
  lemma StaysWatched(s: State, u: State, t: nat)
    requires NoneLost(s) && t in u.threads && u.threads == s.threads[t := u.threads[t]]
    requires forall x :: x in u.queue && x != t ==> x in s.queue
    requires PcOf(s, t).Signalling? ==> u.threads[t].Signalling?
    requires u.word.waiting || !s.word.waiting
    requires Held(s.word) ==> Held(u.word)
    requires u.word.(waiting := s.word.waiting) == s.word || Held(u.word)
    requires t in u.queue && Marked(u.threads[t]) ==> Pending(u) || Watched(u, t)
    ensures NoneLost(u)
  {
    if Pending(s) {
      var v :| v in s.threads && s.threads[v].Signalling?;
      assert u.threads[v].Signalling?;
    } else {
      forall x | x in u.threads && x in u.queue && Marked(u.threads[x]) ensures Pending(u) || Watched(u, x) {
        if x != t { assert Watched(s, x); }
      }
    }
  }

  lemma SignalMakesPending(u: State, t: nat)
    requires t in u.threads && u.threads[t].Signalling?
    ensures NoneLost(u)
  {
  }

  lemma ReleaseNoneLost(s: State, u: State, t: nat)
    requires NoneLost(s) && Enabled(s, Release(t)) && u == ReleaseStep(s, t)
    ensures NoneLost(u)
  {
    if s.word.waiting {
      SignalMakesPending(u, t);
    } else if Pending(s) {
      var v :| v in s.threads && s.threads[v].Signalling?;
      assert u.threads[v].Signalling?;
    } else {
      assert forall x :: x in s.threads && x in s.queue ==> !Marked(s.threads[x]) || Watched(s, x);
    }
  }

  lemma LoadNoneLost(s: State, u: State, t: nat)
    requires NoneLost(s) && Exclusive(s) && PcOf(s, t).Loading? && u == LoadStep(s, t)
    ensures NoneLost(u)
  {
    if u.threads[t].Signalling? {
      SignalMakesPending(u, t);
    } else {
      if t in u.queue && Marked(u.threads[t]) && Pending(s) {
        var v :| v in s.threads && s.threads[v].Signalling?;
        assert u.threads[v].Signalling?;
      }
      StaysWatched(s, u, t);
    }
  }

  lemma SwapNoneLost(s: State, u: State, t: nat)
    requires NoneLost(s) && Seen(s) && PcOf(s, t).Swapping? && u == SwapStep(s, t)
    ensures NoneLost(u)
  {
    if u.threads[t].Signalling? {
      SignalMakesPending(u, t);
    } else {
      if t in u.queue && Marked(u.threads[t]) && Pending(s) {
        var v :| v in s.threads && s.threads[v].Signalling?;
        assert u.threads[v].Signalling?;
      }
      StaysWatched(s, u, t);
    }
  }

  // ---------------------------------------------------------------- every step

  lemma MovesSeen(s: State, u: State, t: nat)
    requires Seen(s) && t in u.threads && u.threads == s.threads[t := u.threads[t]]
    requires PcOk(u.threads[t])
    ensures Seen(u)
  {
  }

  lemma TakenKept(s: State, t: nat)
    requires Taken(s) && Seen(s) && StepEnabled(s, t)
    ensures Taken(Stepped(s, t))
  {
    assert PcOk(PcOf(s, t));
  }

  lemma TryKeeps(s: State, t: nat)
    requires Inv(s) && (PcOf(s, t).Loading? || PcOf(s, t).Swapping?)
    ensures Inv(Stepped(s, t))
  {
    TakenKept(s, t);
    var u := Stepped(s, t);
    SameEntries(s, u, t);
    MovesSeen(s, u, t);
    if PcOf(s, t).Loading? {
      SameLock(s, u, t);
      LoadNoneLost(s, u, t);
    } else {
      SwapExclusive(s, t);
      SwapNoneLost(s, u, t);
    }
  }

  lemma QueueKeeps(s: State, t: nat)
    requires Inv(s) && (PcOf(s, t).Enqueuing? || PcOf(s, t).Marking?)
    ensures Inv(Stepped(s, t))
  {
    TakenKept(s, t);
    var u := Stepped(s, t);
    SameLock(s, u, t);
    MovesSeen(s, u, t);
    if PcOf(s, t).Enqueuing? { EnqueueEntries(s, u, t); } else { SameEntries(s, u, t); }
    StaysWatched(s, u, t);
  }

  /** Taking the queue leaves nobody in it. */
  lemma SignalKeeps(s: State, t: nat)
    requires Inv(s) && PcOf(s, t).Signalling?
    ensures Inv(Stepped(s, t))
  {
    TakenKept(s, t);
    var u := Stepped(s, t);
    SameLock(s, u, t);
    MovesSeen(s, u, t);
    TakeEntries(s, u, t);
  }

  lemma WakeKeeps(s: State, t: nat)
    requires Inv(s) && StepEnabled(s, t) && (PcOf(s, t).Waking? || PcOf(s, t).Blocked?)
    ensures Inv(Stepped(s, t))
  {
    TakenKept(s, t);
    var u := Stepped(s, t);
    SameLock(s, u, t);
    MovesSeen(s, u, t);
    if PcOf(s, t).Blocked? {
      UnblockEntries(s, u, t);
    } else if PcOf(s, t).list == [] {
      SameEntries(s, u, t);
    } else {
      WakeEntries(s, u, t);
    }
    StaysWatched(s, u, t);
  }

  lemma ReleaseKeeps(s: State, t: nat)
    requires Inv(s) && Enabled(s, Release(t))
    ensures Inv(ReleaseStep(s, t))
  {
    var u := ReleaseStep(s, t);
    ReleaseExclusive(s, t);
    SameEntries(s, u, t);
    ReleaseNoneLost(s, u, t);
    MovesSeen(s, u, t);
  }

  lemma KillKeeps(s: State, t: nat)
    requires Inv(s) && Enabled(s, Kill(t))
    ensures Inv(Apply(s, Kill(t)))
  {
    var u := Apply(s, Kill(t));
    HolderCounts(s, t);
    assert u.threads == s.threads[t := u.threads[t]];
    SameLock(s, u, t);
    SameEntries(s, u, t);
    MovesSeen(s, u, t);
    StaysWatched(s, u, t);
  }

  lemma BeginKeeps(s: State, t: nat, kind: Kind)
    requires Inv(s) && PcOf(s, t).Idle?
    ensures Inv(WithPc(s, t, Loading(kind, false)))
  {
    var u := WithPc(s, t, Loading(kind, false));
    SameLock(s, u, t);
    SameEntries(s, u, t);
    MovesSeen(s, u, t);
    StaysWatched(s, u, t);
  }

  lemma InvKept(s: State, a: Action)
    requires Inv(s) && Enabled(s, a)
    ensures Inv(Apply(s, a))
  {
    match a
    case Begin(t, kind) => BeginKeeps(s, t, kind);
    case Kill(t) => KillKeeps(s, t);
    case Release(t) => ReleaseKeeps(s, t);
    case Step(t) =>
      match PcOf(s, t) {
        case Loading(_, _) => TryKeeps(s, t);
        case Swapping(_, _, _) => TryKeeps(s, t);
        case Enqueuing(_) => QueueKeeps(s, t);
        case Marking(_) => QueueKeeps(s, t);
        case Signalling(_) => SignalKeeps(s, t);
        case Waking(_, _) => WakeKeeps(s, t);
        case Blocked(_, _) => WakeKeeps(s, t);
        case _ =>
      }
  }
}
