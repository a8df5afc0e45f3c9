/**
  The lock of a bucket and its wait queue: writers and readers lock the bucket by changing its state
  word; who fails queues up, marks that someone is waiting, tries once more and then blocks until
  signalled.

  Every load and every compare-and-exchange of the state, of the queue and of a queue entry is one
  step.
 */
module BucketLock {
  import opened Common

  /** The greatest number of readers: all bits below the lock bit. */
  const SLOCK_MAX: nat := 0x1FFF_FFFF

  /** The state of the bucket: three flags and the number of readers in one word. */
  datatype Word = Word(killed: bool, waiting: bool, lock: bool, readers: nat)

  datatype Kind = Writer | Reader

  /** How an attempt to lock has ended. */
  datatype Outcome = Failed | Acquired | Killed

  /** What to do once the queue has been woken up. */
  datatype After = Released | Locked(kind: Kind, outcome: Outcome)

  /** What the last operation of a thread has returned. */
  datatype Result = Nothing | NoLocker | Unlocked

  datatype Pc =
    | Idle(result: Result)
    | Loading(kind: Kind, queued: bool)                // load the state
    | Swapping(kind: Kind, queued: bool, seen: Word)   // lock it, if it is as loaded
    | Enqueuing(kind: Kind)                            // put an entry into the queue
    | Marking(kind: Kind)                              // set the waiting flag
    | Signalling(next: After)                          // take the whole queue
    | Waking(list: seq<nat>, next: After)              // signal one entry after the other, oldest first
    | Blocked(kind: Kind, outcome: Outcome)            // wait for the own entry to be signalled
    | Holding(kind: Kind)

  datatype State = State(
    word: Word,
    queue: seq<nat>,           // threads with an entry in the queue, oldest first
    signalled: set<nat>,       // threads whose entry has been signalled
    threads: map<nat, Pc>)

  datatype Action = Begin(t: nat, kind: Kind) | Step(t: nat) | Kill(t: nat) | Release(t: nat)

  function PcOf(s: State, t: nat): Pc {
    if t in s.threads then s.threads[t] else Idle(Nothing)
  }

  function WithPc(s: State, t: nat, pc: Pc): State {
    s.(threads := s.threads[t := pc])
  }

  predicate Held(w: Word) { w.lock || w.readers > 0 }

  /** The lock bits of the word are too large for one more reader. */
  predicate Crowded(w: Word) { w.lock || w.readers >= SLOCK_MAX }

  /** The word that the compare-and-exchange expects. */
  function Expected(kind: Kind, w: Word): Word {
    if kind.Writer? then w.(lock := false, readers := 0) else w
  }

  function LockedWord(kind: Kind, w: Word): Word {
    if kind.Writer? then w.(lock := true) else w.(readers := w.readers + 1)
  }

  /** Where a thread is after an attempt to lock. */
  function Tried(kind: Kind, queued: bool, outcome: Outcome): Pc {
    if queued then
      if outcome.Failed? then Blocked(kind, Failed) else Signalling(Locked(kind, outcome))
    else match outcome
      case Failed => Enqueuing(kind)
      case Acquired => Holding(kind)
      case Killed => Idle(NoLocker)
  }

  function LoadStep(s: State, t: nat): State
    requires PcOf(s, t).Loading?
  {
    var Loading(kind, queued) := PcOf(s, t);
    WithPc(s, t,
      if kind.Reader? && Crowded(s.word) then Tried(kind, queued, Failed)
      else if s.word.killed then Tried(kind, queued, Killed)
      else Swapping(kind, queued, Expected(kind, s.word)))
  }

  function SwapStep(s: State, t: nat): State
    requires PcOf(s, t).Swapping?
  {
    var Swapping(kind, queued, seen) := PcOf(s, t);
    if s.word == seen then WithPc(s.(word := LockedWord(kind, seen)), t, Tried(kind, queued, Acquired))
    else WithPc(s, t, Tried(kind, queued, Failed))
  }

  /** Where a thread is when it has woken up everyone. */
  function Woken(next: After): Pc {
    match next
    case Released => Idle(Unlocked)
    case Locked(kind, outcome) => Blocked(kind, outcome)
  }

  /** Where a thread is once its own entry has been signalled. */
  function Unblocked(kind: Kind, outcome: Outcome): Pc {
    match outcome
    case Failed => Loading(kind, false)
    case Acquired => Holding(kind)
    case Killed => Idle(NoLocker)
  }

  /** The lock is released, and so is the waiting flag; who finds it set signals the queue. */
  function ReleaseStep(s: State, t: nat): State
    requires PcOf(s, t).Holding? && (PcOf(s, t).kind.Reader? ==> s.word.readers > 0)
  {
    var w := s.word.(waiting := false);
    WithPc(s.(word := if PcOf(s, t).kind.Writer? then w.(lock := false) else w.(readers := w.readers - 1)), t,
           if s.word.waiting then Signalling(Released) else Idle(Unlocked))
  }

  predicate StepEnabled(s: State, t: nat) {
    match PcOf(s, t)
    case Idle(_) => false
    case Holding(_) => false
    case Blocked(_, _) => t in s.signalled
    case _ => true
  }

  predicate Enabled(s: State, a: Action) {
    match a
    case Begin(t, _) => PcOf(s, t).Idle?
    case Step(t) => StepEnabled(s, t)
    case Kill(t) => PcOf(s, t).Holding?
    case Release(t) => PcOf(s, t).Holding? && (PcOf(s, t).kind.Reader? ==> s.word.readers > 0)
  }

  function Stepped(s: State, t: nat): State
    requires StepEnabled(s, t)
  {
    match PcOf(s, t)
    case Idle(_) => s
    case Holding(_) => s
    case Loading(_, _) => LoadStep(s, t)
    case Swapping(_, _, _) => SwapStep(s, t)
    case Enqueuing(kind) => WithPc(s.(queue := s.queue + [t]), t, Marking(kind))
    case Marking(kind) => WithPc(s.(word := s.word.(waiting := true)), t, Loading(kind, true))
    case Signalling(next) => WithPc(s.(queue := []), t, Waking(s.queue, next))
    case Waking(list, next) =>
      if list == [] then WithPc(s, t, Woken(next))
      else WithPc(s.(signalled := s.signalled + {list[0]}), t, Waking(list[1..], next))
    case Blocked(kind, outcome) => WithPc(s.(signalled := s.signalled - {t}), t, Unblocked(kind, outcome))
  }

  function Apply(s: State, a: Action): State
    requires Enabled(s, a)
  {
    match a
    case Begin(t, kind) => WithPc(s, t, Loading(kind, false))
    case Step(t) => Stepped(s, t)
    case Kill(t) => s.(word := s.word.(killed := true))
    case Release(t) => ReleaseStep(s, t)
  }

  function Initial(): State {
    State(Word(false, false, false, 0), [], {}, map[])
  }
}
