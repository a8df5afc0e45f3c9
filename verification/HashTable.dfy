/**
  The hash table while it is being resized: an old and a current bucket array, relocation of
  buckets by claimed ranges and by single operations, and the disposal of the old array.

  The table is of the SEQUENTIAL type. Every atomic access, and every access to a locked bucket, is
  one step of one thread. An attempt to lock a bucket that another thread holds either waits (the
  step is not enabled) or fails (`Fail`, `FailMove`), as the synchronous and the asynchronous
  operations do.
 */
module HashTable {
  import opened Common
  import opened Geometry

  datatype Key = Key(id: nat, hash: Hash)
  type Val = nat

  /** Bucket `index` of bucket array `arr`. */
  datatype Loc = Loc(arr: nat, index: nat)

  datatype Op = Insert(k: Key, v: Val) | Get(k: Key) | Remove(k: Key)

  /** `Claim(start)`: the thread has claimed the range of 32 buckets from `start`. */
  datatype Claim = Unclaimed | Claimed(start: nat)

  datatype Array = Array(
    log: nat,              // `2^log` buckets
    prior: Option<nat>,    // `old_array`
    word: nat,             // `rehashing_metadata`: index and reference count in one word
    from: Option<nat>)     // history: the array this one was created to replace

  /** What the last operation of a thread has returned: `found` is what its key was bound to. */
  datatype Result = Nothing | GivenUp(op: Op) | Answered(op: Op, found: Option<Val>)

  /** What a thread does next, with the values it has loaded. */
  datatype Pc =
    | Resting(result: Result)
    | Starting(op: Op)                                     // load the bucket array
    | Entering(op: Op, a: nat)                             // load its old array
    | Rehashing(op: Op, a: nat, o: nat)                    // load the old array once more
    | Claiming(op: Op, a: nat, o: nat)                     // advance the word of the old array
    | Walking(op: Op, a: nat, o: nat, start: nat, i: nat)  // lock old bucket `i` of its range
    | Moving(op: Op, a: nat, o: nat, j: nat, held: nat, claim: Claim)
    | Releasing(op: Op, a: nat, o: nat, j: nat, lo: nat, hi: nat, claim: Claim, done: bool)
    | RollingBack(op: Op, a: nat, o: nat, start: nat)      // give the claim back
    | Dropping(op: Op, a: nat, o: nat)                     // drop the old array
    | Settling(op: Op, a: nat, o: nat)                     // is there still an old array?
    | LockingOwn(op: Op, a: nat, o: nat)                   // lock the old bucket of the key
    | Locking(op: Op, a: nat)                              // lock the bucket of the key
    | Accessing(op: Op, a: nat)                            // use the locked bucket
    | Leaving(op: Op, a: nat, found: Option<Val>)          // unlock it
    | Rechecking(op: Op, a: nat)                           // has the bucket array been replaced?
    | Resizing(a: nat)                                     // does the array have an old array?
    | Tagging(a: nat)                                      // tag the pointer to the array
    | Allocating(a: nat)                                   // put a new array in place, or give up

  datatype State = State(
    arrays: map<nat, Array>,
    current: nat,
    resizer: Option<nat>,              // who has tagged the pointer to the current array
    killed: set<Loc>,
    locks: map<Loc, nat>,              // who holds the lock of a bucket
    content: map<Loc, map<Key, Val>>,
    threads: map<nat, Pc>,
    model: map<Key, Val>)              // history: what inserting and removing amount to

  datatype Action =
    | Begin(t: nat, op: Op)
    | BeginResize(t: nat)
    | Step(t: nat)
    | Move(t: nat, k: Key)             // one iteration of the loop in `relocate_bucket`
    | Fail(t: nat)                     // an attempt to lock a bucket fails
    | FailMove(t: nat, k: Key)         // an attempt to lock a target bucket fails
    | Allocate(t: nat, n: nat, log: nat)

  // ---------------------------------------------------------------- the claim word

  function Refs(word: nat): nat { word % BUCKET_LEN }

  function Next(word: nat): nat { word - word % BUCKET_LEN }

  function NumBuckets(s: State, x: nat): nat
    requires x in s.arrays
  {
    Pow2(s.arrays[x].log)
  }

  /** A range can be claimed unless all have been claimed or 31 claims are outstanding. */
  predicate Claimable(word: nat, buckets: nat) {
    word < buckets && Refs(word) != BUCKET_LEN - 1
  }

  function WordClaimed(word: nat): nat { word + BUCKET_LEN + 1 }

  /** The word after a claim of the range from `start` has failed. */
  function WordRolledBack(word: nat, start: nat): int {
    if word <= start then word - 1 else start + Refs(word) - 1
  }

  function RangeEnd(start: nat, buckets: nat): nat {
    if start + BUCKET_LEN < buckets then start + BUCKET_LEN else buckets
  }

  // ---------------------------------------------------------------- buckets

  function LocOf(s: State, x: nat, k: Key): Loc
    requires x in s.arrays && s.arrays[x].log <= BITS
  {
    Loc(x, Index(s.arrays[x].log, k.hash))
  }

  function Content(s: State, l: Loc): map<Key, Val> {
    if l in s.content then s.content[l] else map[]
  }

  function Free(s: State, l: Loc): bool { l !in s.locks }

  /** The first target of old bucket `j`, and how far from it the bucket of `k` is. */
  function Target(s: State, a: nat, o: nat, j: nat): nat
    requires a in s.arrays && o in s.arrays
  {
    TargetIndex(s.arrays[o].log, s.arrays[a].log, j)
  }

  function WithPc(s: State, t: nat, pc: Pc): State {
    s.(threads := s.threads[t := pc])
  }

  function WithWord(s: State, x: nat, word: nat): State
    requires x in s.arrays
  {
    s.(arrays := s.arrays[x := s.arrays[x].(word := word)])
  }

  function Locked(s: State, l: Loc, t: nat): State {
    s.(locks := s.locks[l := t])
  }

  function Unlocked(s: State, l: Loc): State {
    s.(locks := s.locks - {l})
  }

  // ---------------------------------------------------------------- steps

  predicate LogsOk(s: State) {
    forall x :: x in s.arrays ==> s.arrays[x].log <= BITS
  }

  /** Whether a thread that wants to lock `l` need not wait: it gets the lock or finds it killed. */
  predicate Lockable(s: State, l: Loc) {
    l in s.killed || Free(s, l)
  }

  predicate StepEnabled(s: State, t: nat)
    requires LogsOk(s)
  {
    t in s.threads && match s.threads[t]
      case Resting(_) => false
      case Starting(_) => true
      case Entering(_, a) => a in s.arrays
      case Rehashing(_, a, _) => a in s.arrays
      case Claiming(_, _, o) => o in s.arrays
      case Walking(_, _, o, start, i) =>
        o in s.arrays && (i < RangeEnd(start, NumBuckets(s, o)) ==> Lockable(s, Loc(o, i)))
        && s.arrays[o].word > 0
      case Moving(_, _, o, j, _, _) => Content(s, Loc(o, j)) == map[]
      case Releasing(_, a, o, _, _, _, _, _) => a in s.arrays && o in s.arrays
      case RollingBack(_, _, o, start) => o in s.arrays && WordRolledBack(s.arrays[o].word, start) >= 0
      case Dropping(_, a, _) => a in s.arrays
      case Settling(_, a, _) => a in s.arrays
      case LockingOwn(op, _, o) => o in s.arrays && Lockable(s, LocOf(s, o, op.k))
      case Locking(op, a) => a in s.arrays && Lockable(s, LocOf(s, a, op.k))
      case Accessing(_, a) => a in s.arrays
      case Leaving(_, a, _) => a in s.arrays
      case Rechecking(_, _) => true
      case Resizing(a) => a in s.arrays
      case Tagging(_) => true
      case Allocating(_) => true
  }

  predicate Enabled(s: State, a: Action) {
    && LogsOk(s)
    && match a
       case Begin(t, _) => t !in s.threads || s.threads[t].Resting?
       case BeginResize(t) => (t !in s.threads || s.threads[t].Resting?) && s.resizer.None?
       case Step(t) => StepEnabled(s, t)
       case Move(t, k) =>
         && t in s.threads && s.threads[t].Moving?
         && var pc := s.threads[t];
           && pc.a in s.arrays && pc.o in s.arrays && k in Content(s, Loc(pc.o, pc.j))
           && (Beyond(s, pc, k) ==> Free(s, NextTarget(s, pc)))
       case Fail(t) =>
         && t in s.threads && WantedLock(s, s.threads[t]).Some?
         && WantedLock(s, s.threads[t]).value !in s.killed
         && !Free(s, WantedLock(s, s.threads[t]).value)
       case FailMove(t, k) =>
         && t in s.threads && s.threads[t].Moving?
         && var pc := s.threads[t];
           && pc.a in s.arrays && pc.o in s.arrays && k in Content(s, Loc(pc.o, pc.j))
           && Beyond(s, pc, k) && !Free(s, NextTarget(s, pc))
       case Allocate(t, n, log) =>
         && t in s.threads && s.threads[t].Allocating? && n !in s.arrays && 1 <= log <= BITS
         && s.current in s.arrays && log <= s.arrays[s.current].log + 5
  }

  /** The bucket of `k` is not among the target buckets locked so far. */
  predicate Beyond(s: State, pc: Pc, k: Key)
    requires pc.Moving? && LogsOk(s) && pc.a in s.arrays && pc.o in s.arrays
  {
    Target(s, pc.a, pc.o, pc.j) + pc.held <= Index(s.arrays[pc.a].log, k.hash)
  }

  /** The target bucket that is locked next. */
  function NextTarget(s: State, pc: Pc): Loc
    requires pc.Moving? && pc.a in s.arrays && pc.o in s.arrays
  {
    Loc(pc.a, Target(s, pc.a, pc.o, pc.j) + pc.held)
  }

  /** The lock a thread asks for where failing is an option. */
  function WantedLock(s: State, pc: Pc): Option<Loc>
    requires LogsOk(s)
  {
    match pc
    case Walking(_, _, o, start, i) =>
      if o in s.arrays && i < RangeEnd(start, NumBuckets(s, o)) then Some(Loc(o, i)) else None
    case LockingOwn(op, _, o) => if o in s.arrays then Some(LocOf(s, o, op.k)) else None
    case Locking(op, a) => if a in s.arrays then Some(LocOf(s, a, op.k)) else None
    case _ => None
  }

  /** The success of a claim: its reference is dropped, and the last one to go drops the array. */
  function Finished(s: State, t: nat): State
    requires t in s.threads && s.threads[t].Walking? && s.threads[t].o in s.arrays
    requires s.arrays[s.threads[t].o].word > 0
  {
    var pc := s.threads[t];
    var word := s.arrays[pc.o].word - 1;
    WithPc(WithWord(s, pc.o, word), t,
      if Refs(word) == 0 && word >= NumBuckets(s, pc.o) then Dropping(pc.op, pc.a, pc.o)
      else Settling(pc.op, pc.a, pc.o))
  }

  /** The locked bucket `l` of the key is used. */
  function Accessed(s: State, t: nat, l: Loc): State
    requires t in s.threads && s.threads[t].Accessing?
  {
    var Accessing(op, a) := s.threads[t];
    var content := Content(s, l);
    var found := if op.k in content then Some(content[op.k]) else None;
    match op
    case Insert(k, v) =>
      if k in content then WithPc(s, t, Leaving(op, a, found))
      else WithPc(s.(content := s.content[l := content[k := v]], model := s.model[k := v]),
                  t, Leaving(op, a, found))
    case Get(_) => WithPc(s, t, Leaving(op, a, found))
    case Remove(k) =>
      if k !in content then WithPc(s, t, Leaving(op, a, found))
      else WithPc(s.(content := s.content[l := content - {k}], model := s.model - {k}),
                  t, Leaving(op, a, found))
  }

  /** Whether the step only loads, compares and looks. */
  predicate Plain(s: State, pc: Pc)
    requires LogsOk(s)
  {
    match pc
    case Starting(_) => true
    case Entering(_, a) => a in s.arrays
    case Rehashing(_, a, _) => a in s.arrays
    case Claiming(_, _, o) => o in s.arrays && !Claimable(s.arrays[o].word, NumBuckets(s, o))
    case Walking(_, _, o, start, i) =>
      o in s.arrays && i < RangeEnd(start, NumBuckets(s, o)) && Loc(o, i) in s.killed
    case Settling(_, a, _) => a in s.arrays
    case LockingOwn(op, _, o) => o in s.arrays && LocOf(s, o, op.k) in s.killed
    case Locking(op, a) => a in s.arrays && LocOf(s, a, op.k) in s.killed
    case Rechecking(_, _) => true
    case Resizing(a) => a in s.arrays
    case Tagging(a) => s.current != a || s.resizer.Some?
    case _ => false
  }

  /** Where a step that only loads, compares and looks leads. */
  function NextPc(s: State, pc: Pc): Pc
    requires LogsOk(s) && Plain(s, pc)
  {
    match pc
    case Starting(op) => Entering(op, s.current)
    case Entering(op, a) =>
      if s.arrays[a].prior.Some? then Rehashing(op, a, s.arrays[a].prior.value) else Locking(op, a)
    case Rehashing(op, a, o) => if s.arrays[a].prior.Some? then Claiming(op, a, o) else Locking(op, a)
    case Claiming(op, a, o) => Settling(op, a, o)
    case Walking(op, a, o, start, i) => Walking(op, a, o, start, i + 1)
    case Settling(op, a, o) => if s.arrays[a].prior.Some? then LockingOwn(op, a, o) else Locking(op, a)
    case LockingOwn(op, a, o) => Locking(op, a)
    case Locking(op, a) => Starting(op)
    case Rechecking(op, a) => if s.current == a then Resting(Answered(op, None)) else Starting(op)
    case Resizing(a) => if s.arrays[a].prior.Some? then Resting(Nothing) else Tagging(a)
    case Tagging(_) => Resting(Nothing)
  }

  /** Where a thread is once it has released all target buckets and then old bucket `pc.j`. */
  function Released(pc: Pc): Pc
    requires pc.Releasing?
  {
    match pc.claim
    case Claimed(start) =>
      if pc.done then Walking(pc.op, pc.a, pc.o, start, pc.j + 1) else RollingBack(pc.op, pc.a, pc.o, start)
    case Unclaimed => if pc.done then Locking(pc.op, pc.a) else Resting(GivenUp(pc.op))
  }

  function Stepped(s: State, t: nat): State
    requires LogsOk(s) && StepEnabled(s, t)
  {
    var pc := s.threads[t];
    if Plain(s, pc) then WithPc(s, t, NextPc(s, pc)) else
    match pc
    case Claiming(op, a, o) =>
      var word := s.arrays[o].word;
      WithPc(WithWord(s, o, WordClaimed(word)), t, Walking(op, a, o, Next(word), Next(word)))
    case Walking(op, a, o, start, i) =>
      if i >= RangeEnd(start, NumBuckets(s, o)) then Finished(s, t)
      else WithPc(Locked(s, Loc(o, i), t), t, Moving(op, a, o, i, 0, Claimed(start)))
    case Moving(op, a, o, j, held, claim) =>
      WithPc(s.(killed := s.killed + {Loc(o, j)}), t, Releasing(op, a, o, j, 0, held, claim, true))
    case Releasing(op, a, o, j, lo, hi, claim, done) =>
      if lo < hi then
        WithPc(Unlocked(s, Loc(a, Target(s, a, o, j) + lo)), t, pc.(lo := lo + 1))
      else
        WithPc(Unlocked(s, Loc(o, j)), t, Released(pc))
    case RollingBack(op, a, o, start) =>
      WithPc(WithWord(s, o, WordRolledBack(s.arrays[o].word, start)), t, Resting(GivenUp(op)))
    case Dropping(op, a, o) =>
      WithPc(s.(arrays := s.arrays[a := s.arrays[a].(prior := None)]), t, Settling(op, a, o))
    case LockingOwn(op, a, o) =>
      var l := LocOf(s, o, op.k);
      WithPc(Locked(s, l, t), t, Moving(op, a, o, l.index, 0, Unclaimed))
    case Locking(op, a) => WithPc(Locked(s, LocOf(s, a, op.k), t), t, Accessing(op, a))
    case Accessing(op, a) => Accessed(s, t, LocOf(s, a, op.k))
    case Leaving(op, a, found) =>
      // A look-up that finds nothing makes sure that the array has not been replaced.
      WithPc(Unlocked(s, LocOf(s, a, op.k)), t,
             if op.Get? && found.None? then Rechecking(op, a) else Resting(Answered(op, found)))
    case Tagging(a) => WithPc(s.(resizer := Some(t)), t, Allocating(a))
    case Allocating(a) => WithPc(s.(resizer := None), t, Resting(Nothing))
  }

  /** One entry is moved, or the next target bucket is locked for it. */
  function Moved(s: State, t: nat, k: Key): State
    requires Enabled(s, Move(t, k))
  {
    var pc := s.threads[t];
    if Beyond(s, pc, k) then
      WithPc(Locked(s, NextTarget(s, pc), t), t, pc.(held := pc.held + 1))
    else
      var from, to := Loc(pc.o, pc.j), LocOf(s, pc.a, k);
      s.(content := s.content[to := Content(s, to)[k := Content(s, from)[k]]][
           from := Content(s, from) - {k}])
  }

  function Failed(s: State, t: nat): State
    requires LogsOk(s) && t in s.threads
  {
    match s.threads[t]
    case Walking(op, a, o, start, _) => WithPc(s, t, RollingBack(op, a, o, start))
    case LockingOwn(op, _, _) => WithPc(s, t, Resting(GivenUp(op)))
    case Locking(op, _) => WithPc(s, t, Resting(GivenUp(op)))
    case _ => s
  }

  /** The current array becomes the old array of a new one. */
  function Allocated(s: State, t: nat, n: nat, log: nat): State {
    WithPc(s.(arrays := s.arrays[n := Array(log, Some(s.current), 0, Some(s.current))],
              current := n, resizer := None), t, Resting(Nothing))
  }

  function Apply(s: State, a: Action): State
    requires Enabled(s, a)
  {
    match a
    case Begin(t, op) => WithPc(s, t, Starting(op))
    case BeginResize(t) => WithPc(s, t, Resizing(s.current))
    case Step(t) => Stepped(s, t)
    case Move(t, k) => Moved(s, t, k)
    case Fail(t) => Failed(s, t)
    case FailMove(t, k) =>
      var pc := s.threads[t];
      WithPc(s, t, Releasing(pc.op, pc.a, pc.o, pc.j, 0, pc.held, pc.claim, false))
    case Allocate(t, n, log) => Allocated(s, t, n, log)
  }

  /** A table of one empty array. */
  function Initial(log: nat): State {
    State(map[0 := Array(log, None, 0, None)], 0, None, {}, map[], map[], map[], map[])
  }
}
