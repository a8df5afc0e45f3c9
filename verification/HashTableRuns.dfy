/**
  What holds of every run of the resizing hash table.
 */
module HashTableRuns {
  import opened Common
  import opened Geometry
  import opened HashTable
  import opened HashTableInv
  import opened HashTableSteps
  import opened HashTableData
  import opened HashTableClaims
  import opened HashTableArrays

  // ---------------------------------------------------------------- every step

  lemma LockingStepEffect(s: State, t: nat)
    requires Threads(s) && Locks(s) && LogsOk(s) && StepEnabled(s, t) && !Plain(s, s.threads[t])
    requires s.threads[t].LockingOwn? || s.threads[t].Locking? || s.threads[t].Releasing? || s.threads[t].Leaving?
    ensures LockEffect(s, Stepped(s, t), t)
  {
    match s.threads[t]
    case LockingOwn(_, _, _) => LockOwnEffect(s, t);
    case Locking(_, _) => LockCurrentEffect(s, t);
    case Releasing(_, _, _, _, _, _, _, _) => ReleasingEffect(s, t);
    case Leaving(_, _, _) => LeaveEffect(s, t);
  }

  lemma LockingStepKeeps(s: State, t: nat)
    requires Inv(s) && LogsOk(s) && StepEnabled(s, t) && !Plain(s, s.threads[t])
    requires s.threads[t].LockingOwn? || s.threads[t].Locking? || s.threads[t].Releasing? || s.threads[t].Leaving?
    ensures Inv(Stepped(s, t))
  {
    LockingStepEffect(s, t);
    LockEffectKeeps(s, Stepped(s, t), t);
  }

  lemma WalkKeeps(s: State, t: nat)
    requires Inv(s) && LogsOk(s) && StepEnabled(s, t) && !Plain(s, s.threads[t]) && s.threads[t].Walking?
    ensures Inv(Stepped(s, t))
  {
    var pc := s.threads[t];
    if pc.i < RangeEnd(pc.start, NumBuckets(s, pc.o)) {
      LockWalkedEffect(s, t);
      LockEffectKeeps(s, Stepped(s, t), t);
    } else {
      FinishKeeps(s, t, Stepped(s, t));
    }
  }

  lemma ClaimingStepKeeps(s: State, t: nat)
    requires Inv(s) && LogsOk(s) && StepEnabled(s, t) && !Plain(s, s.threads[t])
    requires s.threads[t].Claiming? || s.threads[t].RollingBack? || s.threads[t].Dropping?
    ensures Inv(Stepped(s, t))
  {
    match s.threads[t]
    case Claiming(_, _, _) => ClaimKeeps(s, t, Stepped(s, t));
    case RollingBack(_, _, _, _) => RollBackKeeps(s, t, Stepped(s, t));
    case Dropping(_, _, _) => DropKeeps(s, t, Stepped(s, t));
  }

  lemma ResizingStepKeeps(s: State, t: nat)
    requires Inv(s) && LogsOk(s) && StepEnabled(s, t) && !Plain(s, s.threads[t])
    requires s.threads[t].Tagging? || s.threads[t].Allocating?
    ensures Inv(Stepped(s, t))
  {
    if s.threads[t].Tagging? { TagKeeps(s, t); } else { GiveUpKeeps(s, t); }
  }

  lemma AccessStepKeeps(s: State, t: nat)
    requires Inv(s) && LogsOk(s) && StepEnabled(s, t) && s.threads[t].Accessing?
    ensures Inv(Stepped(s, t)) && Stepped(s, t).model == Outcome(s.model, s.threads[t].op)
  {
    var pc := s.threads[t];
    AccessKeeps(s, t, LocOf(s, pc.a, pc.op.k));
    AccessModel(s, t);
  }

  lemma StepKeeps(s: State, t: nat)
    requires Inv(s) && LogsOk(s) && StepEnabled(s, t)
    ensures Inv(Stepped(s, t))
  {
    if Plain(s, s.threads[t]) {
      PlainKeeps(s, t);
    } else {
      match s.threads[t]
      case Claiming(_, _, _) => ClaimingStepKeeps(s, t);
      case RollingBack(_, _, _, _) => ClaimingStepKeeps(s, t);
      case Dropping(_, _, _) => ClaimingStepKeeps(s, t);
      case Walking(_, _, _, _, _) => WalkKeeps(s, t);
      case Moving(_, _, _, _, _, _) => KillKeeps(s, t);
      case Accessing(_, _) => AccessStepKeeps(s, t);
      case Tagging(_) => ResizingStepKeeps(s, t);
      case Allocating(_) => ResizingStepKeeps(s, t);
      case _ => LockingStepKeeps(s, t);
    }
  }

  lemma InvKept(s: State, a: Action)
    requires Inv(s) && Enabled(s, a)
    ensures Inv(Apply(s, a))
  {
    match a
    case Begin(t, op) => BeginKeeps(s, t, Starting(op));
    case BeginResize(t) => BeginKeeps(s, t, Resizing(s.current));
    case Step(t) => StepKeeps(s, t);
    case Move(t, k) => if Beyond(s, s.threads[t], k) { LockTargetKeeps(s, t, k); } else { RelocateKeeps(s, t, k); }
    case Fail(t) => FailKeeps(s, t);
    case FailMove(t, k) => FailMoveKeeps(s, t, k);
    case Allocate(t, n, log) => AllocateKeeps(s, t, n, log);
  }

  // ---------------------------------------------------------------- one map

  /** The operation that uses its bucket in the step, if it is such a step. */
  function Used(s: State, a: Action): Option<Op> {
    if a.Step? && a.t in s.threads && s.threads[a.t].Accessing? then Some(s.threads[a.t].op) else None
  }

  lemma OtherStepModel(s: State, t: nat)
    requires LogsOk(s) && StepEnabled(s, t) && !s.threads[t].Accessing?
    ensures Stepped(s, t).model == s.model
  {
    var pc := s.threads[t];
    if Plain(s, pc) { assert Stepped(s, t) == WithPc(s, t, NextPc(s, pc)); }
  }

  lemma OtherActionModel(s: State, a: Action)
    requires LogsOk(s) && Enabled(s, a) && !a.Step?
    ensures Apply(s, a).model == s.model
  {
  }

  /** Moving, killing, claiming, resizing and dropping leave the map as it is. */
  lemma OnlyUsesChangeTheMap(s: State, a: Action)
    requires Inv(s) && Enabled(s, a)
    ensures Apply(s, a).model == match Used(s, a) case Some(op) => Outcome(s.model, op) case None => s.model
  {
    if a.Step? {
      if s.threads[a.t].Accessing? { AccessStepKeeps(s, a.t); } else { OtherStepModel(s, a.t); }
    } else {
      OtherActionModel(s, a);
    }
  }

  /** `acts` takes `s` to `t`. */
  ghost predicate Executes(s: State, acts: seq<Action>, t: State)
    decreases |acts|
  {
    if acts == [] then s == t else Enabled(s, acts[0]) && Executes(Apply(s, acts[0]), acts[1..], t)
  }

  /** The operations that used their bucket, in the order in which they did so. */
  ghost function History(s: State, acts: seq<Action>): seq<Op>
    decreases |acts|
  {
    if acts == [] || !Enabled(s, acts[0]) then [] else
    (match Used(s, acts[0]) case Some(op) => [op] case None => []) + History(Apply(s, acts[0]), acts[1..])
  }

  /** The operations carried out one after the other. */
  ghost function Outcomes(model: map<Key, Val>, ops: seq<Op>): map<Key, Val>
    decreases |ops|
  {
    if ops == [] then model else Outcomes(Outcome(model, ops[0]), ops[1..])
  }

  /** What a map holds for the key of an operation. */
  function Answer(m: map<Key, Val>, op: Op): Option<Val> {
    if op.k in m then Some(m[op.k]) else None
  }

  /**
    What the operation that uses its bucket in the step finds there: the value that a look-up or a
    removal returns, and that makes an insertion fail.
   */
  function Found(s: State, a: Action): Option<Val>
    requires Enabled(s, a) && Used(s, a).Some?
  {
    Answer(Content(s, LocOf(s, s.threads[a.t].a, s.threads[a.t].op.k)), s.threads[a.t].op)
  }

  /** What the operations of the history found in their buckets. */
  ghost function Answers(s: State, acts: seq<Action>): seq<Option<Val>>
    decreases |acts|
  {
    if acts == [] || !Enabled(s, acts[0]) then [] else
    (if Used(s, acts[0]).Some? then [Found(s, acts[0])] else []) + Answers(Apply(s, acts[0]), acts[1..])
  }

  /** What operations carried out one after the other find in the map. */
  ghost function Replies(model: map<Key, Val>, ops: seq<Op>): seq<Option<Val>>
    decreases |ops|
  {
    if ops == [] then [] else [Answer(model, ops[0])] + Replies(Outcome(model, ops[0]), ops[1..])
  }

  lemma FoundIsAnswer(s: State, a: Action)
    requires Inv(s) && Enabled(s, a) && Used(s, a).Some?
    ensures Found(s, a) == Answer(s.model, Used(s, a).value)
  {
    AccessSeesModel(s, a.t);
  }

  lemma {:induction false} RunsKeepInv(s: State, acts: seq<Action>, t: State)
    requires Inv(s) && Executes(s, acts, t)
    ensures Inv(t) && t.model == Outcomes(s.model, History(s, acts))
    ensures Answers(s, acts) == Replies(s.model, History(s, acts))
    decreases |acts|
  {
    if acts != [] {
      InvKept(s, acts[0]);
      OnlyUsesChangeTheMap(s, acts[0]);
      RunsKeepInv(Apply(s, acts[0]), acts[1..], t);
      var rest := History(Apply(s, acts[0]), acts[1..]);
      if Used(s, acts[0]).Some? {
        FoundIsAnswer(s, acts[0]);
        assert History(s, acts)[0] == Used(s, acts[0]).value && History(s, acts)[1..] == rest;
      } else {
        assert History(s, acts) == rest;
        assert Answers(s, acts) == Answers(Apply(s, acts[0]), acts[1..]);
      }
    }
  }

  /** What every reachable state keeps. */
  lemma Reached(log: nat, acts: seq<Action>, s: State)
    requires log <= BITS && Executes(Initial(log), acts, s)
    ensures Inv(s)
  {
    InitialInv(log);
    RunsKeepInv(Initial(log), acts, s);
  }

  /**
    Whatever operations, relocations, failures and resizes are interleaved, the buckets in use
    store the outcome of the operations carried out one after the other, and every operation has
    found what it would have found then.
   */
  lemma TableIsOneMap(log: nat, acts: seq<Action>, t: State, k: Key)
    requires log <= BITS && Executes(Initial(log), acts, t)
    ensures Inv(t)
    ensures var m := Outcomes(map[], History(Initial(log), acts));
            Lookup(t, k) == if k in m then Some(m[k]) else None
    ensures Answers(Initial(log), acts) == Replies(map[], History(Initial(log), acts))
  {
    InitialInv(log);
    RunsKeepInv(Initial(log), acts, t);
    assert Lookup(t, k) == ModelLookup(t, k);
  }

  /** No key is in two places, and what is stored is in a bucket that is in use. */
  lemma EachKeyOnce(log: nat, acts: seq<Action>, s: State, k: Key, l: Loc, m: Loc)
    requires log <= BITS && Executes(Initial(log), acts, s)
    requires k in Content(s, l) && k in Content(s, m)
    ensures l == m && Shape(s)
    ensures l !in s.killed && (l.arr == s.current || Prior(s) == Some(l.arr))
  {
    InUse(log, acts, s, k, l);
    InUse(log, acts, s, k, m);
  }

  /** What is stored is in the bucket that its hash selects, and the bucket is in use. */
  lemma InUse(log: nat, acts: seq<Action>, s: State, k: Key, l: Loc)
    requires log <= BITS && Executes(Initial(log), acts, s) && k in Content(s, l)
    ensures Inv(s) && l !in s.killed && (l.arr == s.current || Prior(s) == Some(l.arr))
    ensures l.arr in s.arrays && s.arrays[l.arr].log <= BITS && l == LocOf(s, l.arr, k)
    ensures l.index < NumBuckets(s, l.arr)
  {
    Reached(log, acts, s);
    IndexInRange(s.arrays[l.arr].log, k.hash);
  }

  // ---------------------------------------------------------------- safe use of the buckets

  lemma AccessedAfterKill(s: State, t: nat)
    requires Inv(s) && t in s.threads && s.threads[t].Accessing?
    ensures var pc := s.threads[t];
            && pc.a in s.arrays && s.arrays[pc.a].log <= BITS
            && (s.arrays[pc.a].from.Some? ==>
                  && s.arrays[pc.a].from.value in s.arrays && s.arrays[s.arrays[pc.a].from.value].log <= BITS
                  && LocOf(s, s.arrays[pc.a].from.value, pc.op.k) in s.killed)
  {
    assert PcOk(s, s.threads[t]);
  }

  /** A bucket of an array is only used once the bucket it replaces has been killed. */
  lemma UsedAfterKill(log: nat, acts: seq<Action>, s: State, t: nat)
    requires log <= BITS && Executes(Initial(log), acts, s) && t in s.threads && s.threads[t].Accessing?
    ensures var pc := s.threads[t];
            && pc.a in s.arrays && s.arrays[pc.a].log <= BITS
            && (s.arrays[pc.a].from.Some? ==>
                  && s.arrays[pc.a].from.value in s.arrays && s.arrays[s.arrays[pc.a].from.value].log <= BITS
                  && LocOf(s, s.arrays[pc.a].from.value, pc.op.k) in s.killed)
  {
    Reached(log, acts, s);
    AccessedAfterKill(s, t);
  }

  /** The target bucket of a key in a bucket that is being moved. */
  lemma TargetInRange(s: State, t: nat, k: Key)
    requires Inv(s) && t in s.threads && s.threads[t].Moving?
    requires var pc := s.threads[t];
             pc.a in s.arrays && pc.o in s.arrays && k in Content(s, Loc(pc.o, pc.j)) && Beyond(s, pc, k)
    ensures var pc := s.threads[t]; var l := NextTarget(s, pc);
            && l !in s.killed && l.arr == s.current && l.index < NumBuckets(s, s.current)
            && pc.held < BUCKET_LEN
  {
    var pc := s.threads[t];
    assert PcOk(s, pc) && ArrayOk(s, pc.a);
    AliveIsAttached(s, pc.a, pc.o, pc.j);
    assert Loc(pc.o, pc.j) == LocOf(s, pc.o, k);
    EntryStaysInSpread(s.arrays[pc.o].log, s.arrays[pc.a].log, k.hash);
    SpreadInRange(s.arrays[pc.o].log, s.arrays[pc.a].log, pc.j);
    SpreadAtMostBucketLen(s.arrays[pc.o].log, s.arrays[pc.a].log);
  }

  /**
    Whenever a thread that moves a bucket needs another target bucket, be it free or locked, that
    bucket exists and has not been killed, and there is room for its lock among the 32 target locks.
   */
  lemma TargetCanBeLocked(log: nat, acts: seq<Action>, s: State, t: nat, k: Key)
    requires log <= BITS && Executes(Initial(log), acts, s) && t in s.threads && s.threads[t].Moving?
    ensures var pc := s.threads[t];
            && LogsOk(s) && pc.a in s.arrays && pc.o in s.arrays
            && (k in Content(s, Loc(pc.o, pc.j)) && Beyond(s, pc, k) ==>
                  var l := NextTarget(s, pc);
                  && l !in s.killed && l.arr == s.current && l.index < NumBuckets(s, s.current)
                  && pc.held < BUCKET_LEN)
  {
    Reached(log, acts, s);
    var pc := s.threads[t];
    assert PcOk(s, pc);
    LogsAreOk(s);
    if k in Content(s, Loc(pc.o, pc.j)) && Beyond(s, pc, k) { TargetInRange(s, t, k); }
  }

  lemma LogsAreOk(s: State)
    requires Inv(s)
    ensures LogsOk(s)
  {
    forall x | x in s.arrays ensures s.arrays[x].log <= BITS { assert ArrayOk(s, x); }
  }

  /** A bucket that is not killed belongs to the current array or to the one attached to it. */
  lemma AliveBucketsAreAttached(log: nat, acts: seq<Action>, s: State, a: nat, o: nat, j: nat)
    requires log <= BITS && Executes(Initial(log), acts, s)
    requires a in s.arrays && s.arrays[a].from == Some(o)
    ensures Shape(s) && o in s.arrays
    ensures j < NumBuckets(s, o) && Loc(o, j) !in s.killed ==> a == s.current && Prior(s) == Some(o)
    ensures s.arrays[a].prior.None? ==> AllKilled(s, o)
  {
    Reached(log, acts, s);
    assert ArrayOk(s, a);
    if s.arrays[a].prior.None? {
      DetachedIsKilled(s, a, o);
    }
    if j < NumBuckets(s, o) && Loc(o, j) !in s.killed {
      AliveIsAttached(s, a, o, j);
    }
  }

  lemma MoverCanGoOn(s: State, t: nat)
    requires LogsOk(s) && t in s.threads && s.threads[t].Moving?
    requires s.threads[t].a in s.arrays && s.threads[t].o in s.arrays
    ensures Enabled(s, Step(t)) || exists k :: Enabled(s, Move(t, k)) || Enabled(s, FailMove(t, k))
  {
    var l := Loc(s.threads[t].o, s.threads[t].j);
    if Content(s, l) == map[] {
      assert StepEnabled(s, t);
    } else {
      var k :| k in Content(s, l);
      assert Enabled(s, Move(t, k)) || Enabled(s, FailMove(t, k));
    }
  }

  lemma LockerCanGoOn(s: State, t: nat)
    requires LogsOk(s) && t in s.threads && PcOk(s, s.threads[t])
    requires s.threads[t].Walking? || s.threads[t].LockingOwn? || s.threads[t].Locking?
    requires s.threads[t].Walking? ==> s.threads[t].o in s.arrays && s.arrays[s.threads[t].o].word > 0
    ensures Enabled(s, Step(t)) || Enabled(s, Fail(t))
  {
    assert StepEnabled(s, t) || WantedLock(s, s.threads[t]).Some?;
  }

  lemma OtherCanGoOn(s: State, t: nat)
    requires LogsOk(s) && t in s.threads && PcOk(s, s.threads[t])
    requires !s.threads[t].Resting? && !s.threads[t].Moving?
    requires !s.threads[t].Walking? && !s.threads[t].LockingOwn? && !s.threads[t].Locking?
    requires s.threads[t].RollingBack? ==>
               s.threads[t].o in s.arrays && WordRolledBack(s.arrays[s.threads[t].o].word, s.threads[t].start) >= 0
    ensures Enabled(s, Step(t))
  {
  }

  /** Every thread with work to do can do its next step, or its attempt to lock a bucket fails. */
  lemma NeverBlocked(log: nat, acts: seq<Action>, s: State, t: nat)
    requires log <= BITS && Executes(Initial(log), acts, s) && t in s.threads && !s.threads[t].Resting?
    ensures || Enabled(s, Step(t)) || Enabled(s, Fail(t))
            || exists k :: Enabled(s, Move(t, k)) || Enabled(s, FailMove(t, k))
  {
    Reached(log, acts, s);
    LogsAreOk(s);
    var pc := s.threads[t];
    assert PcOk(s, pc);
    WordNeverUnderflows(s, t);
    if pc.Moving? {
      MoverCanGoOn(s, t);
    } else if pc.Walking? || pc.LockingOwn? || pc.Locking? {
      LockerCanGoOn(s, t);
    } else {
      OtherCanGoOn(s, t);
    }
  }

  // ---------------------------------------------------------------- dropping the old array

  /** Whoever drops the old array finds all its buckets killed and claimed, and no claim left. */
  lemma DropsWhenDone(log: nat, acts: seq<Action>, s: State, t: nat)
    requires log <= BITS && Executes(Initial(log), acts, s) && t in s.threads && s.threads[t].Dropping?
    ensures Inv(s)
    ensures var pc := s.threads[t];
            && pc.a == s.current && Prior(s) == Some(pc.o) && pc.o in s.arrays && AllKilled(s, pc.o)
            && Claimants(s, pc.o) == {}
            && s.arrays[pc.o].word == (if NumBuckets(s, pc.o) < BUCKET_LEN then BUCKET_LEN else NumBuckets(s, pc.o))
  {
    Reached(log, acts, s);
    var pc := s.threads[t];
    assert PcOk(s, pc) && ArrayOk(s, pc.a) && WordOk(s, pc.o);
    LargeIsMultiple(s.arrays[pc.o].log);
  }

  /** The reference count is the number of claims, and what has been passed is killed or claimed. */
  lemma WordCountsClaims(log: nat, acts: seq<Action>, s: State, o: nat, i: nat)
    requires log <= BITS && Executes(Initial(log), acts, s) && o in s.arrays
    ensures Inv(s)
    ensures |Claimants(s, o)| == Refs(s.arrays[o].word)
    ensures i < Next(s.arrays[o].word) && i < NumBuckets(s, o) ==>
              Loc(o, i) in s.killed
              || exists t :: t in Claimants(s, o) && ClaimStart(s.threads[t]) <= i < ClaimStart(s.threads[t]) + BUCKET_LEN
  {
    Reached(log, acts, s);
    assert WordOk(s, o);
    if i < Next(s.arrays[o].word) && i < NumBuckets(s, o) && Loc(o, i) !in s.killed {
      var t :| t in s.threads && Covers(s.threads[t], o, i);
      assert t in Claimants(s, o);
    }
  }

  predicate DropsNow(s: State, a: nat, act: Action) {
    act.Step? && act.t in s.threads && s.threads[act.t].Dropping? && s.threads[act.t].a == a
  }

  /** How often in a run the old array of `a` is dropped. */
  ghost function Drops(s: State, acts: seq<Action>, a: nat): nat
    decreases |acts|
  {
    if acts == [] || !Enabled(s, acts[0]) then 0 else
    (if DropsNow(s, a, acts[0]) then 1 else 0) + Drops(Apply(s, acts[0]), acts[1..], a)
  }

  ghost predicate ChangesArrays(pc: Pc) {
    pc.Claiming? || pc.Walking? || pc.RollingBack? || pc.Dropping?
  }

  lemma ArraysStay(s: State, t: nat)
    requires LogsOk(s) && StepEnabled(s, t) && !ChangesArrays(s.threads[t])
    ensures Stepped(s, t).arrays == s.arrays
  {
    var pc := s.threads[t];
    if Plain(s, pc) {
    } else if pc.Accessing? {
      assert Stepped(s, t) == Accessed(s, t, LocOf(s, pc.a, pc.op.k));
    }
  }

  lemma StepArrays(s: State, t: nat, a: nat)
    requires LogsOk(s) && StepEnabled(s, t) && a in s.arrays
    ensures a in Stepped(s, t).arrays
    ensures Stepped(s, t).arrays[a].prior ==
            if DropsNow(s, a, Step(t)) then None else s.arrays[a].prior
  {
    if !ChangesArrays(s.threads[t]) { ArraysStay(s, t); }
  }

  lemma DetachedStays(s: State, act: Action, a: nat)
    requires Inv(s) && Enabled(s, act) && a in s.arrays
    ensures a in Apply(s, act).arrays
    ensures s.arrays[a].prior.None? || DropsNow(s, a, act) ==> Apply(s, act).arrays[a].prior.None?
    ensures s.arrays[a].prior.None? ==> !DropsNow(s, a, act)
  {
    if act.Step? {
      StepArrays(s, act.t, a);
      assert PcOk(s, s.threads[act.t]);
    }
  }

  /** The old array of an array is dropped once at most. */
  lemma {:induction false} DroppedAtMostOnce(s: State, acts: seq<Action>, t: State, a: nat)
    requires Inv(s) && Executes(s, acts, t) && a in s.arrays
    ensures Drops(s, acts, a) <= if s.arrays[a].prior.Some? then 1 else 0
    decreases |acts|
  {
    if acts != [] {
      InvKept(s, acts[0]);
      DetachedStays(s, acts[0], a);
      DroppedAtMostOnce(Apply(s, acts[0]), acts[1..], t, a);
    }
  }
}
