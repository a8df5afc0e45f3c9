/**
  An operation of the hash table that nobody interferes with comes to an end with an answer, whatever
  has to be relocated on its way.
 */
module HashTableAlone {
  import opened Common
  import opened Geometry
  import opened HashTable
  import opened HashTableInv
  import opened HashTableData
  import opened HashTableClaims
  import opened HashTableRuns
  import opened HashTableReturns

  /** Actions of thread `t` alone, none of which begins an operation, lead from `s` to `u`. */
  ghost predicate AloneReaches(s: State, t: nat, u: State) {
    exists acts :: Executes(s, acts, u) && Only(acts, t)
  }

  ghost predicate Only(acts: seq<Action>, t: nat) {
    forall i :: 0 <= i < |acts| ==> acts[i].t == t && (acts[i].Step? || acts[i].Move?)
  }

  lemma Stays(s: State, t: nat)
    ensures AloneReaches(s, t, s)
  {
    assert Executes(s, [], s) && Only([], t);
  }

  lemma GoesFirst(s: State, a: Action, u: State)
    requires Enabled(s, a) && (a.Step? || a.Move?) && AloneReaches(Apply(s, a), a.t, u)
    ensures AloneReaches(s, a.t, u)
  {
    var acts :| Executes(Apply(s, a), acts, u) && Only(acts, a.t);
    var all := [a] + acts;
    assert all[1..] == acts;
    assert forall i :: 0 < i < |all| ==> all[i] == acts[i - 1];
    assert Executes(s, all, u) && Only(all, a.t);
  }

  // ---------------------------------------------------------------- one action

  /** No bucket is locked by anybody else. */
  ghost predicate Mine(s: State, t: nat) {
    forall l :: l in s.locks ==> s.locks[l] == t
  }

  /** Some run leads to `s`. */
  ghost predicate Reachable(s: State) {
    exists log: nat, acts :: log <= BITS && Executes(Initial(log), acts, s)
  }

  ghost predicate Good(s: State, t: nat) {
    Reachable(s) && Mine(s, t) && t in s.threads
  }

  lemma GoodInv(s: State, t: nat)
    requires Good(s, t)
    ensures Inv(s) && LogsOk(s) && PcOk(s, s.threads[t])
  {
    var log: nat, acts :| log <= BITS && Executes(Initial(log), acts, s);
    Reached(log, acts, s);
    LogsAreOk(s);
  }

  lemma {:induction false} OneMoreAction(s: State, acts: seq<Action>, m: State, a: Action)
    requires Executes(s, acts, m) && Enabled(m, a)
    ensures Executes(s, acts + [a], Apply(m, a))
    decreases |acts|
  {
    if acts == [] {
      assert acts + [a] == [a] && [a][1..] == [];
      assert Executes(Apply(m, a), [], Apply(m, a));
    } else {
      OneMoreAction(Apply(s, acts[0]), acts[1..], m, a);
      assert (acts + [a])[1..] == acts[1..] + [a];
    }
  }

  lemma StaysReachable(s: State, a: Action)
    requires Reachable(s) && Enabled(s, a)
    ensures Reachable(Apply(s, a))
  {
    var log: nat, acts :| log <= BITS && Executes(Initial(log), acts, s);
    OneMoreAction(Initial(log), acts, s, a);
  }

  lemma MineKept(s: State, a: Action)
    requires Enabled(s, a) && (a.Step? || a.Move?) && Mine(s, a.t)
    ensures Mine(Apply(s, a), a.t) && Apply(s, a).current == s.current && a.t in Apply(s, a).threads
  {
    if a.Step? { MineKeptInStep(s, a.t); }
  }

  lemma MineKeptInStep(s: State, t: nat)
    requires LogsOk(s) && StepEnabled(s, t) && Mine(s, t)
    ensures Mine(Stepped(s, t), t) && Stepped(s, t).current == s.current && t in Stepped(s, t).threads
  {
    var pc := s.threads[t];
    if Plain(s, pc) {
    } else if pc.Accessing? {
      assert Stepped(s, t) == Accessed(s, t, LocOf(s, pc.a, pc.op.k));
    }
  }

  /** Thread `t` takes the action, and the state after it is as good. */
  lemma GoodAct(s: State, a: Action) returns (k: State)
    requires Good(s, a.t) && Enabled(s, a) && (a.Step? || a.Move?)
    ensures k == Apply(s, a) && Good(k, a.t) && k.current == s.current
    ensures forall u :: AloneReaches(k, a.t, u) ==> AloneReaches(s, a.t, u)
  {
    k := Apply(s, a);
    StaysReachable(s, a);
    MineKept(s, a);
    forall u | AloneReaches(k, a.t, u) ensures AloneReaches(s, a.t, u) { GoesFirst(s, a, u); }
  }

  /** What is not locked by the thread itself is free. */
  lemma FreeUnlessHeld(s: State, t: nat, l: Loc)
    requires Good(s, t) && !Holds(s, s.threads[t], l)
    ensures Free(s, l)
  {
    GoodInv(s, t);
  }

  // ---------------------------------------------------------------- relocating one bucket

  /** How many target buckets the thread has not locked yet. */
  ghost function Remaining(s: State, pc: Pc): int
    requires pc.Moving? && LogsOk(s) && pc.a in s.arrays && pc.o in s.arrays
  {
    NumBuckets(s, pc.a) - Target(s, pc.a, pc.o, pc.j) - pc.held
  }

  /** What the action does to the bucket: one target bucket more is locked, or one entry less is left. */
  lemma MoveEffect(s: State, t: nat, k: Key)
    requires Enabled(s, Move(t, k)) && s.threads[t].a != s.threads[t].o
    ensures var p := s.threads[t];
            var u := Apply(s, Move(t, k));
            && u.arrays == s.arrays && t in u.threads
            && (if Beyond(s, p, k) then u.threads[t] == p.(held := p.held + 1) && u.content == s.content
                else u.threads[t] == p && Content(u, Loc(p.o, p.j)) == Content(s, Loc(p.o, p.j)) - {k})
  {
  }

  lemma MoveIsFree(s: State, t: nat, k: Key)
    requires Good(s, t) && s.threads[t].Moving? && s.threads[t].o in s.arrays && s.threads[t].a in s.arrays
    requires LogsOk(s) && k in Content(s, Loc(s.threads[t].o, s.threads[t].j))
    ensures Enabled(s, Move(t, k))
    ensures Beyond(s, s.threads[t], k) ==> Remaining(s, s.threads[t]) > 0
  {
    GoodInv(s, t);
    if Beyond(s, s.threads[t], k) {
      TargetInRange(s, t, k);
      FreeUnlessHeld(s, t, NextTarget(s, s.threads[t]));
      IndexInRange(s.arrays[s.threads[t].a].log, k.hash);
    }
  }

  /** All entries of the bucket are relocated, and the bucket is killed. */
  lemma {:induction false} AloneMoves(s: State, t: nat, size: nat, left: nat) returns (k: State)
    requires Good(s, t) && s.threads[t].Moving? && LogsOk(s) && s.threads[t].a in s.arrays && s.threads[t].o in s.arrays
    requires size == |Content(s, Loc(s.threads[t].o, s.threads[t].j))| && Remaining(s, s.threads[t]) <= left
    ensures Good(k, t) && k.current == s.current && k.arrays == s.arrays
    ensures var p := s.threads[t]; exists hi :: k.threads[t] == Releasing(p.op, p.a, p.o, p.j, 0, hi, p.claim, true)
    ensures forall u :: AloneReaches(k, t, u) ==> AloneReaches(s, t, u)
    decreases size, left
  {
    var p := s.threads[t];
    assert p.a != p.o by { GoodInv(s, t); }
    var content := Content(s, Loc(p.o, p.j));
    if content == map[] {
      k := GoodAct(s, Step(t));
      assert k.threads[t] == Releasing(p.op, p.a, p.o, p.j, 0, p.held, p.claim, true);
    } else {
      var x :| x in content;
      MoveIsFree(s, t, x);
      MoveEffect(s, t, x);
      var m := GoodAct(s, Move(t, x));
      if Beyond(s, p, x) {
        k := AloneMoves(m, t, size, left - 1);
      } else {
        OneKeyLess(content, x);
        k := AloneMoves(m, t, size - 1, left);
      }
    }
  }

  lemma OneKeyLess(m: map<Key, Val>, k: Key)
    requires k in m
    ensures |m - {k}| == |m| - 1
  {
    assert m.Keys == (m - {k}).Keys + {k};
  }

  lemma ReleaseIsEnabled(s: State, t: nat)
    requires Good(s, t) && s.threads[t].Releasing?
    ensures Enabled(s, Step(t)) && s.threads[t].lo <= s.threads[t].hi
  {
    GoodInv(s, t);
  }

  lemma ReleaseEffect(s: State, t: nat)
    requires Enabled(s, Step(t)) && s.threads[t].Releasing?
    ensures var p, u := s.threads[t], Apply(s, Step(t));
            u.arrays == s.arrays && t in u.threads && u.threads[t] == if p.lo < p.hi then p.(lo := p.lo + 1) else Released(p)
  {
  }

  lemma ReleaseAct(s: State, t: nat, p: Pc) returns (k: State)
    requires Good(s, t) && s.threads[t] == p && p.Releasing?
    ensures Good(k, t) && k.current == s.current && k.arrays == s.arrays && p.lo <= p.hi
    ensures k.threads[t] == if p.lo < p.hi then p.(lo := p.lo + 1) else Released(p)
    ensures forall u :: AloneReaches(k, t, u) ==> AloneReaches(s, t, u)
  {
    ReleaseIsEnabled(s, t);
    ReleaseEffect(s, t);
    k := GoodAct(s, Step(t));
  }

  /** The target buckets and then the old one are unlocked. */
  lemma {:induction false} AloneReleases(s: State, t: nat, p: Pc) returns (k: State)
    requires Good(s, t) && s.threads[t] == p && p.Releasing?
    ensures Good(k, t) && k.current == s.current && k.arrays == s.arrays && k.threads[t] == Released(p)
    ensures forall u :: AloneReaches(k, t, u) ==> AloneReaches(s, t, u)
    decreases p.hi - p.lo
  {
    var m := ReleaseAct(s, t, p);
    if p.lo < p.hi { k := AloneReleases(m, t, p.(lo := p.lo + 1)); } else { k := m; }
  }

  lemma MovingIsLinked(s: State, t: nat)
    requires Good(s, t) && s.threads[t].Moving?
    ensures LogsOk(s) && s.threads[t].a in s.arrays && s.threads[t].o in s.arrays
  {
    GoodInv(s, t);
  }

  /** One bucket is relocated. */
  lemma AloneRelocates(s: State, t: nat, p: Pc) returns (k: State)
    requires Good(s, t) && s.threads[t] == p && p.Moving?
    ensures Good(k, t) && k.current == s.current && k.arrays == s.arrays
    ensures k.threads[t] == match p.claim
                            case Claimed(start) => Walking(p.op, p.a, p.o, start, p.j + 1)
                            case Unclaimed => Locking(p.op, p.a)
    ensures forall u :: AloneReaches(k, t, u) ==> AloneReaches(s, t, u)
  {
    MovingIsLinked(s, t);
    var left := Remaining(s, p);
    k := AloneMoves(s, t, |Content(s, Loc(p.o, p.j))|, if left < 0 then 0 else left);
    var hi :| k.threads[t] == Releasing(p.op, p.a, p.o, p.j, 0, hi, p.claim, true);
    k := AloneReleases(k, t, Releasing(p.op, p.a, p.o, p.j, 0, hi, p.claim, true));
  }

  // ---------------------------------------------------------------- a claimed range

  /** What the thread wants to lock it can lock. */
  lemma WantedIsFree(s: State, t: nat)
    requires Good(s, t) && (s.threads[t].Walking? || s.threads[t].LockingOwn? || s.threads[t].Locking?)
    ensures Enabled(s, Step(t))
  {
    GoodInv(s, t);
    WordNeverUnderflows(s, t);
    if WantedLock(s, s.threads[t]).Some? { FreeUnlessHeld(s, t, WantedLock(s, s.threads[t]).value); }
  }

  /** The next old bucket of the range: it has been killed already, or is relocated. */
  lemma AloneWalksOne(s: State, t: nat, p: Pc) returns (k: State)
    requires Good(s, t) && s.threads[t] == p && p.Walking? && p.o in s.arrays && p.i < RangeEnd(p.start, NumBuckets(s, p.o))
    ensures Good(k, t) && k.current == s.current && k.arrays == s.arrays && k.threads[t] == p.(i := p.i + 1)
    ensures forall u :: AloneReaches(k, t, u) ==> AloneReaches(s, t, u)
  {
    WantedIsFree(s, t);
    k := GoodAct(s, Step(t));
    if Loc(p.o, p.i) !in s.killed {
      k := AloneRelocates(k, t, Moving(p.op, p.a, p.o, p.i, 0, Claimed(p.start)));
    }
  }

  /** What a thread that has relocated its range leaves: the range is done, and the old array goes with the last one. */
  ghost predicate RangeDone(s: State, k: State, a: nat, o: nat, word: nat) {
    && a in s.arrays && a in k.arrays && o in s.arrays && o in k.arrays && k.arrays.Keys == s.arrays.Keys
    && NumBuckets(k, o) == NumBuckets(s, o) && k.arrays[o].word == word
    && (if Refs(word) == 0 && word >= NumBuckets(s, o) then k.arrays[a].prior.None? else k.arrays[a].prior == s.arrays[a].prior)
  }

  lemma AloneFinishes(s: State, t: nat, p: Pc) returns (k: State)
    requires Good(s, t) && s.threads[t] == p && p.Walking? && p.o in s.arrays && p.i >= RangeEnd(p.start, NumBuckets(s, p.o))
    requires s.arrays[p.o].word > 0
    ensures Good(k, t) && k.current == s.current && k.threads[t] == Settling(p.op, p.a, p.o)
    ensures RangeDone(s, k, p.a, p.o, s.arrays[p.o].word - 1)
    ensures forall u :: AloneReaches(k, t, u) ==> AloneReaches(s, t, u)
  {
    WantedIsFree(s, t);
    var m := GoodAct(s, Step(t));
    assert m == Finished(s, t);
    assert p.a in s.arrays && p.a != p.o by { GoodInv(s, t); }
    k := m;
    if m.threads[t].Dropping? { k := AloneDrops(m, t, p.op, p.a, p.o); }
  }

  lemma AloneDrops(s: State, t: nat, op: Op, a: nat, o: nat) returns (k: State)
    requires Good(s, t) && s.threads[t] == Dropping(op, a, o)
    ensures Good(k, t) && k.current == s.current && k.threads[t] == Settling(op, a, o)
    ensures a in s.arrays && k.arrays == s.arrays[a := s.arrays[a].(prior := None)]
    ensures forall u :: AloneReaches(k, t, u) ==> AloneReaches(s, t, u)
  {
    GoodInv(s, t);
    k := GoodAct(s, Step(t));
  }

  lemma {:induction false} AloneWalks(s: State, t: nat, p: Pc) returns (k: State)
    requires Good(s, t) && s.threads[t] == p && p.Walking? && p.o in s.arrays && s.arrays[p.o].word > 0
    ensures Good(k, t) && k.current == s.current && k.threads[t] == Settling(p.op, p.a, p.o)
    ensures RangeDone(s, k, p.a, p.o, s.arrays[p.o].word - 1)
    ensures forall u :: AloneReaches(k, t, u) ==> AloneReaches(s, t, u)
    decreases RangeEnd(p.start, NumBuckets(s, p.o)) - p.i
  {
    if p.i < RangeEnd(p.start, NumBuckets(s, p.o)) {
      var m := AloneWalksOne(s, t, p);
      k := AloneWalks(m, t, p.(i := p.i + 1));
    } else {
      k := AloneFinishes(s, t, p);
    }
  }

  // ---------------------------------------------------------------- the bucket of the key

  lemma AloneUses(s: State, t: nat, op: Op) returns (k: State)
    requires Good(s, t) && s.threads[t] == Locking(op, s.current)
    ensures AloneReaches(s, t, k) && Good(k, t) && k.current == s.current && k.arrays == s.arrays
    ensures k.threads[t].Resting? && k.threads[t].result.Answered?
  {
    GoodInv(s, t);
    WantedIsFree(s, t);
    var m := GoodAct(s, Step(t));
    assert m.threads[t] == Accessing(op, m.current);
    k := AloneLeaves(m, t, op);
  }

  lemma AloneAccesses(s: State, t: nat, op: Op) returns (k: State, found: Option<Val>)
    requires Good(s, t) && s.threads[t] == Accessing(op, s.current)
    ensures Good(k, t) && k.current == s.current && k.arrays == s.arrays && k.threads[t] == Leaving(op, s.current, found)
    ensures forall u :: AloneReaches(k, t, u) ==> AloneReaches(s, t, u)
  {
    GoodInv(s, t);
    k := GoodAct(s, Step(t));
    found := k.threads[t].found;
  }

  lemma AloneUnlocks(s: State, t: nat, op: Op, found: Option<Val>) returns (k: State)
    requires Good(s, t) && s.threads[t] == Leaving(op, s.current, found)
    ensures Good(k, t) && k.current == s.current && k.arrays == s.arrays
    ensures k.threads[t] == Rechecking(op, s.current) || k.threads[t] == Resting(Answered(op, found))
    ensures forall u :: AloneReaches(k, t, u) ==> AloneReaches(s, t, u)
  {
    GoodInv(s, t);
    k := GoodAct(s, Step(t));
  }

  lemma AloneRechecks(s: State, t: nat, op: Op) returns (k: State)
    requires Good(s, t) && s.threads[t] == Rechecking(op, s.current)
    ensures Good(k, t) && k.current == s.current && k.arrays == s.arrays && k.threads[t] == Resting(Answered(op, None))
    ensures forall u :: AloneReaches(k, t, u) ==> AloneReaches(s, t, u)
  {
    GoodInv(s, t);
    k := GoodAct(s, Step(t));
  }

  lemma AloneLeaves(s: State, t: nat, op: Op) returns (k: State)
    requires Good(s, t) && s.threads[t] == Accessing(op, s.current)
    ensures AloneReaches(s, t, k) && Good(k, t) && k.current == s.current && k.arrays == s.arrays
    ensures k.threads[t].Resting? && k.threads[t].result.Answered?
  {
    var m, found := AloneAccesses(s, t, op);
    k := AloneUnlocks(m, t, op, found);
    if k.threads[t].Rechecking? { k := AloneRechecks(k, t, op); }
    Stays(k, t);
  }

  /** The old bucket of the key is relocated, unless there is none or it has been. */
  lemma AloneSettles(s: State, t: nat, op: Op, o: nat) returns (k: State)
    requires Good(s, t) && s.threads[t] == Settling(op, s.current, o)
    ensures Good(k, t) && k.current == s.current && k.arrays == s.arrays && k.threads[t] == Locking(op, s.current)
    ensures forall u :: AloneReaches(k, t, u) ==> AloneReaches(s, t, u)
  {
    GoodInv(s, t);
    k := GoodAct(s, Step(t));
    if k.threads[t].LockingOwn? { k := AloneRelocatesOwn(k, t, op, o); }
  }

  lemma AloneRelocatesOwn(s: State, t: nat, op: Op, o: nat) returns (k: State)
    requires Good(s, t) && s.threads[t] == LockingOwn(op, s.current, o)
    ensures Good(k, t) && k.current == s.current && k.arrays == s.arrays && k.threads[t] == Locking(op, s.current)
    ensures forall u :: AloneReaches(k, t, u) ==> AloneReaches(s, t, u)
  {
    GoodInv(s, t);
    WantedIsFree(s, t);
    k := GoodAct(s, Step(t));
    if k.threads[t].Moving? { k := AloneRelocates(k, t, k.threads[t]); }
  }

  lemma AloneClaims(s: State, t: nat, op: Op, o: nat) returns (k: State)
    requires Good(s, t) && s.threads[t] == Claiming(op, s.current, o) && o in s.arrays
    ensures Good(k, t) && k.current == s.current && s.current in s.arrays && o != s.current
    ensures if Claimable(s.arrays[o].word, NumBuckets(s, o)) then
              k.arrays == s.arrays[o := s.arrays[o].(word := WordClaimed(s.arrays[o].word))]
              && k.threads[t] == Walking(op, s.current, o, Next(s.arrays[o].word), Next(s.arrays[o].word))
            else k.arrays == s.arrays && k.threads[t] == Settling(op, s.current, o)
    ensures forall u :: AloneReaches(k, t, u) ==> AloneReaches(s, t, u)
  {
    GoodInv(s, t);
    k := GoodAct(s, Step(t));
  }

  /** A range of the old array is claimed and relocated if one can be claimed. */
  lemma AloneRehashes(s: State, t: nat, op: Op, o: nat) returns (k: State)
    requires Good(s, t) && s.threads[t] == Claiming(op, s.current, o) && o in s.arrays
    ensures Good(k, t) && k.current == s.current && k.threads[t] == Settling(op, s.current, o)
    ensures if Claimable(s.arrays[o].word, NumBuckets(s, o)) then
              RangeDone(s, k, s.current, o, s.arrays[o].word + BUCKET_LEN)
            else k.arrays == s.arrays
    ensures forall u :: AloneReaches(k, t, u) ==> AloneReaches(s, t, u)
  {
    var m := AloneClaims(s, t, op, o);
    if m.threads[t].Walking? {
      k := AloneWalks(m, t, m.threads[t]);
    } else {
      k := m;
    }
  }

  /** What an operation does to the arrays: it relocates one range if there is one to be claimed. */
  ghost predicate Proceeds(s: State, k: State) {
    && s.current in s.arrays
    && match s.arrays[s.current].prior
       case None => k.arrays == s.arrays
       case Some(o) =>
         o in s.arrays
         && if Claimable(s.arrays[o].word, NumBuckets(s, o)) then
              RangeDone(s, k, s.current, o, s.arrays[o].word + BUCKET_LEN)
            else k.arrays == s.arrays
  }

  /** From the look at the bucket array to the bucket of the key. */
  lemma AloneEnters(s: State, t: nat, op: Op) returns (k: State)
    requires Good(s, t) && s.threads[t] == Entering(op, s.current)
    ensures Good(k, t) && k.current == s.current && k.threads[t] == Locking(op, s.current) && Proceeds(s, k)
    ensures forall u :: AloneReaches(k, t, u) ==> AloneReaches(s, t, u)
  {
    var m := AloneLooks(s, t, op);
    if m.threads[t].Claiming? {
      var o := m.threads[t].o;
      var n := AloneRehashes(m, t, op, o);
      k := AloneSettles(n, t, op, o);
    } else {
      k := m;
    }
  }

  /** The old array is looked for, and once more. */
  lemma AloneLooks(s: State, t: nat, op: Op) returns (k: State)
    requires Good(s, t) && s.threads[t] == Entering(op, s.current)
    ensures Good(k, t) && k.current == s.current && k.arrays == s.arrays && s.current in s.arrays
    ensures match s.arrays[s.current].prior
            case None => k.threads[t] == Locking(op, s.current)
            case Some(o) => o in s.arrays && k.threads[t] == Claiming(op, s.current, o)
    ensures forall u :: AloneReaches(k, t, u) ==> AloneReaches(s, t, u)
  {
    GoodInv(s, t);
    k := GoodAct(s, Step(t));
    if k.threads[t].Rehashing? { k := AloneLooksAgain(k, t, op, k.threads[t].o); }
  }

  lemma AloneLooksAgain(s: State, t: nat, op: Op, o: nat) returns (k: State)
    requires Good(s, t) && s.threads[t] == Rehashing(op, s.current, o)
    ensures Good(k, t) && k.current == s.current && k.arrays == s.arrays && s.current in s.arrays && o in s.arrays
    ensures s.arrays[s.current].prior.Some? ==> k.threads[t] == Claiming(op, s.current, o)
    ensures forall u :: AloneReaches(k, t, u) ==> AloneReaches(s, t, u)
  {
    GoodInv(s, t);
    k := GoodAct(s, Step(t));
  }

  lemma AloneStarts(s: State, t: nat, op: Op) returns (k: State)
    requires Reachable(s) && Enabled(s, Begin(t, op)) && s.locks == map[]
    ensures Good(k, t) && k.current == s.current && k.arrays == s.arrays && k.threads[t] == Entering(op, s.current)
    ensures forall u :: AloneReaches(k, t, u) ==> AloneReaches(Apply(s, Begin(t, op)), t, u)
  {
    StaysReachable(s, Begin(t, op));
    k := GoodAct(Apply(s, Begin(t, op)), Step(t));
  }

  lemma AloneOperates(s: State, t: nat, op: Op) returns (u: State)
    requires Reachable(s) && Enabled(s, Begin(t, op)) && s.locks == map[]
    ensures AloneReaches(Apply(s, Begin(t, op)), t, u) && Good(u, t) && u.current == s.current && Proceeds(s, u)
    ensures u.threads[t].Resting? && u.threads[t].result.Answered?
  {
    var m := AloneStarts(s, t, op);
    var n := AloneEnters(m, t, op);
    u := AloneUses(n, t, op);
  }

  /**
    Where nobody else has locked a bucket, an operation can be completed by its thread alone. It is
    answered, and it has claimed and relocated one range of the old array if there is one to be claimed.
   */
  lemma AloneAnswers(log: nat, before: seq<Action>, s: State, t: nat, op: Op)
    requires log <= BITS && Executes(Initial(log), before, s) && Enabled(s, Begin(t, op)) && s.locks == map[]
    ensures exists u :: AloneReaches(Apply(s, Begin(t, op)), t, u)
              && t in u.threads && u.threads[t].Resting? && u.threads[t].result.Answered? && Proceeds(s, u)
  {
    var u := AloneOperates(s, t, op);
  }

  // ---------------------------------------------------------------- the beginning of a resize

  lemma ThreeActions(s: State, a: Action, b: Action, c: Action)
    requires Enabled(s, a) && Enabled(Apply(s, a), b) && Enabled(Apply(Apply(s, a), b), c)
    ensures Executes(s, [a, b, c], Apply(Apply(Apply(s, a), b), c))
  {
    assert Executes(s, [], s);
    OneMoreAction(s, [], s, a);
    OneMoreAction(s, [] + [a], Apply(s, a), b);
    OneMoreAction(s, [] + [a] + [b], Apply(Apply(s, a), b), c);
    assert [] + [a] + [b] + [c] == [a, b, c];
  }

  /** The pointer to the array is tagged. */
  lemma AloneTags(s: State, t: nat) returns (c: State)
    requires Enabled(s, BeginResize(t)) && s.current in s.arrays && s.arrays[s.current].prior.None?
    ensures Executes(s, [BeginResize(t), Step(t), Step(t)], c)
    ensures c == s.(threads := c.threads, resizer := Some(t)) && t in c.threads && c.threads[t] == Allocating(s.current)
  {
    var a := Apply(s, BeginResize(t));
    var b := Apply(a, Step(t));
    assert b.threads[t] == Tagging(s.current);
    c := Apply(b, Step(t));
    ThreeActions(s, BeginResize(t), Step(t), Step(t));
  }

  /** A resize that nobody interferes with puts a new array in place, with the former one attached to it. */
  lemma AloneResizes(s: State, t: nat, n: nat, log: nat)
    requires Enabled(s, BeginResize(t)) && s.current in s.arrays && s.arrays[s.current].prior.None?
    requires n !in s.arrays && 1 <= log <= BITS && log <= s.arrays[s.current].log + 5
    ensures exists u :: Executes(s, [BeginResize(t), Step(t), Step(t), Allocate(t, n, log)], u)
              && u.current == n && n in u.arrays && u.arrays[n].prior == Some(s.current) && u.arrays[n].log == log
              && u.content == s.content && u.resizer.None? && t in u.threads && u.threads[t].Resting?
  {
    var c := AloneTags(s, t);
    OneMoreAction(s, [BeginResize(t), Step(t), Step(t)], c, Allocate(t, n, log));
    assert [BeginResize(t), Step(t), Step(t)] + [Allocate(t, n, log)] == [BeginResize(t), Step(t), Step(t), Allocate(t, n, log)];
  }

  // ---------------------------------------------------------------- the end of a resize

  /** Operations of thread `t` alone, one after the other, lead from `s` to `u`. */
  ghost predicate Operate(s: State, t: nat, ops: nat, u: State)
    decreases ops
  {
    if ops == 0 then s == u
    else exists op, m :: Enabled(s, Begin(t, op)) && AloneReaches(Apply(s, Begin(t, op)), t, m) && Operate(m, t, ops - 1, u)
  }

  /** A thread at rest holds no lock. */
  lemma NothingLocked(s: State, t: nat)
    requires Good(s, t) && s.threads[t].Resting?
    ensures s.locks == map[] && LogsOk(s)
  {
    GoodInv(s, t);
    var pc := s.threads[t];
    assert forall l :: !Holds(s, pc, l);
  }

  /** One operation, and one range less. */
  lemma OneRangeLess(s: State, t: nat, op: Op, o: nat) returns (m: State)
    requires Good(s, t) && s.threads[t].Resting? && s.current in s.arrays && s.arrays[s.current].prior == Some(o)
    requires o in s.arrays && Refs(s.arrays[o].word) == 0 && s.arrays[o].word < NumBuckets(s, o)
    ensures Good(m, t) && m.threads[t].Resting? && m.current == s.current && s.current in m.arrays && o in m.arrays
    ensures Enabled(s, Begin(t, op)) && AloneReaches(Apply(s, Begin(t, op)), t, m)
    ensures m.arrays[o].word == s.arrays[o].word + BUCKET_LEN && Refs(m.arrays[o].word) == 0 && NumBuckets(m, o) == NumBuckets(s, o)
    ensures m.arrays[s.current].prior == if m.arrays[o].word >= NumBuckets(s, o) then None else Some(o)
  {
    NothingLocked(s, t);
    m := AloneOperates(s, t, op);
    assert RangeDone(s, m, s.current, o, s.arrays[o].word + BUCKET_LEN);
  }

  /**
    A resize comes to an end: with no claim outstanding, as many operations as there are ranges left
    relocate them all, and the old array is dropped.
   */
  lemma {:induction false} ResizeEnds(s: State, t: nat, op: Op, o: nat, ops: nat) returns (u: State)
    requires Good(s, t) && s.threads[t].Resting? && s.current in s.arrays && s.arrays[s.current].prior == Some(o)
    requires o in s.arrays && Refs(s.arrays[o].word) == 0
    requires ops > 0 && s.arrays[o].word + BUCKET_LEN * (ops - 1) < NumBuckets(s, o) <= s.arrays[o].word + BUCKET_LEN * ops
    ensures Operate(s, t, ops, u) && u.current == s.current && s.current in u.arrays && u.arrays[s.current].prior.None?
    decreases ops
  {
    var m := OneRangeLess(s, t, op, o);
    if ops == 1 {
      u := m;
    } else {
      u := ResizeEnds(m, t, op, o, ops - 1);
    }
    OperatesFirst(s, t, op, m, ops - 1, u);
  }

  lemma OperatesFirst(s: State, t: nat, op: Op, m: State, ops: nat, u: State)
    requires Enabled(s, Begin(t, op)) && AloneReaches(Apply(s, Begin(t, op)), t, m) && Operate(m, t, ops, u)
    ensures Operate(s, t, ops + 1, u)
  {
  }
}
