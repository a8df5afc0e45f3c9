/**
  Every step of every thread keeps the invariant of the resizing hash table.
 */
module HashTableSteps {
  import opened Common
  import opened Geometry
  import opened HashTable
  import opened HashTableInv

  function PcOf(s: State, t: nat): Pc {
    if t in s.threads then s.threads[t] else Resting(Nothing)
  }

  // ---------------------------------------------------------------- locks and program points

  ghost predicate SameClaims(p: Pc, q: Pc) {
    && (forall x :: HasClaim(p, x) <==> HasClaim(q, x))
    && (forall x :: HasClaim(p, x) ==> ClaimStart(p) == ClaimStart(q))
  }

  ghost predicate StillMoving(p: Pc, q: Pc) {
    p.Moving? && p.held > 0 ==> q.Moving? && q.o == p.o && q.j == p.j && q.held > 0
  }

  /** Thread `t` goes on and takes or releases locks; nothing else changes. */
  ghost predicate LockEffect(s: State, u: State, t: nat) {
    && u == s.(threads := u.threads, locks := u.locks)
    && t in u.threads && u.threads == s.threads[t := u.threads[t]]
    && var p, q := PcOf(s, t), u.threads[t];
      && PcOk(s, q) && !p.Allocating? && !q.Allocating? && !q.Dropping?
      && SameClaims(p, q) && StillMoving(p, q)
      && (forall l :: Holds(s, q, l) ==> l in u.locks && u.locks[l] == t && (l !in s.locks || s.locks[l] == t))
      && (forall l :: l in u.locks && !Holds(s, q, l) ==> l in s.locks && u.locks[l] == s.locks[l] && u.locks[l] != t)
      && (forall l :: l in s.locks && s.locks[l] != t ==> l in u.locks && u.locks[l] == s.locks[l])
  }

  lemma LockEffectLocks(s: State, u: State, t: nat)
    requires LockEffect(s, u, t) && Locks(s)
    ensures Locks(u)
  {
    assert forall pc, l :: Holds(u, pc, l) <==> Holds(s, pc, l);
  }

  lemma LockEffectThreads(s: State, u: State, t: nat)
    requires LockEffect(s, u, t) && Threads(s)
    ensures Threads(u)
  {
    forall v | v in u.threads ensures PcOk(u, u.threads[v]) {
      assert PcOk(s, u.threads[v]);
    }
  }

  /** Relocations in progress stay in progress, so what they have moved is accounted for. */
  lemma UnmovedKept(s: State, u: State)
    requires Shape(s) && Shape(u) && Unmoved(s)
    requires u.arrays == s.arrays && u.current == s.current && u.killed == s.killed && u.content == s.content
    requires forall l :: BeingMoved(s, l) ==> BeingMoved(u, l)
    ensures Unmoved(u)
  {
    if Prior(u).Some? {
      var o := Prior(u).value;
      assert ArrayOk(s, s.current) && ArrayOk(s, o);
      forall k | k in Content(u, LocOf(u, u.current, k)) && LocOf(u, o, k) !in u.killed
        ensures k !in Content(u, LocOf(u, o, k)) && BeingMoved(u, LocOf(u, o, k))
      {
        assert k in Content(s, LocOf(s, s.current, k)) && LocOf(s, o, k) !in s.killed;
      }
    }
  }

  lemma LockEffectUnmoved(s: State, u: State, t: nat)
    requires LockEffect(s, u, t) && Shape(s) && Shape(u) && Locks(s) && Unmoved(s)
    ensures Unmoved(u)
  {
    forall l | BeingMoved(s, l) ensures BeingMoved(u, l) {
      if s.locks[l] == t {
        assert Holds(s, u.threads[t], l);
      }
    }
    UnmovedKept(s, u);
  }

  lemma SameClaimants(s: State, u: State, t: nat, x: nat)
    requires t in u.threads && u.threads == s.threads[t := u.threads[t]]
    requires SameClaims(PcOf(s, t), u.threads[t])
    ensures Claimants(u, x) == Claimants(s, x)
    ensures forall i :: Covered(s, x, i) ==> Covered(u, x, i)
  {
    forall i | Covered(s, x, i) ensures Covered(u, x, i) {
      var v :| v in s.threads && Covers(s.threads[v], x, i);
      assert Covers(u.threads[v], x, i);
    }
  }

  lemma LockEffectWords(s: State, u: State, t: nat)
    requires LockEffect(s, u, t) && Shape(s) && Shape(u) && Words(s)
    ensures Words(u)
  {
    forall x | x in u.arrays ensures WordOk(u, x) {
      assert WordOk(s, x);
      SameClaimants(s, u, t, x);
    }
  }

  lemma ShapeOf(s: State, u: State)
    requires Shape(s) && u.arrays == s.arrays && u.current == s.current
    ensures Shape(u)
  {
    forall x | x in u.arrays ensures ArrayOk(u, x) {
      assert ArrayOk(s, x);
    }
  }

  lemma SameTable(s: State, u: State)
    requires Shape(s) && Killing(s) && Placed(s) && OneMap(s)
    requires u == s.(threads := u.threads, locks := u.locks, resizer := u.resizer)
    ensures Shape(u) && Killing(u) && Placed(u) && OneMap(u)
  {
    ShapeOf(s, u);
    assert forall l :: Content(u, l) == Content(s, l);
    forall k ensures Lookup(u, k) == ModelLookup(u, k) {
      assert Lookup(s, k) == ModelLookup(s, k);
    }
  }

  lemma LockEffectKeeps(s: State, u: State, t: nat)
    requires Inv(s) && LockEffect(s, u, t)
    ensures Inv(u)
  {
    SameTable(s, u);
    LockEffectLocks(s, u, t);
    LockEffectThreads(s, u, t);
    LockEffectUnmoved(s, u, t);
    LockEffectWords(s, u, t);
  }

  // ---------------------------------------------------------------- steps without locks

  lemma WithoutLocks(s: State, t: nat, q: Pc)
    requires Locks(s) && PcOk(s, q)
    requires var p := PcOf(s, t); !p.Allocating? && SameClaims(p, q) && StillMoving(p, q)
    requires !q.Allocating? && !q.Dropping?
    requires forall l :: !Holds(s, PcOf(s, t), l) && !Holds(s, q, l)
    ensures LockEffect(s, WithPc(s, t, q), t)
  {
  }

  lemma ReadyIfDetached(s: State, a: nat, k: Key)
    requires Shape(s) && Killing(s) && a in s.arrays && s.arrays[a].prior.None?
    ensures Ready(s, a, k)
  {
    assert ArrayOk(s, a);
    if s.arrays[a].from.Some? {
      var o := s.arrays[a].from.value;
      DetachedIsKilled(s, a, o);
      assert ArrayOk(s, o);
      IndexInRange(s.arrays[o].log, k.hash);
    }
  }

  lemma PriorCheckOk(s: State, a: nat, k: Key)
    requires Shape(s) && Killing(s) && a in s.arrays
    ensures s.arrays[a].prior.None? ==> Ready(s, a, k)
    ensures s.arrays[a].prior.Some? ==> Linked(s, a, s.arrays[a].prior.value)
  {
    assert ArrayOk(s, a);
    if s.arrays[a].prior.None? {
      ReadyIfDetached(s, a, k);
    } else {
      assert ArrayOk(s, s.arrays[a].prior.value);
    }
  }

  lemma PlainPcOk(s: State, pc: Pc)
    requires Shape(s) && LogsOk(s) && Plain(s, pc) && PcOk(s, pc)
    requires pc.Entering? || pc.Rehashing? || pc.Settling? ==>
               && (s.arrays[pc.a].prior.None? ==> Ready(s, pc.a, pc.op.k))
               && (s.arrays[pc.a].prior.Some? ==> Linked(s, pc.a, s.arrays[pc.a].prior.value))
    ensures PcOk(s, NextPc(s, pc))
  {
    assert pc.LockingOwn? ==> ArrayOk(s, pc.a);
  }

  lemma PlainEffect(s: State, t: nat)
    requires Shape(s) && Killing(s) && Threads(s) && Locks(s)
    requires LogsOk(s) && t in s.threads && Plain(s, s.threads[t])
    ensures LockEffect(s, WithPc(s, t, NextPc(s, s.threads[t])), t)
  {
    var pc := s.threads[t];
    assert PcOk(s, pc);
    if pc.Entering? || pc.Rehashing? || pc.Settling? { PriorCheckOk(s, pc.a, pc.op.k); }
    PlainPcOk(s, pc);
    WithoutLocks(s, t, NextPc(s, pc));
  }

  lemma PlainKeeps(s: State, t: nat)
    requires Inv(s) && LogsOk(s) && t in s.threads && Plain(s, s.threads[t])
    ensures Inv(WithPc(s, t, NextPc(s, s.threads[t])))
  {
    PlainEffect(s, t);
    LockEffectKeeps(s, WithPc(s, t, NextPc(s, s.threads[t])), t);
  }

  lemma BeginKeeps(s: State, t: nat, pc: Pc)
    requires Inv(s) && PcOf(s, t).Resting?
    requires pc.Starting? || (pc.Resizing? && pc.a == s.current)
    ensures Inv(WithPc(s, t, pc))
  {
    WithoutLocks(s, t, pc);
    LockEffectKeeps(s, WithPc(s, t, pc), t);
  }

  lemma FailEffect(s: State, t: nat)
    requires Threads(s) && Locks(s) && Enabled(s, Fail(t))
    ensures LockEffect(s, Failed(s, t), t)
  {
    assert PcOk(s, s.threads[t]);
    WithoutLocks(s, t, Failed(s, t).threads[t]);
  }

  lemma FailKeeps(s: State, t: nat)
    requires Inv(s) && Enabled(s, Fail(t))
    ensures Inv(Failed(s, t))
  {
    FailEffect(s, t);
    LockEffectKeeps(s, Failed(s, t), t);
  }

  // ---------------------------------------------------------------- taking and releasing locks

  /** Thread `t` takes the free lock `l`. */
  lemma Acquires(s: State, t: nat, l: Loc, q: Pc)
    requires Locks(s) && PcOk(s, q) && l !in s.locks
    requires var p := PcOf(s, t);
             && !p.Allocating? && !q.Allocating? && !q.Dropping? && SameClaims(p, q) && StillMoving(p, q)
             && (forall m :: Holds(s, q, m) <==> Holds(s, p, m) || m == l)
    ensures LockEffect(s, WithPc(Locked(s, l, t), t, q), t)
  {
  }

  /** Thread `t` releases lock `l`. */
  lemma Releases(s: State, t: nat, l: Loc, q: Pc)
    requires Locks(s) && PcOk(s, q) && t in s.threads
    requires var p := s.threads[t];
             && !p.Allocating? && !q.Allocating? && !q.Dropping? && SameClaims(p, q) && StillMoving(p, q)
             && Holds(s, p, l)
             && (forall m :: Holds(s, q, m) <==> Holds(s, p, m) && m != l)
    ensures LockEffect(s, WithPc(Unlocked(s, l), t, q), t)
  {
  }

  /** Thread `t` goes on and keeps the locks it has. */
  lemma KeepsLocks(s: State, t: nat, q: Pc)
    requires Locks(s) && PcOk(s, q) && t in s.threads
    requires var p := s.threads[t];
             && !p.Allocating? && !q.Allocating? && !q.Dropping? && SameClaims(p, q) && StillMoving(p, q)
             && (forall m :: Holds(s, q, m) <==> Holds(s, p, m))
    ensures LockEffect(s, WithPc(s, t, q), t)
  {
  }

  lemma LockWalkedEffect(s: State, t: nat)
    requires Threads(s) && Locks(s) && LogsOk(s) && StepEnabled(s, t) && !Plain(s, s.threads[t])
    requires s.threads[t].Walking? && s.threads[t].i < RangeEnd(s.threads[t].start, NumBuckets(s, s.threads[t].o))
    ensures LockEffect(s, Stepped(s, t), t)
  {
    var pc := s.threads[t];
    assert PcOk(s, pc);
    Acquires(s, t, Loc(pc.o, pc.i), Moving(pc.op, pc.a, pc.o, pc.i, 0, Claimed(pc.start)));
  }

  lemma LockOwnEffect(s: State, t: nat)
    requires Threads(s) && Locks(s) && LogsOk(s) && StepEnabled(s, t) && !Plain(s, s.threads[t])
    requires s.threads[t].LockingOwn?
    ensures LockEffect(s, Stepped(s, t), t)
  {
    var pc := s.threads[t];
    assert PcOk(s, pc);
    IndexInRange(s.arrays[pc.o].log, pc.op.k.hash);
    var l := LocOf(s, pc.o, pc.op.k);
    Acquires(s, t, l, Moving(pc.op, pc.a, pc.o, l.index, 0, Unclaimed));
  }

  lemma LockCurrentEffect(s: State, t: nat)
    requires Threads(s) && Locks(s) && LogsOk(s) && StepEnabled(s, t) && !Plain(s, s.threads[t])
    requires s.threads[t].Locking?
    ensures LockEffect(s, Stepped(s, t), t)
  {
    var pc := s.threads[t];
    assert PcOk(s, pc);
    Acquires(s, t, LocOf(s, pc.a, pc.op.k), Stepped(s, t).threads[t]);
  }

  lemma LockTargetEffect(s: State, t: nat, k: Key)
    requires Shape(s) && Threads(s) && Locks(s) && Placed(s)
    requires Enabled(s, Move(t, k)) && Beyond(s, s.threads[t], k)
    ensures LockEffect(s, Moved(s, t, k), t)
  {
    var pc := s.threads[t];
    assert PcOk(s, pc);
    assert Loc(pc.o, pc.j) == LocOf(s, pc.o, k);
    EntryStaysInSpread(s.arrays[pc.o].log, s.arrays[pc.a].log, k.hash);
    Acquires(s, t, NextTarget(s, pc), pc.(held := pc.held + 1));
  }

  lemma HoldsAfterTarget(s: State, pc: Pc, l: Loc)
    requires PcOk(s, pc) && pc.Releasing? && pc.lo < pc.hi
    requires l == Loc(pc.a, Target(s, pc.a, pc.o, pc.j) + pc.lo)
    ensures PcOk(s, pc.(lo := pc.lo + 1)) && SameClaims(pc, pc.(lo := pc.lo + 1))
    ensures Holds(s, pc, l)
    ensures forall m :: Holds(s, pc.(lo := pc.lo + 1), m) <==> Holds(s, pc, m) && m != l
  {
    var q := pc.(lo := pc.lo + 1);
    forall m ensures Holds(s, q, m) <==> Holds(s, pc, m) && m != l {
      assert m == Loc(m.arr, m.index);
    }
  }

  lemma ReleaseTargetEffect(s: State, t: nat, l: Loc)
    requires Locks(s) && t in s.threads && PcOk(s, s.threads[t])
    requires s.threads[t].Releasing? && s.threads[t].lo < s.threads[t].hi
    requires var pc := s.threads[t]; l == Loc(pc.a, Target(s, pc.a, pc.o, pc.j) + pc.lo)
    ensures LockEffect(s, WithPc(Unlocked(s, l), t, s.threads[t].(lo := s.threads[t].lo + 1)), t)
  {
    var pc := s.threads[t];
    HoldsAfterTarget(s, pc, l);
    Releases(s, t, l, pc.(lo := pc.lo + 1));
  }

  lemma ReleasedOk(s: State, pc: Pc)
    requires PcOk(s, pc) && pc.Releasing?
    ensures PcOk(s, Released(pc)) && SameClaims(pc, Released(pc))
  {
  }

  lemma ReleaseOldEffect(s: State, t: nat)
    requires Threads(s) && Locks(s) && LogsOk(s) && StepEnabled(s, t)
    requires s.threads[t].Releasing? && s.threads[t].lo == s.threads[t].hi
    ensures LockEffect(s, Stepped(s, t), t)
  {
    var pc := s.threads[t];
    assert PcOk(s, pc);
    ReleasedOk(s, pc);
    Releases(s, t, Loc(pc.o, pc.j), Released(pc));
  }

  lemma LeaveEffect(s: State, t: nat)
    requires Threads(s) && Locks(s) && LogsOk(s) && StepEnabled(s, t) && s.threads[t].Leaving?
    ensures LockEffect(s, Stepped(s, t), t)
  {
    var pc := s.threads[t];
    assert PcOk(s, pc);
    Releases(s, t, LocOf(s, pc.a, pc.op.k), Stepped(s, t).threads[t]);
  }

  lemma ReleasingEffect(s: State, t: nat)
    requires Threads(s) && Locks(s) && LogsOk(s) && StepEnabled(s, t) && s.threads[t].Releasing?
    ensures LockEffect(s, Stepped(s, t), t)
  {
    var pc := s.threads[t];
    assert PcOk(s, pc);
    if pc.lo < pc.hi {
      var l := Loc(pc.a, Target(s, pc.a, pc.o, pc.j) + pc.lo);
      ReleaseTargetEffect(s, t, l);
      assert Stepped(s, t) == WithPc(Unlocked(s, l), t, pc.(lo := pc.lo + 1));
    } else {
      ReleaseOldEffect(s, t);
    }
  }

  lemma LockTargetKeeps(s: State, t: nat, k: Key)
    requires Inv(s) && Enabled(s, Move(t, k)) && Beyond(s, s.threads[t], k)
    ensures Inv(Moved(s, t, k))
  {
    LockTargetEffect(s, t, k);
    LockEffectKeeps(s, Moved(s, t, k), t);
  }

  // ---------------------------------------------------------------- failing to relocate

  /** A thread that holds a bucket of the current array has the matching old bucket killed or locked. */
  lemma CurrentLockNeedsOrigin(s: State, a: nat, o: nat, j: nat, l: Loc)
    requires Shape(s) && Threads(s) && Locks(s)
    requires Linked(s, a, o) && a == s.current && Prior(s) == Some(o)
    requires s.arrays[o].log < s.arrays[a].log
    requires l in s.locks && l.arr == a
    requires Target(s, a, o, j) <= l.index < Target(s, a, o, j) + Spread(s.arrays[o].log, s.arrays[a].log)
    requires Loc(o, j) !in s.killed
    ensures Holds(s, s.threads[s.locks[l]], Loc(o, j))
  {
    var lo, la := s.arrays[o].log, s.arrays[a].log;
    var pc := s.threads[s.locks[l]];
    assert Holds(s, pc, l) && PcOk(s, pc);
    TargetDeterminesOrigin(lo, la, j, l.index);
    if pc.Moving? || pc.Releasing? {
      assert ArrayOk(s, pc.a);
      TargetDeterminesOrigin(lo, la, pc.j, l.index);
    } else {
      IndexNests(lo, la, pc.op.k.hash);
    }
  }

  lemma OneHolder(s: State, t: nat, v: nat, l: Loc)
    requires Locks(s) && t in s.threads && v in s.threads
    requires Holds(s, s.threads[t], l) && Holds(s, s.threads[v], l)
    ensures t == v
  {
  }

  lemma NextTargetNotHeld(s: State, pc: Pc)
    requires PcOk(s, pc) && pc.Moving?
    ensures !Holds(s, pc, NextTarget(s, pc)) && Holds(s, pc, Loc(pc.o, pc.j))
  {
  }

  /** In a growing table the next target is never locked by someone else. */
  lemma GrowthTargetsAreFree(s: State, t: nat)
    requires Shape(s) && Threads(s) && Locks(s) && t in s.threads && s.threads[t].Moving?
    requires var pc := s.threads[t];
             && PcOk(s, pc) && pc.a == s.current && Prior(s) == Some(pc.o)
             && s.arrays[pc.o].log < s.arrays[pc.a].log
             && pc.held < Spread(s.arrays[pc.o].log, s.arrays[pc.a].log)
    ensures Free(s, NextTarget(s, s.threads[t]))
  {
    var pc := s.threads[t];
    var l := NextTarget(s, pc);
    NextTargetNotHeld(s, pc);
    if l in s.locks {
      CurrentLockNeedsOrigin(s, pc.a, pc.o, pc.j, l);
      OneHolder(s, t, s.locks[l], Loc(pc.o, pc.j));
    }
  }

  /** The attempt to lock a target can only fail before anything has been moved. */
  lemma OnlyFirstTargetFails(s: State, t: nat, k: Key)
    requires Shape(s) && Killing(s) && Threads(s) && Locks(s) && Placed(s) && Enabled(s, FailMove(t, k))
    ensures s.threads[t].held == 0
    ensures s.arrays[s.threads[t].o].log >= s.arrays[s.threads[t].a].log
  {
    var pc := s.threads[t];
    assert PcOk(s, pc);
    var lo, la := s.arrays[pc.o].log, s.arrays[pc.a].log;
    AliveIsAttached(s, pc.a, pc.o, pc.j);
    assert Loc(pc.o, pc.j) == LocOf(s, pc.o, k);
    EntryStaysInSpread(lo, la, k.hash);
    if lo < la {
      GrowthTargetsAreFree(s, t);
    }
  }

  lemma GivesUpEarly(s: State, pc: Pc)
    requires PcOk(s, pc) && pc.Moving? && pc.held == 0
    ensures var q := Releasing(pc.op, pc.a, pc.o, pc.j, 0, 0, pc.claim, false);
            PcOk(s, q) && SameClaims(pc, q) && forall m :: Holds(s, q, m) <==> Holds(s, pc, m)
  {
  }

  lemma FailMoveEffect(s: State, t: nat, k: Key)
    requires Threads(s) && Locks(s) && Enabled(s, FailMove(t, k)) && s.threads[t].held == 0
    ensures LockEffect(s, Apply(s, FailMove(t, k)), t)
  {
    GivesUpEarly(s, s.threads[t]);
    KeepsLocks(s, t, Apply(s, FailMove(t, k)).threads[t]);
  }

  lemma FailMoveKeeps(s: State, t: nat, k: Key)
    requires Inv(s) && Enabled(s, FailMove(t, k))
    ensures Inv(Apply(s, FailMove(t, k)))
  {
    OnlyFirstTargetFails(s, t, k);
    FailMoveEffect(s, t, k);
    LockEffectKeeps(s, Apply(s, FailMove(t, k)), t);
  }
}
