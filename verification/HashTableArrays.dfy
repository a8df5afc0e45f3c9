/**
  Dropping the old array and putting a new array in place keep the invariant of the resizing hash
  table.
 */
module HashTableArrays {
  import opened Common
  import opened Geometry
  import opened HashTable
  import opened HashTableInv
  import opened HashTableSteps
  import opened HashTableClaims

  // ---------------------------------------------------------------- one thread goes on

  /** What the invariant says besides where the threads are. */
  ghost predicate TableOk(s: State) {
    Shape(s) && Killing(s) && Locks(s) && Placed(s) && OneMap(s) && Unmoved(s) && Words(s)
  }

  lemma GoesOnTable(m: State, t: nat, q: Pc)
    requires TableOk(m) && Lockless(PcOf(m, t)) && Lockless(q) && SameClaims(PcOf(m, t), q)
    ensures TableOk(WithPc(m, t, q))
  {
    var u := WithPc(m, t, q);
    SameTable(m, u);
    GoesOnLocks(m, t, q);
    GoesOnUnmoved(m, t, q);
    forall x | x in u.arrays ensures WordOk(u, x) {
      assert WordOk(m, x);
      SameClaimants(m, u, t, x);
    }
  }

  lemma ResizerTable(m: State, resizer: Option<nat>)
    requires TableOk(m)
    ensures TableOk(m.(resizer := resizer))
  {
    var u := m.(resizer := resizer);
    SameTable(m, u);
    assert forall pc, l :: Holds(u, pc, l) <==> Holds(m, pc, l);
    assert forall l :: BeingMoved(m, l) ==> BeingMoved(u, l);
    UnmovedKept(m, u);
    forall x | x in u.arrays ensures WordOk(u, x) {
      assert WordOk(m, x);
      assert Claimants(u, x) == Claimants(m, x);
      assert forall i :: Covered(m, x, i) ==> Covered(u, x, i);
    }
  }

  // ---------------------------------------------------------------- dropping the old array

  function Detached(s: State, a: nat): State
    requires a in s.arrays
  {
    s.(arrays := s.arrays[a := s.arrays[a].(prior := None)])
  }

  lemma DropShape(s: State, a: nat)
    requires Shape(s) && a in s.arrays
    ensures Shape(Detached(s, a))
  {
    var u := Detached(s, a);
    forall x | x in u.arrays ensures ArrayOk(u, x) {
      assert ArrayOk(s, x);
    }
  }

  /** Nothing is stored in an old array that is dropped. */
  lemma DropTable(s: State, a: nat, o: nat)
    requires Shape(s) && Killing(s) && Placed(s) && OneMap(s)
    requires a == s.current && Prior(s) == Some(o) && o in s.arrays && AllKilled(s, o)
    ensures var u := Detached(s, a); Shape(u) && Killing(u) && Placed(u) && OneMap(u) && Unmoved(u)
  {
    var u := Detached(s, a);
    DropShape(s, a);
    assert ArrayOk(s, a) && ArrayOk(s, o);
    assert forall l :: Content(u, l) == Content(s, l);
    forall k ensures Lookup(u, k) == ModelLookup(u, k) {
      assert Lookup(s, k) == ModelLookup(s, k);
      IndexInRange(s.arrays[o].log, k.hash);
      assert Content(s, LocOf(s, o, k)) == map[];
    }
  }

  lemma DropWords(s: State, a: nat, o: nat)
    requires Shape(s) && Words(s) && a == s.current && Prior(s) == Some(o) && o in s.arrays
    requires Refs(s.arrays[o].word) == 0 && s.arrays[o].word >= NumBuckets(s, o)
    requires Shape(Detached(s, a))
    ensures Words(Detached(s, a))
  {
    var u := Detached(s, a);
    forall x | x in u.arrays ensures WordOk(u, x) {
      assert WordOk(s, x);
      assert Claimants(u, x) == Claimants(s, x);
      assert forall i :: Covered(s, x, i) ==> Covered(u, x, i);
    }
  }

  lemma DropLocks(s: State, a: nat)
    requires Locks(s) && a in s.arrays
    ensures Locks(Detached(s, a))
  {
    var u := Detached(s, a);
    assert forall pc, l :: Holds(u, pc, l) <==> Holds(s, pc, l);
  }

  lemma DropPcOk(s: State, a: nat, t: nat, q: Pc, pc: Pc)
    requires PcOk(s, pc) && a in s.arrays && (pc.Dropping? ==> pc.a != a)
    ensures PcOk(WithPc(Detached(s, a), t, q), pc)
  {
  }

  lemma DropThreads(s: State, t: nat, q: Pc)
    requires Threads(s) && t in s.threads && s.threads[t].Dropping? && s.threads[t].a in s.arrays
    requires q.Settling? && q.a == s.threads[t].a && q.o == s.threads[t].o
    ensures Threads(WithPc(Detached(s, s.threads[t].a), t, q))
  {
    var a := s.threads[t].a;
    var u := WithPc(Detached(s, a), t, q);
    assert PcOk(s, s.threads[t]);
    forall v | v in u.threads ensures PcOk(u, u.threads[v]) {
      if v != t {
        DropPcOk(s, a, t, q, s.threads[v]);
      }
    }
  }

  lemma DropKeeps(s: State, t: nat, u: State)
    requires Inv(s) && t in s.threads && s.threads[t].Dropping? && s.threads[t].a in s.arrays
    requires var pc := s.threads[t]; u == WithPc(Detached(s, pc.a), t, Settling(pc.op, pc.a, pc.o))
    ensures Inv(u)
  {
    var pc := s.threads[t];
    assert PcOk(s, pc) && ArrayOk(s, pc.a);
    DropTable(s, pc.a, pc.o);
    DropWords(s, pc.a, pc.o);
    DropLocks(s, pc.a);
    DropThreads(s, t, u.threads[t]);
    GoesOnTable(Detached(s, pc.a), t, u.threads[t]);
  }

  // ---------------------------------------------------------------- tagging the pointer

  lemma ResizerThreads(s: State, t: nat, q: Pc, resizer: Option<nat>)
    requires Threads(s) && PcOk(s, q) && !q.Dropping?
    requires forall v :: v in s.threads && s.threads[v].Allocating? ==> v == t
    requires q.Allocating? ==> resizer == Some(t)
    ensures Threads(WithPc(s, t, q).(resizer := resizer))
  {
    var u := WithPc(s, t, q).(resizer := resizer);
    forall v | v in u.threads ensures PcOk(u, u.threads[v]) {
      assert PcOk(s, u.threads[v]);
    }
  }

  /** Only one thread at a time has the right to resize. */
  lemma TagThreads(s: State, t: nat, q: Pc)
    requires Threads(s) && t in s.threads && s.threads[t].Tagging? && s.threads[t].a == s.current && s.resizer.None?
    requires q == Allocating(s.threads[t].a)
    ensures Threads(WithPc(s, t, q).(resizer := Some(t)))
  {
    assert PcOk(s, s.threads[t]);
    ResizerThreads(s, t, q, Some(t));
  }

  lemma TagKeeps(s: State, t: nat)
    requires Inv(s) && t in s.threads && s.threads[t].Tagging? && s.threads[t].a == s.current && s.resizer.None?
    ensures Inv(WithPc(s.(resizer := Some(t)), t, Allocating(s.threads[t].a)))
  {
    var q := Allocating(s.threads[t].a);
    GoesOnTable(s, t, q);
    ResizerTable(WithPc(s, t, q), Some(t));
    TagThreads(s, t, q);
  }

  lemma GiveUpKeeps(s: State, t: nat)
    requires Inv(s) && t in s.threads && s.threads[t].Allocating?
    ensures Inv(WithPc(s.(resizer := None), t, Resting(Nothing)))
  {
    GoesOnTable(s, t, Resting(Nothing));
    ResizerTable(WithPc(s, t, Resting(Nothing)), None);
    ResizerThreads(s, t, Resting(Nothing), None);
  }

  // ---------------------------------------------------------------- a new array

  /** The current array gets a successor; nobody is allocating any more. */
  function Extended(s: State, n: nat, log: nat): State {
    s.(arrays := s.arrays[n := Array(log, Some(s.current), 0, Some(s.current))], current := n)
  }

  ghost predicate MayExtend(s: State, n: nat, log: nat) {
    && Shape(s) && Prior(s).None? && n !in s.arrays && log <= BITS && log <= s.arrays[s.current].log + 5
  }

  lemma ExtendShape(s: State, n: nat, log: nat)
    requires MayExtend(s, n, log)
    ensures Shape(Extended(s, n, log))
  {
    var u := Extended(s, n, log);
    assert ArrayOk(s, s.current);
    forall x | x in u.arrays ensures ArrayOk(u, x) {
      if x != n { assert ArrayOk(s, x); }
    }
    forall x, y | x in u.arrays && y in u.arrays && u.arrays[x].from.Some? && u.arrays[x].from == u.arrays[y].from
      ensures x == y
    {
      assert x != n ==> ArrayOk(s, x);
      assert y != n ==> ArrayOk(s, y);
    }
  }

  lemma FreshIsEmpty(s: State, l: Loc)
    requires Shape(s) && Placed(s) && l.arr !in s.arrays
    ensures Content(s, l) == map[]
  {
    assert forall k :: k !in Content(s, l);
  }

  lemma ExtendTable(s: State, n: nat, log: nat)
    requires MayExtend(s, n, log) && Killing(s) && Placed(s) && OneMap(s)
    ensures var u := Extended(s, n, log); Shape(u) && Killing(u) && Placed(u) && OneMap(u) && Unmoved(u)
  {
    var u := Extended(s, n, log);
    ExtendShape(s, n, log);
    assert forall l :: Content(u, l) == Content(s, l);
    forall l: Loc | l.arr == n ensures Content(u, l) == map[] {
      FreshIsEmpty(s, l);
    }
    forall k ensures Lookup(u, k) == ModelLookup(u, k) {
      assert Lookup(s, k) == ModelLookup(s, k);
    }
  }

  lemma ExtendPcOk(s: State, n: nat, log: nat, pc: Pc)
    requires MayExtend(s, n, log) && PcOk(s, pc) && !pc.Allocating?
    ensures PcOk(Extended(s, n, log), pc)
  {
  }

  lemma ExtendThreads(s: State, t: nat, n: nat, log: nat)
    requires MayExtend(s, n, log) && Threads(s)
    requires forall v :: v in s.threads && s.threads[v].Allocating? ==> v == t
    ensures Threads(WithPc(Extended(s, n, log), t, Resting(Nothing)).(resizer := None))
  {
    var u := WithPc(Extended(s, n, log), t, Resting(Nothing)).(resizer := None);
    forall v | v in u.threads ensures PcOk(u, u.threads[v]) {
      if v != t {
        ExtendPcOk(s, n, log, s.threads[v]);
      }
    }
  }

  lemma ExtendHolds(s: State, n: nat, log: nat, pc: Pc, l: Loc)
    requires MayExtend(s, n, log) && PcOk(s, pc)
    ensures Holds(Extended(s, n, log), pc, l) <==> Holds(s, pc, l)
  {
  }

  lemma ExtendLocks(s: State, n: nat, log: nat)
    requires MayExtend(s, n, log) && Threads(s) && Locks(s)
    ensures Locks(Extended(s, n, log))
  {
    var u := Extended(s, n, log);
    forall t, l | t in s.threads ensures Holds(u, s.threads[t], l) <==> Holds(s, s.threads[t], l) {
      ExtendHolds(s, n, log, s.threads[t], l);
    }
  }

  lemma ExtendWords(s: State, n: nat, log: nat)
    requires MayExtend(s, n, log) && Threads(s) && Words(s) && Shape(Extended(s, n, log))
    ensures Words(Extended(s, n, log))
  {
    var u := Extended(s, n, log);
    assert forall t :: t in s.threads ==> PcOk(s, s.threads[t]);
    assert Claimants(u, n) == {};
    assert WordOk(u, n);
    forall x | x in s.arrays ensures WordOk(u, x) {
      assert WordOk(s, x);
      assert Claimants(u, x) == Claimants(s, x);
      assert forall i :: Covered(s, x, i) ==> Covered(u, x, i);
    }
  }

  lemma AllocateKeeps(s: State, t: nat, n: nat, log: nat)
    requires Inv(s) && Enabled(s, Allocate(t, n, log))
    ensures Inv(Allocated(s, t, n, log))
  {
    assert PcOk(s, s.threads[t]);
    var m := Extended(s, n, log);
    ExtendTable(s, n, log);
    ExtendLocks(s, n, log);
    ExtendWords(s, n, log);
    ExtendThreads(s, t, n, log);
    GoesOnTable(m, t, Resting(Nothing));
    ResizerTable(WithPc(m, t, Resting(Nothing)), None);
    assert Allocated(s, t, n, log) == WithPc(m, t, Resting(Nothing)).(resizer := None);
  }
}
