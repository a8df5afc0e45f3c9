/**
  The steps that touch entries or kill a bucket keep the invariant of the resizing hash table.
 */
module HashTableData {
  import opened Common
  import opened Geometry
  import opened HashTable
  import opened HashTableInv
  import opened HashTableSteps

  // ---------------------------------------------------------------- contents only

  /** Entries change place or the stored map changes; threads, locks and arrays stay. */
  ghost predicate DataEffect(s: State, u: State)
    requires Shape(s)
  {
    && u == s.(content := u.content, model := u.model)
    && (forall l :: l in s.killed ==> Content(u, l) == Content(s, l))
    && Shape(u) && Placed(u) && OneMap(u) && Unmoved(u)
  }

  lemma DataEffectKeeps(s: State, u: State)
    requires Inv(s) && DataEffect(s, u)
    ensures Inv(u)
  {
    DataThreads(s, u);
    DataLocks(s, u);
    DataWords(s, u);
  }

  lemma DataThreads(s: State, u: State)
    requires Threads(s) && u == s.(content := u.content, model := u.model)
    ensures Threads(u)
  {
    forall t | t in u.threads ensures PcOk(u, u.threads[t]) {
      assert PcOk(s, s.threads[t]);
    }
  }

  lemma DataLocks(s: State, u: State)
    requires Locks(s) && u == s.(content := u.content, model := u.model)
    ensures Locks(u)
  {
    assert forall pc, l :: Holds(u, pc, l) <==> Holds(s, pc, l);
  }

  lemma DataWords(s: State, u: State)
    requires Shape(s) && Shape(u) && Words(s) && u == s.(content := u.content, model := u.model)
    ensures Words(u)
  {
    forall x | x in u.arrays ensures WordOk(u, x) {
      assert WordOk(s, x);
      assert Claimants(u, x) == Claimants(s, x);
      assert forall i :: Covered(s, x, i) ==> Covered(u, x, i);
    }
  }

  // ---------------------------------------------------------------- relocating an entry

  /** `u` is `s` with `k` moved from its bucket in old array `o` to its bucket in the current one. */
  ghost predicate Relocates(s: State, u: State, o: nat, k: Key)
    requires Shape(s)
  {
    && Prior(s) == Some(o) && o in s.arrays && s.arrays[o].log <= BITS && s.arrays[s.current].log <= BITS
    && var from, to := LocOf(s, o, k), LocOf(s, s.current, k);
      && from != to && k in Content(s, from) && from !in s.killed && BeingMoved(s, from)
      && u == s.(content := s.content[to := Content(s, to)[k := Content(s, from)[k]]][
                   from := Content(s, from) - {k}])
  }

  lemma RelocatesPlaced(s: State, u: State, o: nat, k: Key)
    requires Shape(s) && Shape(u) && Relocates(s, u, o, k) && Placed(s)
    ensures Placed(u)
  {
    forall l, x | x in Content(u, l)
      ensures l.arr in u.arrays && u.arrays[l.arr].log <= BITS && l == LocOf(u, l.arr, x)
    {
      assert x in Content(s, l) || (l == LocOf(s, s.current, k) && x == k);
    }
  }

  lemma RelocatesOneMap(s: State, u: State, o: nat, k: Key)
    requires Shape(s) && Shape(u) && Relocates(s, u, o, k) && OneMap(s)
    ensures OneMap(u)
  {
    forall x ensures Lookup(u, x) == ModelLookup(u, x) {
      assert Lookup(s, x) == ModelLookup(s, x);
      assert LocOf(u, o, x) == LocOf(s, o, x) && LocOf(u, u.current, x) == LocOf(s, s.current, x);
    }
  }

  lemma RelocatesUnmoved(s: State, u: State, o: nat, k: Key)
    requires Shape(s) && Shape(u) && Relocates(s, u, o, k) && Unmoved(s)
    ensures Unmoved(u)
  {
    assert Prior(u) == Some(o);
    forall x | x in Content(u, LocOf(u, u.current, x)) && LocOf(u, o, x) !in u.killed
      ensures x !in Content(u, LocOf(u, o, x)) && BeingMoved(u, LocOf(u, o, x))
    {
      assert LocOf(u, o, x) == LocOf(s, o, x) && LocOf(u, u.current, x) == LocOf(s, s.current, x);
      assert BeingMoved(s, LocOf(s, o, x)) <==> BeingMoved(u, LocOf(u, o, x));
      if x != k {
        assert x in Content(s, LocOf(s, s.current, x));
      }
    }
  }

  lemma RelocateKeeps(s: State, t: nat, k: Key)
    requires Inv(s) && Enabled(s, Move(t, k)) && !Beyond(s, s.threads[t], k)
    ensures Inv(Moved(s, t, k))
  {
    var pc := s.threads[t];
    assert PcOk(s, pc);
    var u := Moved(s, t, k);
    RelocateEffect(s, t, k);
    ShapeOf(s, u);
    RelocatesPlaced(s, u, pc.o, k);
    RelocatesOneMap(s, u, pc.o, k);
    RelocatesUnmoved(s, u, pc.o, k);
    DataEffectKeeps(s, u);
  }

  lemma RelocateEffect(s: State, t: nat, k: Key)
    requires Shape(s) && Killing(s) && Locks(s) && Placed(s) && t in s.threads && PcOk(s, s.threads[t])
    requires Enabled(s, Move(t, k)) && !Beyond(s, s.threads[t], k)
    ensures Relocates(s, Moved(s, t, k), s.threads[t].o, k)
    ensures forall l :: l in s.killed ==> Content(Moved(s, t, k), l) == Content(s, l)
  {
    var pc := s.threads[t];
    AliveIsAttached(s, pc.a, pc.o, pc.j);
    var from := Loc(pc.o, pc.j);
    assert from == LocOf(s, pc.o, k);
    EntryStaysInSpread(s.arrays[pc.o].log, s.arrays[pc.a].log, k.hash);
    assert Holds(s, pc, from);
  }

  // ---------------------------------------------------------------- inserting and removing

  /** The bucket a thread has locked for its key is where the key is stored, if it is stored. */
  lemma AccessSeesModel(s: State, t: nat)
    requires Inv(s) && t in s.threads && s.threads[t].Accessing?
    ensures var pc := s.threads[t];
            && pc.a in s.arrays && s.arrays[pc.a].log <= BITS
            && var l := LocOf(s, pc.a, pc.op.k);
              && l !in s.killed
              && (pc.a == s.current || Prior(s) == Some(pc.a))
              && (pc.op.k in Content(s, l) <==> pc.op.k in s.model)
              && (pc.op.k in s.model ==> Content(s, l)[pc.op.k] == s.model[pc.op.k])
  {
    var pc := s.threads[t];
    assert PcOk(s, pc);
    var k := pc.op.k;
    var l := LocOf(s, pc.a, k);
    IndexInRange(s.arrays[pc.a].log, k.hash);
    assert Lookup(s, k) == ModelLookup(s, k);
    assert Holds(s, pc, l);
    assert !BeingMoved(s, l);
    if pc.a == s.current {
      assert ArrayOk(s, pc.a);
    }
  }

  /** `u` is `s` with bucket `l` of `k` and the map changed alike: `k` has the value of `v`. */
  ghost predicate Stores(s: State, u: State, a: nat, k: Key, v: Option<Val>)
    requires Shape(s)
  {
    && a in s.arrays && s.arrays[a].log <= BITS
    && var l := LocOf(s, a, k);
      && l !in s.killed && !BeingMoved(s, l) && Ready(s, a, k)
      && (a == s.current || Prior(s) == Some(a))
      && u == match v
        case Some(w) => s.(content := s.content[l := Content(s, l)[k := w]], model := s.model[k := w])
        case None => s.(content := s.content[l := Content(s, l) - {k}], model := s.model - {k})
  }

  lemma StoresPlaced(s: State, u: State, a: nat, k: Key, v: Option<Val>)
    requires Shape(s) && Shape(u) && Stores(s, u, a, k, v) && Placed(s)
    ensures Placed(u)
  {
    forall l, x | x in Content(u, l)
      ensures l.arr in u.arrays && u.arrays[l.arr].log <= BITS && l == LocOf(u, l.arr, x)
    {
      assert x in Content(s, l) || (l == LocOf(s, a, k) && x == k);
    }
  }

  /** Storing under `k` leaves what is stored under another key alone. */
  lemma StoresOther(s: State, u: State, a: nat, k: Key, v: Option<Val>, x: Key)
    requires Shape(s) && Shape(u) && Stores(s, u, a, k, v) && x != k
    ensures Lookup(u, x) == Lookup(s, x) && ModelLookup(u, x) == ModelLookup(s, x)
  {
    assert ArrayOk(s, s.current) && (Prior(s).Some? ==> ArrayOk(s, Prior(s).value));
    OthersStay(s, u, a, k, v, x, LocOf(s, s.current, x));
    if Prior(s).Some? { OthersStay(s, u, a, k, v, x, LocOf(s, Prior(s).value, x)); }
  }

  lemma OthersStay(s: State, u: State, a: nat, k: Key, v: Option<Val>, x: Key, l: Loc)
    requires Shape(s) && Stores(s, u, a, k, v) && x != k
    ensures x in Content(u, l) <==> x in Content(s, l)
    ensures x in Content(u, l) ==> Content(u, l)[x] == Content(s, l)[x]
  {
  }

  lemma StoresKey(s: State, u: State, a: nat, k: Key, v: Option<Val>)
    requires Shape(s) && Killing(s) && Shape(u) && Stores(s, u, a, k, v) && Unmoved(s)
    ensures Lookup(u, k) == v
  {
    assert ArrayOk(s, s.current);
    assert Prior(u) == Prior(s);
    if Prior(s).Some? { StoresKeyInTwo(s, u, a, k, v, Prior(s).value); }
  }

  /** Of the two buckets of the key, the one that is not used does not have it. */
  lemma OtherHasNot(s: State, u: State, a: nat, k: Key, v: Option<Val>, o: nat)
    requires Shape(s) && Killing(s) && Stores(s, u, a, k, v) && Unmoved(s) && Prior(s) == Some(o)
    ensures o in s.arrays && s.arrays[o].log <= BITS && s.arrays[s.current].log <= BITS && o != s.current
    ensures if a == s.current then Content(s, LocOf(s, o, k)) == map[] else k !in Content(s, LocOf(s, s.current, k))
  {
    assert ArrayOk(s, s.current) && ArrayOk(s, o);
  }

  lemma StoresKeyInTwo(s: State, u: State, a: nat, k: Key, v: Option<Val>, o: nat)
    requires Shape(s) && Killing(s) && Shape(u) && Stores(s, u, a, k, v) && Unmoved(s) && Prior(s) == Some(o)
    ensures Lookup(u, k) == v
  {
    OtherHasNot(s, u, a, k, v, o);
    StoredIsFound(s, u, a, k, v, o);
  }

  lemma StoredIsFound(s: State, u: State, a: nat, k: Key, v: Option<Val>, o: nat)
    requires Shape(s) && Shape(u) && Stores(s, u, a, k, v) && Prior(s) == Some(o)
    requires o in s.arrays && s.arrays[o].log <= BITS && s.arrays[s.current].log <= BITS && o != s.current
    requires if a == s.current then Content(s, LocOf(s, o, k)) == map[] else k !in Content(s, LocOf(s, s.current, k))
    ensures Lookup(u, k) == v
  {
    assert Prior(u) == Prior(s) && LocOf(u, o, k) == LocOf(s, o, k);
    assert LocOf(u, s.current, k) == LocOf(s, s.current, k);
  }

  lemma StoresOneMap(s: State, u: State, a: nat, k: Key, v: Option<Val>)
    requires Shape(s) && Killing(s) && Shape(u) && Stores(s, u, a, k, v) && OneMap(s) && Unmoved(s)
    ensures OneMap(u)
  {
    forall x ensures Lookup(u, x) == ModelLookup(u, x) {
      if x == k {
        StoresKey(s, u, a, k, v);
      } else {
        StoresOther(s, u, a, k, v, x);
        assert Lookup(s, x) == ModelLookup(s, x);
      }
    }
  }

  lemma StoresUnmoved(s: State, u: State, a: nat, k: Key, v: Option<Val>)
    requires Shape(s) && Shape(u) && Stores(s, u, a, k, v) && Unmoved(s)
    ensures Unmoved(u)
  {
    if Prior(u).Some? {
      var o := Prior(u).value;
      assert ArrayOk(s, s.current) && ArrayOk(s, o);
      forall x | x in Content(u, LocOf(u, u.current, x)) && LocOf(u, o, x) !in u.killed
        ensures x !in Content(u, LocOf(u, o, x)) && BeingMoved(u, LocOf(u, o, x))
      {
        assert LocOf(u, o, x) == LocOf(s, o, x) && LocOf(u, u.current, x) == LocOf(s, s.current, x);
        assert BeingMoved(s, LocOf(s, o, x)) <==> BeingMoved(u, LocOf(u, o, x));
        if x != k || a == o {
          assert x in Content(s, LocOf(s, s.current, x));
        }
      }
    }
  }

  lemma StoreKeeps(s: State, u: State, a: nat, k: Key, v: Option<Val>)
    requires Inv(s) && Stores(s, u, a, k, v)
    ensures Inv(u)
  {
    ShapeOf(s, u);
    StoresPlaced(s, u, a, k, v);
    StoresOneMap(s, u, a, k, v);
    StoresUnmoved(s, u, a, k, v);
    DataEffectKeeps(s, u);
  }

  /** What an operation does to the map. */
  function Outcome(model: map<Key, Val>, op: Op): map<Key, Val> {
    match op
    case Insert(k, v) => if k in model then model else model[k := v]
    case Get(_) => model
    case Remove(k) => model - {k}
  }

  /** The bucket the thread has locked may be changed together with the map. */
  lemma MayStore(s: State, t: nat)
    requires Inv(s) && t in s.threads && s.threads[t].Accessing?
    ensures var pc := s.threads[t];
            && pc.a in s.arrays && s.arrays[pc.a].log <= BITS
            && LocOf(s, pc.a, pc.op.k) !in s.killed && !BeingMoved(s, LocOf(s, pc.a, pc.op.k))
            && Ready(s, pc.a, pc.op.k) && (pc.a == s.current || Prior(s) == Some(pc.a))
  {
    var pc := s.threads[t];
    assert PcOk(s, pc);
    AccessSeesModel(s, t);
    assert Holds(s, pc, LocOf(s, pc.a, pc.op.k));
  }

  /** The state without the record that `t` has used its bucket. */
  function Used(s: State, t: nat, l: Loc): State
    requires t in s.threads && s.threads[t].Accessing?
  {
    Accessed(s, t, l).(threads := s.threads)
  }

  lemma NothingRemoved<K, V>(m: map<K, V>, k: K)
    ensures k !in m ==> m - {k} == m
  {
  }

  lemma AccessModel(s: State, t: nat)
    requires Inv(s) && t in s.threads && s.threads[t].Accessing? && s.threads[t].a in s.arrays
    requires s.arrays[s.threads[t].a].log <= BITS
    ensures Used(s, t, LocOf(s, s.threads[t].a, s.threads[t].op.k)).model == Outcome(s.model, s.threads[t].op)
  {
    AccessSeesModel(s, t);
    NothingRemoved(s.model, s.threads[t].op.k);
  }

  lemma AccessStores(s: State, t: nat)
    requires Inv(s) && t in s.threads && s.threads[t].Accessing? && s.threads[t].a in s.arrays
    requires s.arrays[s.threads[t].a].log <= BITS
    ensures Inv(Used(s, t, LocOf(s, s.threads[t].a, s.threads[t].op.k)))
  {
    var pc := s.threads[t];
    var u := Used(s, t, LocOf(s, pc.a, pc.op.k));
    MayStore(s, t);
    if u != s {
      var v := if pc.op.Insert? then Some(pc.op.v) else None;
      assert Stores(s, u, pc.a, pc.op.k, v);
      StoreKeeps(s, u, pc.a, pc.op.k, v);
    }
  }

  lemma LeaveAfterAccess(m: State, t: nat, q: Pc)
    requires Locks(m) && t in m.threads && m.threads[t].Accessing? && PcOk(m, m.threads[t])
    requires q.Leaving? && q.op == m.threads[t].op && q.a == m.threads[t].a
    ensures LockEffect(m, WithPc(m, t, q), t)
  {
    KeepsLocks(m, t, q);
  }

  lemma AccessShape(s: State, t: nat, l: Loc)
    requires t in s.threads && s.threads[t].Accessing?
    ensures var u, m, pc := Accessed(s, t, l), Used(s, t, l), s.threads[t];
            && t in u.threads && u == WithPc(m, t, u.threads[t]) && m.threads == s.threads
            && u.threads[t].Leaving? && u.threads[t].op == pc.op && u.threads[t].a == pc.a
  {
  }

  lemma AccessKeeps(s: State, t: nat, l: Loc)
    requires Inv(s) && t in s.threads && s.threads[t].Accessing? && s.threads[t].a in s.arrays
    requires s.arrays[s.threads[t].a].log <= BITS && l == LocOf(s, s.threads[t].a, s.threads[t].op.k)
    ensures Inv(Accessed(s, t, l))
  {
    AccessStores(s, t);
    AccessShape(s, t, l);
    AccessLeaves(Used(s, t, l), t, Accessed(s, t, l).threads[t]);
  }

  lemma AccessLeaves(m: State, t: nat, q: Pc)
    requires Inv(m) && t in m.threads && m.threads[t].Accessing?
    requires q.Leaving? && q.op == m.threads[t].op && q.a == m.threads[t].a
    ensures Inv(WithPc(m, t, q))
  {
    assert PcOk(m, m.threads[t]);
    LeaveAfterAccess(m, t, q);
    LockEffectKeeps(m, WithPc(m, t, q), t);
  }

  // ---------------------------------------------------------------- killing a bucket

  ghost predicate Kills(s: State, u: State, t: nat) {
    && t in s.threads && s.threads[t].Moving? && PcOk(s, s.threads[t])
    && t in u.threads && PcOk(u, u.threads[t])
    && var p := s.threads[t];
      && Content(s, Loc(p.o, p.j)) == map[]
      && u == WithPc(s.(killed := s.killed + {Loc(p.o, p.j)}), t,
                     Releasing(p.op, p.a, p.o, p.j, 0, p.held, p.claim, true))
  }

  lemma KillsThreads(s: State, u: State, t: nat)
    requires Kills(s, u, t) && Threads(s) && Locks(s)
    ensures Threads(u)
  {
    var p := s.threads[t];
    var l := Loc(p.o, p.j);
    assert Holds(s, p, l);
    forall v | v in u.threads ensures PcOk(u, u.threads[v]) {
      if v != t {
        assert PcOk(s, s.threads[v]);
        assert !Holds(s, s.threads[v], l);
        PcOkAfterKill(s, s.threads[v], l, u);
      }
    }
  }

  lemma PcOkAfterKill(s: State, pc: Pc, l: Loc, u: State)
    requires PcOk(s, pc) && !Holds(s, pc, l)
    requires u.arrays == s.arrays && u.killed == s.killed + {l} && u.current == s.current
    ensures PcOk(u, pc)
  {
  }

  lemma KillsLocks(s: State, u: State, t: nat)
    requires Kills(s, u, t) && Locks(s)
    ensures Locks(u)
  {
    var p, q := s.threads[t], u.threads[t];
    assert forall l :: Holds(s, p, l) <==> Holds(u, q, l);
    assert forall pc, l :: Holds(u, pc, l) <==> Holds(s, pc, l);
  }

  lemma KillsTable(s: State, u: State, t: nat)
    requires Kills(s, u, t) && Shape(s) && Killing(s) && Placed(s) && OneMap(s)
    ensures Shape(u) && Killing(u) && Placed(u) && OneMap(u)
  {
    ShapeOf(s, u);
    assert ArrayOk(s, s.threads[t].a);
    assert forall l :: Content(u, l) == Content(s, l);
    forall k ensures Lookup(u, k) == ModelLookup(u, k) {
      assert Lookup(s, k) == ModelLookup(s, k);
    }
  }

  lemma KillsUnmoved(s: State, u: State, t: nat)
    requires Kills(s, u, t) && Shape(s) && Shape(u) && Unmoved(s) && Locks(s)
    ensures Unmoved(u)
  {
    if Prior(u).Some? {
      var o := Prior(u).value;
      assert ArrayOk(s, s.current) && ArrayOk(s, o);
      var p := s.threads[t];
      forall x | x in Content(u, LocOf(u, u.current, x)) && LocOf(u, o, x) !in u.killed
        ensures x !in Content(u, LocOf(u, o, x)) && BeingMoved(u, LocOf(u, o, x))
      {
        var l := LocOf(s, o, x);
        assert x in Content(s, LocOf(s, s.current, x)) && l !in s.killed;
        assert BeingMoved(s, l);
        assert l != Loc(p.o, p.j);
      }
    }
  }

  lemma KillsWords(s: State, u: State, t: nat)
    requires Kills(s, u, t) && Shape(s) && Shape(u) && Words(s)
    ensures Words(u)
  {
    assert SameClaims(s.threads[t], u.threads[t]);
    forall x | x in u.arrays ensures WordOk(u, x) {
      assert WordOk(s, x);
      SameClaimants(s, u, t, x);
    }
  }

  lemma StepKills(s: State, t: nat)
    requires LogsOk(s) && StepEnabled(s, t) && s.threads[t].Moving? && PcOk(s, s.threads[t])
    ensures Kills(s, Stepped(s, t), t)
  {
  }

  lemma KillKeeps(s: State, t: nat)
    requires Inv(s) && LogsOk(s) && StepEnabled(s, t) && s.threads[t].Moving?
    ensures Inv(Stepped(s, t))
  {
    assert PcOk(s, s.threads[t]);
    var u := Stepped(s, t);
    StepKills(s, t);
    KillsThreads(s, u, t);
    KillsLocks(s, u, t);
    KillsTable(s, u, t);
    KillsUnmoved(s, u, t);
    KillsWords(s, u, t);
  }
}
