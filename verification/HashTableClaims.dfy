/**
  The steps that change the claim word, drop the old array or put a new array in place keep the
  invariant of the resizing hash table.
 */
module HashTableClaims {
  import opened Common
  import opened Geometry
  import opened HashTable
  import opened HashTableInv
  import opened HashTableSteps

  // ---------------------------------------------------------------- arithmetic of the claim word

  lemma {:induction false} LargeIsMultiple(n: nat)
    ensures Pow2(n) < BUCKET_LEN || Pow2(n) % BUCKET_LEN == 0
  {
    if n > 6 {
      LargeIsMultiple(n - 1);
      Pow2Monotone(6, n - 1);
    }
    assert Pow2(6) == 64;
  }

  lemma ClaimWord(word: nat, n: nat)
    requires Claimable(word, Pow2(n))
    ensures Refs(WordClaimed(word)) == Refs(word) + 1 && Next(WordClaimed(word)) == Next(word) + BUCKET_LEN
    ensures Next(word) + BUCKET_LEN <= (if Pow2(n) < BUCKET_LEN then BUCKET_LEN else Pow2(n))
  {
    LargeIsMultiple(n);
  }

  lemma FinishWord(word: nat)
    requires Refs(word) > 0
    ensures word > 0 && Refs(word - 1) == Refs(word) - 1 && Next(word - 1) == Next(word)
  {
  }

  lemma RollBackWord(word: nat, start: nat)
    requires Refs(word) > 0 && start % BUCKET_LEN == 0
    ensures WordRolledBack(word, start) >= 0
    ensures Refs(WordRolledBack(word, start)) == Refs(word) - 1
    ensures Next(WordRolledBack(word, start)) == if start < Next(word) then start else Next(word)
  {
    if word <= start { FinishWord(word); }
  }

  // ---------------------------------------------------------------- changing the word

  lemma WordShape(s: State, o: nat, word: nat)
    requires Shape(s) && o in s.arrays
    ensures Shape(WithWord(s, o, word))
  {
    var u := WithWord(s, o, word);
    forall x | x in u.arrays ensures ArrayOk(u, x) {
      assert ArrayOk(s, x);
    }
  }

  lemma WordTable(s: State, o: nat, word: nat)
    requires Shape(s) && Killing(s) && Placed(s) && OneMap(s) && o in s.arrays
    ensures var u := WithWord(s, o, word); Shape(u) && Killing(u) && Placed(u) && OneMap(u)
  {
    var u := WithWord(s, o, word);
    WordShape(s, o, word);
    assert forall l :: Content(u, l) == Content(s, l);
    forall k ensures Lookup(u, k) == ModelLookup(u, k) {
      assert Lookup(s, k) == ModelLookup(s, k);
    }
  }

  lemma WordUnmoved(s: State, o: nat, word: nat)
    requires Shape(s) && Unmoved(s) && o in s.arrays
    ensures Shape(WithWord(s, o, word)) && Unmoved(WithWord(s, o, word))
  {
    var u := WithWord(s, o, word);
    WordShape(s, o, word);
    if Prior(u).Some? {
      var r := Prior(u).value;
      assert ArrayOk(s, s.current) && ArrayOk(s, r);
      forall k | k in Content(u, LocOf(u, u.current, k)) && LocOf(u, r, k) !in u.killed
        ensures k !in Content(u, LocOf(u, r, k)) && BeingMoved(u, LocOf(u, r, k))
      {
        assert k in Content(s, LocOf(s, s.current, k)) && LocOf(s, r, k) !in s.killed;
        assert BeingMoved(s, LocOf(s, r, k));
      }
    }
  }

  lemma WordPcOk(s: State, o: nat, word: nat, pc: Pc)
    requires PcOk(s, pc) && o in s.arrays && (pc.Dropping? ==> pc.o != o)
    ensures PcOk(WithWord(s, o, word), pc)
  {
  }

  lemma WordThreads(s: State, o: nat, word: nat)
    requires Threads(s) && o in s.arrays
    requires forall t :: t in s.threads && s.threads[t].Dropping? ==> s.threads[t].o != o
    ensures Threads(WithWord(s, o, word))
  {
    forall t | t in s.threads ensures PcOk(WithWord(s, o, word), s.threads[t]) {
      WordPcOk(s, o, word, s.threads[t]);
    }
  }

  lemma WordLocks(s: State, o: nat, word: nat)
    requires Locks(s) && o in s.arrays
    ensures Locks(WithWord(s, o, word))
  {
    var u := WithWord(s, o, word);
    assert forall pc, l :: Holds(u, pc, l) <==> Holds(s, pc, l);
  }

  // ---------------------------------------------------------------- going on without locks

  ghost predicate Lockless(pc: Pc) {
    !pc.Moving? && !pc.Releasing? && !pc.Accessing? && !pc.Leaving?
  }

  lemma GoesOnLocks(s: State, t: nat, q: Pc)
    requires Locks(s) && Lockless(PcOf(s, t)) && Lockless(q)
    ensures Locks(WithPc(s, t, q))
  {
    var u := WithPc(s, t, q);
    assert forall pc, l :: Holds(u, pc, l) <==> Holds(s, pc, l);
  }

  lemma GoesOnUnmoved(s: State, t: nat, q: Pc)
    requires Shape(s) && Unmoved(s) && Lockless(PcOf(s, t))
    ensures Shape(WithPc(s, t, q)) && Unmoved(WithPc(s, t, q))
  {
    var u := WithPc(s, t, q);
    ShapeOf(s, u);
    forall l | BeingMoved(s, l) ensures BeingMoved(u, l) {
      assert s.locks[l] != t;
    }
    UnmovedKept(s, u);
  }

  lemma GoesOnThreads(s: State, t: nat, q: Pc)
    requires Threads(s) && PcOk(s, q) && !q.Allocating?
    requires q.Dropping? ==> forall v :: v in s.threads && s.threads[v].Dropping? ==> s.threads[v].a != q.a
    ensures Threads(WithPc(s, t, q))
  {
    var u := WithPc(s, t, q);
    forall v | v in u.threads ensures PcOk(u, u.threads[v]) {
      assert PcOk(s, u.threads[v]);
    }
  }

  /** A change of the word of `o` together with one thread going on. */
  lemma WordAndThread(s: State, t: nat, o: nat, word: nat, q: Pc)
    requires Inv(s) && o in s.arrays && Lockless(PcOf(s, t)) && Lockless(q) && !q.Allocating?
    requires forall v :: v in s.threads && s.threads[v].Dropping? ==> s.threads[v].o != o
    requires PcOk(WithWord(s, o, word), q)
    requires q.Dropping? ==> forall v :: v in s.threads && s.threads[v].Dropping? ==> s.threads[v].a != q.a
    requires Shape(WithPc(WithWord(s, o, word), t, q)) ==> Words(WithPc(WithWord(s, o, word), t, q))
    ensures Inv(WithPc(WithWord(s, o, word), t, q))
  {
    var m := WithWord(s, o, word);
    WordTable(s, o, word);
    WordUnmoved(s, o, word);
    WordThreads(s, o, word);
    WordLocks(s, o, word);
    SameTable(m, WithPc(m, t, q));
    GoesOnLocks(m, t, q);
    GoesOnUnmoved(m, t, q);
    GoesOnThreads(m, t, q);
  }

  // ---------------------------------------------------------------- claims

  /** A thread that has a claim on `o` is counted by the reference count of `o`. */
  lemma ClaimantIsCounted(s: State, t: nat, o: nat)
    requires Shape(s) && Words(s) && t in s.threads && HasClaim(s.threads[t], o) && o in s.arrays
    ensures Refs(s.arrays[o].word) > 0 && t in Claimants(s, o)
  {
    assert WordOk(s, o);
    assert t in Claimants(s, o);
  }

  /** While there are claims on `o` nobody is about to drop it. */
  lemma NobodyDrops(s: State, o: nat)
    requires Threads(s) && o in s.arrays
    requires Refs(s.arrays[o].word) > 0 || s.arrays[o].word < NumBuckets(s, o)
    ensures forall v :: v in s.threads && s.threads[v].Dropping? ==> s.threads[v].o != o
  {
    forall v | v in s.threads && s.threads[v].Dropping? ensures s.threads[v].o != o {
      assert PcOk(s, s.threads[v]);
    }
  }

  /** An array with a claim on it, or with ranges left to claim, is attached to the current array. */
  lemma BusyIsAttached(s: State, a: nat, o: nat)
    requires Shape(s) && Words(s) && Linked(s, a, o)
    requires Refs(s.arrays[o].word) > 0 || s.arrays[o].word < NumBuckets(s, o)
    ensures a == s.current && Prior(s) == Some(o)
  {
    assert ArrayOk(s, a) && ArrayOk(s, s.current);
  }

  /** What thread `t` going on means for the claims on the arrays. */
  ghost predicate OtherClaimsStay(s: State, u: State, t: nat, o: nat) {
    && t in u.threads && u.threads == s.threads[t := u.threads[t]] && u.killed == s.killed
    && o in s.arrays && o in u.arrays && u.arrays == s.arrays[o := u.arrays[o]] && u.current == s.current
    && u.arrays[o] == s.arrays[o].(word := u.arrays[o].word)
    && (forall x :: x != o ==> !HasClaim(PcOf(s, t), x) && !HasClaim(u.threads[t], x))
  }

  lemma OtherWordOk(s: State, u: State, t: nat, o: nat, x: nat)
    requires Shape(s) && Words(s) && OtherClaimsStay(s, u, t, o) && x in s.arrays && x != o
    ensures WordOk(u, x)
  {
    assert WordOk(s, x);
    assert Claimants(u, x) == Claimants(s, x);
    forall i | Covered(s, x, i) ensures Covered(u, x, i) {
      CoverStays(s, u, t, x, i);
    }
  }

  lemma CoverStays(s: State, u: State, t: nat, x: nat, i: nat)
    requires Covered(s, x, i) && u.threads.Keys >= s.threads.Keys
    requires forall v :: v in s.threads && v != t ==> u.threads[v] == s.threads[v]
    requires !Covers(PcOf(s, t), x, i)
    ensures Covered(u, x, i)
  {
    var v :| v in s.threads && Covers(s.threads[v], x, i);
    assert v != t && Covers(u.threads[v], x, i);
  }

  lemma WordsFrom(s: State, u: State, t: nat, a: nat, o: nat)
    requires Shape(s) && Shape(u) && Words(s) && OtherClaimsStay(s, u, t, o) && WordOk(u, o)
    requires Linked(s, a, o) && a == s.current && Prior(s) == Some(o)
    ensures Words(u)
  {
    forall x | x in u.arrays ensures WordOk(u, x) {
      if x != o { OtherWordOk(s, u, t, o, x); }
    }
  }

  /** The word of the attached array changes and one thread goes on, so that claims stay counted. */
  lemma WordStepKeeps(s: State, u: State, t: nat, a: nat, o: nat, word: nat, q: Pc)
    requires Inv(s) && Linked(s, a, o) && a == s.current && Prior(s) == Some(o)
    requires u == WithPc(WithWord(s, o, word), t, q) && OtherClaimsStay(s, u, t, o) && WordOk(u, o)
    requires Lockless(PcOf(s, t)) && Lockless(q) && !q.Allocating?
    requires PcOk(WithWord(s, o, word), q)
    requires Refs(s.arrays[o].word) > 0 || s.arrays[o].word < NumBuckets(s, o)
    ensures Inv(u)
  {
    NobodyDrops(s, o);
    WordShape(s, o, word);
    ShapeOf(WithWord(s, o, word), u);
    WordsFrom(s, u, t, a, o);
    if q.Dropping? { OnlyOneDrops(s, a, o); }
    WordAndThread(s, t, o, word, q);
  }

  lemma ClaimWordOk(s: State, u: State, t: nat, o: nat)
    requires Shape(s) && Words(s) && OtherClaimsStay(s, u, t, o)
    requires !HasClaim(PcOf(s, t), o)
    requires var word := s.arrays[o].word; var q := u.threads[t];
             && Claimable(word, NumBuckets(s, o)) && u.arrays[o].word == WordClaimed(word)
             && q.Walking? && q.o == o && q.start == Next(word)
    ensures WordOk(u, o)
  {
    var word := s.arrays[o].word;
    assert WordOk(s, o);
    ClaimWord(word, s.arrays[o].log);
    assert Claimants(u, o) == Claimants(s, o) + {t};
    assert t !in Claimants(s, o);
    forall i | 0 <= i < Next(WordClaimed(word)) && i < NumBuckets(u, o)
      ensures Loc(o, i) in u.killed || Covered(u, o, i)
    {
      if i < Next(word) {
        if Covered(s, o, i) { CoverStays(s, u, t, o, i); }
      } else {
        assert Covers(u.threads[t], o, i);
      }
    }
  }

  lemma ClaimPcOk(s: State, op: Op, a: nat, o: nat, word: nat, start: nat)
    requires Linked(s, a, o)
    requires start % BUCKET_LEN == 0
    ensures PcOk(WithWord(s, o, word), Walking(op, a, o, start, start))
  {
  }

  lemma NextIsMultiple(word: nat)
    ensures Next(word) % BUCKET_LEN == 0
  {
  }

  lemma ClaimKeeps(s: State, t: nat, u: State)
    requires Inv(s) && t in s.threads && s.threads[t].Claiming? && s.threads[t].o in s.arrays
    requires var pc := s.threads[t]; var word := s.arrays[pc.o].word;
             && Claimable(word, NumBuckets(s, pc.o))
             && u == WithPc(WithWord(s, pc.o, WordClaimed(word)), t,
                            Walking(pc.op, pc.a, pc.o, Next(word), Next(word)))
    ensures Inv(u)
  {
    var pc := s.threads[t];
    assert PcOk(s, pc);
    NextIsMultiple(s.arrays[pc.o].word);
    ClaimPcOk(s, pc.op, pc.a, pc.o, WordClaimed(s.arrays[pc.o].word), Next(s.arrays[pc.o].word));
    BusyIsAttached(s, pc.a, pc.o);
    ClaimWordOk(s, u, t, pc.o);
    WordStepKeeps(s, u, t, pc.a, pc.o, WordClaimed(s.arrays[pc.o].word), u.threads[t]);
  }

  // ---------------------------------------------------------------- completing a claim

  /** A range that has been walked to its end is covered without its claim. */
  lemma FinishWordOk(s: State, u: State, t: nat, o: nat)
    requires Shape(s) && Words(s) && OtherClaimsStay(s, u, t, o)
    requires t in s.threads && PcOk(s, s.threads[t]) && !HasClaim(u.threads[t], o)
    requires var p := s.threads[t];
             p.Walking? && p.o == o && p.i >= RangeEnd(p.start, NumBuckets(s, o))
    requires s.arrays[o].word > 0 && u.arrays[o].word == s.arrays[o].word - 1
    ensures WordOk(u, o)
  {
    var p := s.threads[t];
    assert WordOk(s, o);
    ClaimantIsCounted(s, t, o);
    FinishWord(s.arrays[o].word);
    assert Claimants(u, o) == Claimants(s, o) - {t};
    forall i | 0 <= i < Next(s.arrays[o].word) && i < NumBuckets(u, o)
      ensures Loc(o, i) in u.killed || Covered(u, o, i)
    {
      if Covered(s, o, i) && !Covers(p, o, i) { CoverStays(s, u, t, o, i); }
    }
  }

  /** The last claim to be completed finds all buckets killed. */
  lemma LastFindsAllKilled(s: State, o: nat)
    requires o in s.arrays && WordOk(s, o) && Refs(s.arrays[o].word) == 0
    requires s.arrays[o].word >= NumBuckets(s, o)
    ensures AllKilled(s, o)
  {
    assert forall v :: v in s.threads && HasClaim(s.threads[v], o) ==> v in Claimants(s, o);
    forall i | 0 <= i < NumBuckets(s, o) ensures Loc(o, i) in s.killed {
      assert !Covered(s, o, i);
    }
  }

  lemma FinishPcOk(s: State, t: nat, u: State)
    requires Shape(s) && Words(s) && t in s.threads && PcOk(s, s.threads[t])
    requires s.threads[t].Walking? && s.arrays[s.threads[t].o].word > 0 && u == Finished(s, t)
    requires Prior(s) == Some(s.threads[t].o) && s.threads[t].a == s.current
    requires s.threads[t].o in u.arrays && WordOk(u, s.threads[t].o)
    ensures PcOk(WithWord(s, s.threads[t].o, s.arrays[s.threads[t].o].word - 1), u.threads[t])
  {
    var pc := s.threads[t];
    if u.threads[t].Dropping? { LastFindsAllKilled(u, pc.o); }
  }

  lemma FinishReady(s: State, t: nat, u: State)
    requires Inv(s) && t in s.threads && s.threads[t].Walking? && s.threads[t].o in s.arrays
    requires s.threads[t].i >= RangeEnd(s.threads[t].start, NumBuckets(s, s.threads[t].o))
    requires s.arrays[s.threads[t].o].word > 0 && u == Finished(s, t)
    ensures var pc := s.threads[t];
            && PcOk(s, pc) && Refs(s.arrays[pc.o].word) > 0 && WordOk(u, pc.o) && OtherClaimsStay(s, u, t, pc.o)
            && Linked(s, pc.a, pc.o) && pc.a == s.current && Prior(s) == Some(pc.o)
            && PcOk(WithWord(s, pc.o, s.arrays[pc.o].word - 1), u.threads[t])
  {
    var pc := s.threads[t];
    assert PcOk(s, pc);
    ClaimantIsCounted(s, t, pc.o);
    BusyIsAttached(s, pc.a, pc.o);
    FinishWordOk(s, u, t, pc.o);
    FinishPcOk(s, t, u);
  }

  lemma FinishKeeps(s: State, t: nat, u: State)
    requires Inv(s) && t in s.threads && s.threads[t].Walking? && s.threads[t].o in s.arrays
    requires s.threads[t].i >= RangeEnd(s.threads[t].start, NumBuckets(s, s.threads[t].o))
    requires s.arrays[s.threads[t].o].word > 0 && u == Finished(s, t)
    ensures Inv(u)
  {
    var pc := s.threads[t];
    FinishReady(s, t, u);
    WordStepKeeps(s, u, t, pc.a, pc.o, s.arrays[pc.o].word - 1, u.threads[t]);
  }

  lemma OnlyOneDrops(s: State, a: nat, o: nat)
    requires Threads(s) && Linked(s, a, o)
    requires forall v :: v in s.threads && s.threads[v].Dropping? ==> s.threads[v].o != o
    ensures forall v :: v in s.threads && s.threads[v].Dropping? ==> s.threads[v].a != a
  {
    forall v | v in s.threads && s.threads[v].Dropping? ensures s.threads[v].a != a {
      assert PcOk(s, s.threads[v]);
    }
  }

  // ---------------------------------------------------------------- giving a claim back

  lemma RollBackWordOk(s: State, u: State, t: nat, o: nat)
    requires Shape(s) && Words(s) && OtherClaimsStay(s, u, t, o)
    requires t in s.threads && !HasClaim(u.threads[t], o)
    requires var p := s.threads[t];
             && p.RollingBack? && p.o == o && p.start % BUCKET_LEN == 0
             && u.arrays[o].word == WordRolledBack(s.arrays[o].word, p.start)
    ensures WordOk(u, o)
  {
    var p := s.threads[t];
    assert WordOk(s, o);
    ClaimantIsCounted(s, t, o);
    RollBackWord(s.arrays[o].word, p.start);
    assert Claimants(u, o) == Claimants(s, o) - {t};
    forall i | 0 <= i < Next(u.arrays[o].word) && i < NumBuckets(u, o)
      ensures Loc(o, i) in u.killed || Covered(u, o, i)
    {
      if Covered(s, o, i) { CoverStays(s, u, t, o, i); }
    }
  }

  lemma RollBackKeeps(s: State, t: nat, u: State)
    requires Inv(s) && LogsOk(s) && StepEnabled(s, t) && s.threads[t].RollingBack?
    requires u == Stepped(s, t)
    ensures Inv(u)
  {
    var pc := s.threads[t];
    assert PcOk(s, pc);
    ClaimantIsCounted(s, t, pc.o);
    BusyIsAttached(s, pc.a, pc.o);
    RollBackWordOk(s, u, t, pc.o);
    WordStepKeeps(s, u, t, pc.a, pc.o, WordRolledBack(s.arrays[pc.o].word, pc.start), Resting(GivenUp(pc.op)));
  }

  /** Neither completing a claim nor giving it back takes the reference count below zero. */
  lemma WordNeverUnderflows(s: State, t: nat)
    requires Inv(s) && t in s.threads
    ensures s.threads[t].Walking? ==> s.threads[t].o in s.arrays && Refs(s.arrays[s.threads[t].o].word) > 0
    ensures s.threads[t].RollingBack? ==>
              && s.threads[t].o in s.arrays && Refs(s.arrays[s.threads[t].o].word) > 0
              && WordRolledBack(s.arrays[s.threads[t].o].word, s.threads[t].start) >= 0
  {
    var pc := s.threads[t];
    assert PcOk(s, pc);
    if pc.Walking? || pc.RollingBack? {
      ClaimantIsCounted(s, t, pc.o);
    }
    if pc.RollingBack? { RollBackWord(s.arrays[pc.o].word, pc.start); }
  }
}
