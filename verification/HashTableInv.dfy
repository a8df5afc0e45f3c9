/**
  The inductive invariant of the resizing hash table, and the effects its steps are made of.
 */
module HashTableInv {
  import opened Common
  import opened Geometry
  import opened HashTable

  // ---------------------------------------------------------------- arrays

  ghost predicate ArrayOk(s: State, x: nat)
    requires x in s.arrays
  {
    var v := s.arrays[x];
    && v.log <= BITS
    && (v.prior.Some? ==> v.prior == v.from && x == s.current)
    && v.from != Some(s.current)
    && (v.from.Some? ==>
          && v.from.value in s.arrays && v.from.value != x
          && v.log <= s.arrays[v.from.value].log + 5)
  }

  ghost predicate Shape(s: State) {
    && s.current in s.arrays
    && (forall x :: x in s.arrays ==> ArrayOk(s, x))
    && (forall x, y ::
          (x in s.arrays && y in s.arrays && s.arrays[x].from.Some? && s.arrays[x].from == s.arrays[y].from) ==>
          x == y)
  }

  /** The old array still attached to the current one. */
  ghost function Prior(s: State): Option<nat>
    requires Shape(s)
  {
    s.arrays[s.current].prior
  }

  ghost predicate AllKilled(s: State, x: nat)
    requires x in s.arrays
  {
    forall i :: 0 <= i < NumBuckets(s, x) ==> Loc(x, i) in s.killed
  }

  ghost predicate Killing(s: State)
    requires Shape(s)
  {
    && (forall l :: l in s.killed ==> Content(s, l) == map[] && l.arr != s.current && l.arr in s.arrays)
    && (forall x :: x in s.arrays && x != s.current && Some(x) != Prior(s) ==> AllKilled(s, x))
  }

  /** An array that has lost its old array has lost it for good, with all buckets killed. */
  lemma DetachedIsKilled(s: State, a: nat, o: nat)
    requires Shape(s) && Killing(s) && a in s.arrays
    requires s.arrays[a].from == Some(o) && s.arrays[a].prior.None?
    ensures AllKilled(s, o)
  {
    assert ArrayOk(s, a) && ArrayOk(s, s.current);
  }

  /** A bucket that is not killed belongs to the current array or to the one attached to it. */
  lemma AliveIsAttached(s: State, a: nat, o: nat, j: nat)
    requires Shape(s) && Killing(s) && a in s.arrays && s.arrays[a].from == Some(o)
    requires o in s.arrays && j < NumBuckets(s, o) && Loc(o, j) !in s.killed
    ensures a == s.current && Prior(s) == Some(o)
  {
    assert ArrayOk(s, a) && ArrayOk(s, s.current);
  }

  // ---------------------------------------------------------------- threads

  /** The old bucket of the key is out of use, so the bucket in `a` is the one to look at. */
  ghost predicate Ready(s: State, a: nat, k: Key) {
    && a in s.arrays && s.arrays[a].log <= BITS
    && (s.arrays[a].from.Some? ==>
          && s.arrays[a].from.value in s.arrays && s.arrays[s.arrays[a].from.value].log <= BITS
          && LocOf(s, s.arrays[a].from.value, k) in s.killed)
  }

  ghost predicate Linked(s: State, a: nat, o: nat) {
    a in s.arrays && o in s.arrays && s.arrays[a].from == Some(o) && a != o
    && s.arrays[a].log <= BITS && s.arrays[o].log <= BITS
  }

  ghost predicate KilledRange(s: State, x: nat, from: nat, to: nat)
    requires x in s.arrays
  {
    forall i :: from <= i < to && i < NumBuckets(s, x) ==> Loc(x, i) in s.killed
  }

  ghost predicate ClaimOk(s: State, o: nat, j: nat, claim: Claim, op: Op)
    requires o in s.arrays && s.arrays[o].log <= BITS
  {
    && j < NumBuckets(s, o)
    && match claim
       case Claimed(start) => start % BUCKET_LEN == 0 && start <= j < start + BUCKET_LEN && KilledRange(s, o, start, j)
       case Unclaimed => Loc(o, j) == LocOf(s, o, op.k)
  }

  ghost predicate PcOk(s: State, pc: Pc) {
    match pc
    case Resting(_) => true
    case Starting(_) => true
    case Entering(_, a) => a in s.arrays
    case Rehashing(_, a, o) => Linked(s, a, o)
    case Claiming(_, a, o) => Linked(s, a, o)
    case Walking(_, a, o, start, i) =>
      Linked(s, a, o) && start % BUCKET_LEN == 0 && start <= i && KilledRange(s, o, start, i)
    case Moving(op, a, o, j, held, claim) =>
      && Linked(s, a, o) && ClaimOk(s, o, j, claim, op) && Loc(o, j) !in s.killed
      && held <= Spread(s.arrays[o].log, s.arrays[a].log)
    case Releasing(op, a, o, j, lo, hi, claim, done) =>
      && Linked(s, a, o) && ClaimOk(s, o, j, claim, op) && lo <= hi
      && hi <= Spread(s.arrays[o].log, s.arrays[a].log)
      && (if done then Loc(o, j) in s.killed else hi == 0 && Loc(o, j) !in s.killed)
    case RollingBack(_, a, o, start) => Linked(s, a, o) && start % BUCKET_LEN == 0
    case Dropping(_, a, o) =>
      && Linked(s, a, o) && AllKilled(s, o) && s.arrays[a].prior == Some(o)
      && Refs(s.arrays[o].word) == 0 && s.arrays[o].word >= NumBuckets(s, o)
    case Settling(_, a, o) => Linked(s, a, o)
    case LockingOwn(_, a, o) => Linked(s, a, o)
    case Locking(op, a) => Ready(s, a, op.k)
    case Accessing(op, a) => Ready(s, a, op.k) && LocOf(s, a, op.k) !in s.killed
    case Leaving(op, a, _) => Ready(s, a, op.k)
    case Rechecking(_, _) => true
    case Resizing(a) => a in s.arrays
    case Tagging(a) => a in s.arrays && s.arrays[a].prior.None?
    case Allocating(a) => a == s.current && a in s.arrays && s.arrays[a].prior.None?
  }

  ghost predicate Threads(s: State) {
    && (forall t :: t in s.threads ==> PcOk(s, s.threads[t]))
    && (forall t :: t in s.threads && s.threads[t].Allocating? ==> s.resizer == Some(t))
    && (forall t, u ::
          (t in s.threads && u in s.threads && s.threads[t].Dropping? && s.threads[u].Dropping?) ==>
          (s.threads[t].a == s.threads[u].a ==> t == u))
  }

  // ---------------------------------------------------------------- locks

  /** The locks a thread holds where it is. */
  ghost predicate Holds(s: State, pc: Pc, l: Loc) {
    match pc
    case Moving(_, a, o, j, held, _) =>
      l == Loc(o, j)
      || (a in s.arrays && o in s.arrays && l.arr == a
          && Target(s, a, o, j) <= l.index < Target(s, a, o, j) + held)
    case Releasing(_, a, o, j, lo, hi, _, _) =>
      l == Loc(o, j)
      || (a in s.arrays && o in s.arrays && l.arr == a
          && Target(s, a, o, j) + lo <= l.index < Target(s, a, o, j) + hi)
    case Accessing(op, a) => a in s.arrays && s.arrays[a].log <= BITS && l == LocOf(s, a, op.k)
    case Leaving(op, a, _) => a in s.arrays && s.arrays[a].log <= BITS && l == LocOf(s, a, op.k)
    case _ => false
  }

  ghost predicate Locks(s: State) {
    && (forall l :: l in s.locks ==> s.locks[l] in s.threads && Holds(s, s.threads[s.locks[l]], l))
    && (forall t, l {:trigger Holds(s, s.threads[t], l)} ::
          t in s.threads && Holds(s, s.threads[t], l) ==> l in s.locks && s.locks[l] == t)
  }

  // ---------------------------------------------------------------- contents

  ghost predicate Placed(s: State)
    requires Shape(s)
  {
    forall l, k :: k in Content(s, l) ==>
      l.arr in s.arrays && s.arrays[l.arr].log <= BITS && l == LocOf(s, l.arr, k)
  }

  /** What the table stores under `k`: in the old array, or else in the current one. */
  ghost function Lookup(s: State, k: Key): Option<Val>
    requires Shape(s)
  {
    assert ArrayOk(s, s.current);
    var c := Content(s, LocOf(s, s.current, k));
    if Prior(s).Some? then
      assert ArrayOk(s, Prior(s).value);
      var o := Content(s, LocOf(s, Prior(s).value, k));
      if k in o then Some(o[k]) else if k in c then Some(c[k]) else None
    else if k in c then Some(c[k]) else None
  }

  ghost function ModelLookup(s: State, k: Key): Option<Val> {
    if k in s.model then Some(s.model[k]) else None
  }

  ghost predicate OneMap(s: State)
    requires Shape(s)
  {
    forall k :: Lookup(s, k) == ModelLookup(s, k)
  }

  /** `k` is both out of its old bucket and that bucket still in use: it is being relocated. */
  ghost predicate BeingMoved(s: State, l: Loc) {
    && l in s.locks && s.locks[l] in s.threads
    && var pc := s.threads[s.locks[l]];
      pc.Moving? && Loc(pc.o, pc.j) == l && pc.held > 0
  }

  ghost predicate Unmoved(s: State)
    requires Shape(s)
  {
    Prior(s).Some? ==>
      var o := Prior(s).value;
      assert ArrayOk(s, s.current) && ArrayOk(s, o);
      forall k :: k in Content(s, LocOf(s, s.current, k)) && LocOf(s, o, k) !in s.killed ==>
        k !in Content(s, LocOf(s, o, k)) && BeingMoved(s, LocOf(s, o, k))
  }

  // ---------------------------------------------------------------- claims

  ghost predicate HasClaim(pc: Pc, x: nat) {
    match pc
    case Walking(_, _, o, _, _) => o == x
    case Moving(_, _, o, _, _, claim) => o == x && claim.Claimed?
    case Releasing(_, _, o, _, _, _, claim, _) => o == x && claim.Claimed?
    case RollingBack(_, _, o, _) => o == x
    case _ => false
  }

  ghost function ClaimStart(pc: Pc): nat
    requires exists x :: HasClaim(pc, x)
  {
    match pc
    case Walking(_, _, _, start, _) => start
    case Moving(_, _, _, _, _, claim) => claim.start
    case Releasing(_, _, _, _, _, _, claim, _) => claim.start
    case RollingBack(_, _, _, start) => start
  }

  ghost function Claimants(s: State, x: nat): set<nat> {
    set t | t in s.threads && HasClaim(s.threads[t], x)
  }

  ghost predicate Covers(pc: Pc, x: nat, i: nat) {
    HasClaim(pc, x) && ClaimStart(pc) <= i < ClaimStart(pc) + BUCKET_LEN
  }

  ghost predicate Covered(s: State, x: nat, i: nat) {
    exists t :: t in s.threads && Covers(s.threads[t], x, i)
  }

  ghost predicate WordOk(s: State, x: nat)
    requires x in s.arrays
  {
    var word := s.arrays[x].word;
    && Refs(word) == |Claimants(s, x)|
    && Next(word) <= (if NumBuckets(s, x) < BUCKET_LEN then BUCKET_LEN else NumBuckets(s, x))
    && (forall i :: 0 <= i < Next(word) && i < NumBuckets(s, x) ==>
          Loc(x, i) in s.killed || Covered(s, x, i))
  }

  ghost predicate Words(s: State)
    requires Shape(s)
  {
    && (forall x :: x in s.arrays ==> WordOk(s, x))
    && s.arrays[s.current].word == 0
    && (forall x :: x in s.arrays && x != s.current && Some(x) != Prior(s) ==>
          s.arrays[x].word >= NumBuckets(s, x) && Refs(s.arrays[x].word) == 0)
  }

  ghost predicate Inv(s: State) {
    && Shape(s) && Killing(s) && Threads(s) && Locks(s)
    && Placed(s) && OneMap(s) && Unmoved(s) && Words(s)
  }

  lemma InitialInv(log: nat)
    requires log <= BITS
    ensures Inv(Initial(log))
  {
    var s := Initial(log);
    assert Claimants(s, 0) == {};
    assert WordOk(s, 0);
  }
}
