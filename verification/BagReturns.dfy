/**
  What the operations of the bag return: every value that has been claimed is on its way out with one
  thread, or has been returned by one operation, and an operation returns exactly what it has claimed.
 */
module BagReturns {
  import opened Common
  import opened Bag
  import opened BagSafety
  import opened BagSteps
  import opened BagRuns

  // ---------------------------------------------------------------- on the way out

  predicate Unread(claimed: map<nat, Val>, fetched: set<nat>, v: Val) {
    exists i :: i in claimed && i !in fetched && claimed[i] == v
  }

  /** The thread has claimed the value, and has not returned it yet. */
  predicate TakesOut(pc: Pc, v: Val) {
    match pc
    case Reading(_, w, _) => v == w
    case Clearing(_, w, _) => v == w
    case Deleting(_, got, _) => got == Some(v)
    case Detaching(_, acc) => v in acc
    case Draining(_, _, _, acc) => v in acc
    case Fetching(_, claimed, fetched, _, acc) => v in acc || Unread(claimed, fetched, v)
    case Emptying(_, _, _, acc) => v in acc
    case _ => false
  }

  /** The values that an operation has returned. */
  function Result(pc: Pc): seq<Val> {
    match pc
    case Popped(got) => if got.Some? then [got.value] else []
    case Drained(acc) => acc
    case _ => []
  }

  /** What the step claims, and for whom; what it returns, if it ends an operation. */
  ghost function Claims(s: State, a: Action): set<Val>
    requires Enabled(s, a)
  {
    Apply(s, a).handed - s.handed
  }

  ghost function Returns(s: State, a: Action): seq<Val>
    requires Enabled(s, a)
  {
    Result(PcOf(Apply(s, a), a.t))
  }

  /** No value is carried twice by the same thread. */
  ghost predicate NoTwice(pc: Pc) {
    match pc
    case Detaching(_, acc) => Distinct(acc)
    case Draining(_, _, _, acc) => Distinct(acc)
    case Fetching(_, claimed, fetched, _, acc) =>
      && Distinct(acc)
      && (forall i :: i in claimed && i !in fetched ==> claimed[i] !in acc)
      && (forall i, j :: i in claimed && j in claimed && i !in fetched && j !in fetched && claimed[i] == claimed[j] ==> i == j)
    case Emptying(_, _, _, acc) => Distinct(acc)
    case Drained(acc) => Distinct(acc)
    case _ => true
  }

  /** Values that have been claimed are on their way out with one thread, or among those returned, once. */
  ghost predicate Ledger(s: State, out: seq<Val>) {
    && (forall v :: v in s.handed <==> v in out || exists t :: t in s.threads && TakesOut(s.threads[t], v))
    && (forall t, v :: t in s.threads && TakesOut(s.threads[t], v) ==> v !in out)
    && (forall t, u, v :: t in s.threads && u in s.threads && TakesOut(s.threads[t], v) && TakesOut(s.threads[u], v) ==> t == u)
    && Distinct(out)
    && (forall t :: t in s.threads ==> NoTwice(s.threads[t]))
  }

  /** What thread `t` has claimed before is on its way out or returned after, and nothing else. */
  ghost predicate Balances(p: Pc, q: Pc, claims: set<Val>) {
    && (forall v :: TakesOut(q, v) || v in Result(q) <==> TakesOut(p, v) || v in claims)
    && (forall v :: v in Result(q) ==> !TakesOut(q, v))
    && NoTwice(q) && Distinct(Result(q))
  }

  lemma DistinctJoined(a: seq<Val>, b: seq<Val>)
    requires Distinct(a) && Distinct(b) && forall v :: v in b ==> v !in a
    ensures Distinct(a + b)
  {
    var c := a + b;
    forall i, j | 0 <= i < j < |c| ensures c[i] != c[j] {
      assert i < |a| ==> c[i] in a;
      assert j >= |a| ==> c[j] in b && c[j] == b[j - |a|];
      assert i >= |a| ==> c[i] == b[i - |a|];
    }
  }

  lemma LedgerBalances(s: State, u: State, t: nat, out: seq<Val>, q: Pc)
    requires Ledger(s, out) && u.threads == s.threads[t := q] && s.handed <= u.handed
    requires Balances(PcOf(s, t), q, u.handed - s.handed)
    ensures Ledger(u, out + Result(q))
  {
    var all := out + Result(q);
    var p := PcOf(s, t);
    forall v ensures v in u.handed <==> v in all || exists w :: w in u.threads && TakesOut(u.threads[w], v) {
      if v in s.handed && v !in out {
        var w :| w in s.threads && TakesOut(s.threads[w], v);
        assert w != t ==> u.threads[w] == s.threads[w];
        assert w == t ==> TakesOut(u.threads[t], v) || v in Result(q);
      }
      if TakesOut(q, v) { assert t in u.threads && TakesOut(u.threads[t], v); }
    }
    forall v | v in Result(q) ensures v !in out {
      assert TakesOut(p, v) || v !in s.handed;
    }
    DistinctJoined(out, Result(q));
    forall w, v | w in u.threads && TakesOut(u.threads[w], v) ensures v !in all {
      assert w != t ==> TakesOut(s.threads[w], v);
      assert w == t ==> TakesOut(p, v) || v !in s.handed;
    }
  }

  // ---------------------------------------------------------------- every step balances

  lemma PopBalances(s: State, t: nat)
    requires Inv(s) && StepEnabled(s, t) && PcOf(s, t).Popping?
    ensures Balances(PcOf(s, t), PcOf(PopStep(s, t), t), PopStep(s, t).handed - s.handed)
    ensures s.handed <= PopStep(s, t).handed
  {
    var Popping(a, seen, _) := PcOf(s, t);
    var full := FullSlot(seen, s.len);
    if full.Some? && s.arrays[a] == seen {
      assert ValueIn(s, a, full.value, s.slots[Slot(a, full.value)]);
    }
  }

  /** A drain that claims instances carries their values, none of them twice. */
  lemma ClaimBalances(p: Pc, q: Pc, claims: set<Val>)
    requires p.Draining? && NoTwice(p) && q.Fetching? && q == Fetching(p.a, q.claimed, {}, p.todo, p.acc)
    requires forall i :: i in q.claimed ==> q.claimed[i] in claims
    requires forall v :: v in claims ==> exists i :: i in q.claimed && q.claimed[i] == v
    requires forall i, j :: i in q.claimed && j in q.claimed && q.claimed[i] == q.claimed[j] ==> i == j
    requires forall v :: v in p.acc ==> v !in claims
    ensures Balances(p, q, claims)
  {
    forall v | v in claims ensures Unread(q.claimed, {}, v) {
      var i :| i in q.claimed && q.claimed[i] == v;
    }
  }

  /** The values of the claimed instances are as many, and new. */
  lemma ClaimedAreNew(s: State, a: nat, indices: set<nat>)
    requires Slots(s) && Kept(s) && a in s.arrays && indices <= Available(s.arrays[a])
    ensures var claimed := ValuesAt(s, a, indices);
            && (forall i :: i in claimed ==> claimed[i] in Values(s, a, indices))
            && (forall v :: v in Values(s, a, indices) ==> exists i :: i in claimed && claimed[i] == v)
            && (forall i, j :: i in claimed && j in claimed && claimed[i] == claimed[j] ==> i == j)
            && Values(s, a, indices) !! s.handed
  {
    var claimed := ValuesAt(s, a, indices);
    forall i | i in claimed ensures ValueIn(s, a, i, claimed[i]) {}
    forall v | v in Values(s, a, indices) ensures v !in s.handed && exists i :: i in claimed && claimed[i] == v {
      var i :| i in indices && Slot(a, i) in s.slots && s.slots[Slot(a, i)] == v;
      assert i in claimed && claimed[i] == v;
    }
  }

  lemma DrainBalances(s: State, t: nat)
    requires Slots(s) && Kept(s) && StepEnabled(s, t) && PcOf(s, t).Draining? && NoTwice(PcOf(s, t))
    requires forall v :: TakesOut(PcOf(s, t), v) ==> v in s.handed
    ensures Balances(PcOf(s, t), PcOf(DrainStep(s, t), t), DrainStep(s, t).handed - s.handed)
    ensures s.handed <= DrainStep(s, t).handed
  {
    var p := PcOf(s, t);
    if Available(p.seen) != {} && s.arrays[p.a] == p.seen {
      ClaimedAreNew(s, p.a, Available(p.seen));
      assert DrainStep(s, t).handed - s.handed == Values(s, p.a, Available(p.seen));
      ClaimBalances(p, PcOf(DrainStep(s, t), t), Values(s, p.a, Available(p.seen)));
    }
  }

  /** Reading a value that has been claimed changes nothing. */
  lemma ReadBalances(p: Pc, q: Pc, i: nat)
    requires p.Fetching? && NoTwice(p) && i in p.claimed && i !in p.fetched
    requires q == p.(fetched := p.fetched + {i}, acc := p.acc + [p.claimed[i]])
    ensures Balances(p, q, {})
  {
    DistinctJoined(p.acc, [p.claimed[i]]);
    forall v ensures TakesOut(q, v) <==> TakesOut(p, v) {
      if Unread(p.claimed, p.fetched, v) && !Unread(q.claimed, q.fetched, v) {
        var j :| j in p.claimed && j !in p.fetched && p.claimed[j] == v;
        assert j == i;
      }
    }
  }

  lemma AllReadBalances(p: Pc, q: Pc)
    requires p.Fetching? && NoTwice(p) && p.fetched == p.claimed.Keys && q == Emptying(p.a, p.claimed.Keys, p.todo, p.acc)
    ensures Balances(p, q, {})
  {
  }

  lemma FetchBalances(s: State, t: nat, p: Pc, q: Pc)
    requires Inv(s) && StepEnabled(s, t) && p == PcOf(s, t) && p.Fetching? && NoTwice(p) && q == PcOf(FetchStep(s, t), t)
    ensures Balances(p, q, {})
  {
    FetchKeeps(s, t);
    if q.Fetching? {
      var i :| i in p.claimed && i !in p.fetched && q == p.(fetched := p.fetched + {i}, acc := p.acc + [p.claimed[i]]);
      ReadBalances(p, q, i);
    } else {
      AllReadBalances(p, q);
    }
  }

  lemma FetchHandsNothing(s: State, t: nat)
    requires StepEnabled(s, t) && PcOf(s, t).Fetching?
    ensures FetchStep(s, t).handed == s.handed
  {
  }

  lemma OtherStepBalances(s: State, t: nat)
    requires Inv(s) && StepEnabled(s, t) && NoTwice(PcOf(s, t))
    requires !PcOf(s, t).Popping? && !PcOf(s, t).Draining? && !PcOf(s, t).Fetching?
    ensures Balances(PcOf(s, t), PcOf(Stepped(s, t), t), {}) && Stepped(s, t).handed == s.handed
  {
    assert t in s.threads ==> PcOk(s, s.threads[t]);
  }

  lemma StepBalances(s: State, t: nat)
    requires Inv(s) && StepEnabled(s, t) && NoTwice(PcOf(s, t))
    requires forall v :: TakesOut(PcOf(s, t), v) ==> v in s.handed
    ensures Balances(PcOf(s, t), PcOf(Stepped(s, t), t), Stepped(s, t).handed - s.handed) && s.handed <= Stepped(s, t).handed
  {
    var none := s.handed - s.handed;
    assert none == {};
    match PcOf(s, t)
    case Popping(_, _, _) => PopBalances(s, t);
    case Draining(_, _, _, _) => DrainBalances(s, t);
    case Fetching(_, _, _, _, _) =>
      FetchBalances(s, t, PcOf(s, t), PcOf(FetchStep(s, t), t));
      FetchHandsNothing(s, t);
    case _ => OtherStepBalances(s, t);
  }

  lemma ChoiceBalances(s: State, a: Action)
    requires Enabled(s, a) && !a.Step? && NoTwice(PcOf(s, a.t))
    ensures Balances(PcOf(s, a.t), PcOf(Apply(s, a), a.t), {}) && Apply(s, a).handed == s.handed
    ensures Apply(s, a).threads == s.threads[a.t := PcOf(Apply(s, a), a.t)]
  {
  }

  lemma OnlyItsThread(s: State, t: nat)
    requires StepEnabled(s, t)
    ensures Stepped(s, t).threads == s.threads[t := PcOf(Stepped(s, t), t)]
  {
  }

  lemma ActionBalances(s: State, a: Action)
    requires Inv(s) && Enabled(s, a) && NoTwice(PcOf(s, a.t))
    requires forall v :: TakesOut(PcOf(s, a.t), v) ==> v in s.handed
    ensures Balances(PcOf(s, a.t), PcOf(Apply(s, a), a.t), Claims(s, a)) && s.handed <= Apply(s, a).handed
    ensures Apply(s, a).threads == s.threads[a.t := PcOf(Apply(s, a), a.t)]
  {
    if a.Step? {
      StepBalances(s, a.t);
      OnlyItsThread(s, a.t);
    } else {
      ChoiceBalances(s, a);
      assert Claims(s, a) == {};
    }
  }

  // ---------------------------------------------------------------- values are returned once

  /** All that the operations of a run have returned, in the order in which they have ended. */
  ghost function Returned(s: State, acts: seq<Action>): seq<Val>
    decreases |acts|
  {
    if acts == [] || !Enabled(s, acts[0]) then [] else Returns(s, acts[0]) + Returned(Apply(s, acts[0]), acts[1..])
  }

  lemma ActionKeepsLedger(s: State, a: Action, out: seq<Val>)
    requires Inv(s) && Ledger(s, out) && Enabled(s, a)
    ensures Ledger(Apply(s, a), out + Returns(s, a))
    ensures Balances(PcOf(s, a.t), PcOf(Apply(s, a), a.t), Claims(s, a))
    ensures Apply(s, a).threads == s.threads[a.t := PcOf(Apply(s, a), a.t)]
  {
    ActionBalances(s, a);
    LedgerBalances(s, Apply(s, a), a.t, out, PcOf(Apply(s, a), a.t));
  }

  /** The ledger goes with the invariant. */
  ghost predicate Books(s: State, out: seq<Val>) { Inv(s) && PrimaryLast(s) && Ledger(s, out) }

  lemma BooksKept(s: State, a: Action, out: seq<Val>)
    requires Books(s, out) && Enabled(s, a)
    ensures Books(Apply(s, a), out + Returns(s, a))
  {
    ActionKeepsLedger(s, a, out);
    InvKept(s, a);
    PrimaryLastKept(s, a);
  }

  lemma ReturnedFirst(s: State, acts: seq<Action>, out: seq<Val>)
    requires acts != [] && Enabled(s, acts[0])
    ensures out + Returned(s, acts) == (out + Returns(s, acts[0])) + Returned(Apply(s, acts[0]), acts[1..])
  {
  }

  lemma {:induction false} RunsKeepBooks(s: State, acts: seq<Action>, u: State, out: seq<Val>)
    requires Books(s, out) && Executes(s, acts, u)
    ensures Books(u, out + Returned(s, acts))
    decreases |acts|
  {
    if acts == [] {
      assert out + [] == out;
    } else {
      BooksKept(s, acts[0], out);
      RunsKeepBooks(Apply(s, acts[0]), acts[1..], u, out + Returns(s, acts[0]));
      ReturnedFirst(s, acts, out);
    }
  }

  lemma AlwaysBooks(len: nat, acts: seq<Action>, s: State)
    requires Executes(Initial(len), acts, s)
    ensures Books(s, Returned(Initial(len), acts))
  {
    InitialInv(len);
    RunsKeepBooks(Initial(len), acts, s, []);
    assert [] + Returned(Initial(len), acts) == Returned(Initial(len), acts);
  }

  /**
    Every value that has been claimed is on its way out with exactly one thread, or has been returned
    by exactly one operation, never both; nothing else is returned.
   */
  lemma HandedIsReturnedOnce(len: nat, acts: seq<Action>, s: State, v: Val)
    requires Executes(Initial(len), acts, s)
    ensures var out := Returned(Initial(len), acts);
            && Distinct(out)
            && (v in s.handed <==> v in out || exists t :: t in s.threads && TakesOut(s.threads[t], v))
            && (forall t :: t in s.threads && TakesOut(s.threads[t], v) ==>
                  v !in out && forall u :: u in s.threads && TakesOut(s.threads[u], v) ==> u == t)
  {
    AlwaysBooks(len, acts, s);
  }

  /** With no pop and no drain under way, the values accepted are exactly those returned and those stored. */
  lemma AcceptedIsReturnedOrStored(len: nat, acts: seq<Action>, s: State, v: Val)
    requires Executes(Initial(len), acts, s) && forall t :: t in s.threads ==> AtRest(s.threads[t])
    ensures v in s.accepted <==> v in Returned(Initial(len), acts) || exists a, i :: ValueIn(s, a, i, v)
    ensures forall a, i :: ValueIn(s, a, i, v) ==> v !in Returned(Initial(len), acts)
  {
    HandedIsReturnedOnce(len, acts, s, v);
    AcceptedIsHandedOrStored(len, acts, s, v);
  }

  // ---------------------------------------------------------------- what an operation returns

  predicate Begins(a: Action, t: nat) { (a.BeginPush? || a.BeginPop? || a.BeginPopAll?) && a.t == t }

  ghost predicate NeverBegins(acts: seq<Action>, t: nat) {
    forall i :: 0 <= i < |acts| ==> !Begins(acts[i], t)
  }

  ghost predicate Pushes(s: State, pc: Pc, v: Val) {
    Carried(pc) == Some(v) || (pc == Pushed(v) && v in s.accepted)
  }

  predicate Pops(pc: Pc) {
    pc.Seeking? || pc.Popping? || pc.Reading? || pc.Clearing? || pc.Deleting? || pc.Popped?
  }

  predicate DrainsAll(pc: Pc) {
    pc.Detaching? || pc.Draining? || pc.Fetching? || pc.Emptying? || pc.Drained?
  }

  lemma PushGoesOn(s: State, a: Action, t: nat, v: Val)
    requires Threads(s) && Enabled(s, a) && a.t == t && !Begins(a, t) && Pushes(s, PcOf(s, t), v)
    ensures Pushes(Apply(s, a), PcOf(Apply(s, a), t), v)
  {
    assert PcOk(s, PcOf(s, t));
  }

  lemma PopGoesOn(s: State, a: Action, t: nat)
    requires Enabled(s, a) && a.t == t && !Begins(a, t)
    ensures Pops(PcOf(s, t)) ==> Pops(PcOf(Apply(s, a), t))
    ensures DrainsAll(PcOf(s, t)) ==> DrainsAll(PcOf(Apply(s, a), t))
  {
  }

  lemma OthersStay(s: State, a: Action, t: nat)
    requires Enabled(s, a) && a.t != t
    ensures PcOf(Apply(s, a), t) == PcOf(s, t) && s.accepted <= Apply(s, a).accepted
  {
  }

  lemma {:induction false} PushRunGoesOn(s: State, acts: seq<Action>, u: State, t: nat, v: Val, out: seq<Val>)
    requires Books(s, out) && Executes(s, acts, u) && NeverBegins(acts, t) && Pushes(s, PcOf(s, t), v)
    ensures Pushes(u, PcOf(u, t), v)
    decreases |acts|
  {
    if acts != [] {
      assert !Begins(acts[0], t) && NeverBegins(acts[1..], t);
      if acts[0].t == t { PushGoesOn(s, acts[0], t, v); } else { OthersStay(s, acts[0], t); }
      BooksKept(s, acts[0], out);
      PushRunGoesOn(Apply(s, acts[0]), acts[1..], u, t, v, out + Returns(s, acts[0]));
    }
  }

  lemma {:induction false} RunGoesOn(s: State, acts: seq<Action>, u: State, t: nat)
    requires Executes(s, acts, u) && NeverBegins(acts, t)
    ensures Pops(PcOf(s, t)) ==> Pops(PcOf(u, t))
    ensures DrainsAll(PcOf(s, t)) ==> DrainsAll(PcOf(u, t))
    decreases |acts|
  {
    if acts != [] {
      assert !Begins(acts[0], t) && NeverBegins(acts[1..], t);
      if acts[0].t == t { PopGoesOn(s, acts[0], t); } else { OthersStay(s, acts[0], t); }
      RunGoesOn(Apply(s, acts[0]), acts[1..], u, t);
    }
  }

  /** The values that thread `t` claims in a run. */
  ghost function ClaimedBy(s: State, acts: seq<Action>, t: nat): set<Val>
    decreases |acts|
  {
    if acts == [] || !Enabled(s, acts[0]) then {}
    else (if acts[0].t == t then Claims(s, acts[0]) else {}) + ClaimedBy(Apply(s, acts[0]), acts[1..], t)
  }

  /** What has been claimed is on its way out, or has been returned. */
  ghost predicate Accounts(pc: Pc, claims: set<Val>) {
    forall v :: v in claims <==> TakesOut(pc, v) || v in Result(pc)
  }

  lemma ActionAccounts(s: State, a: Action, t: nat, out: seq<Val>, claims: set<Val>)
    requires Books(s, out) && Enabled(s, a) && !Begins(a, t) && Accounts(PcOf(s, t), claims)
    ensures Accounts(PcOf(Apply(s, a), t), claims + if a.t == t then Claims(s, a) else {})
  {
    if a.t == t {
      ActionKeepsLedger(s, a, out);
      assert Result(PcOf(s, t)) == [];
    } else {
      OthersStay(s, a, t);
    }
  }

  lemma {:induction false} RunAccounts(s: State, acts: seq<Action>, u: State, t: nat, out: seq<Val>, claims: set<Val>)
    requires Books(s, out) && Executes(s, acts, u) && NeverBegins(acts, t) && Accounts(PcOf(s, t), claims)
    ensures Accounts(PcOf(u, t), claims + ClaimedBy(s, acts, t))
    decreases |acts|
  {
    if acts == [] {
      assert claims + {} == claims;
    } else {
      var a, rest, m := acts[0], acts[1..], Apply(s, acts[0]);
      assert !Begins(a, t) && NeverBegins(rest, t);
      ActionAccounts(s, a, t, out, claims);
      BooksKept(s, a, out);
      var more := if a.t == t then Claims(s, a) else {};
      RunAccounts(m, rest, u, t, out + Returns(s, a), claims + more);
      assert claims + ClaimedBy(s, acts, t) == (claims + more) + ClaimedBy(m, rest, t);
    }
  }

  /** A push that returns has put in its own value. */
  lemma PushAnswers(len: nat, before: seq<Action>, s: State, t: nat, v: Val, acts: seq<Action>, u: State)
    requires Executes(Initial(len), before, s) && Enabled(s, BeginPush(t, v))
    requires Executes(Apply(s, BeginPush(t, v)), acts, u) && NeverBegins(acts, t) && AtRest(PcOf(u, t))
    ensures PcOf(u, t) == Pushed(v) && v !in s.accepted && v in u.accepted
  {
    var m, out := Apply(s, BeginPush(t, v)), Returned(Initial(len), before);
    AlwaysBooks(len, before, s);
    BooksKept(s, BeginPush(t, v), out);
    PushRunGoesOn(m, acts, u, t, v, out + Returns(s, BeginPush(t, v)));
  }

  lemma RunAnswers(len: nat, before: seq<Action>, s: State, a: Action, acts: seq<Action>, u: State)
    requires Executes(Initial(len), before, s) && Enabled(s, a) && (a.BeginPop? || a.BeginPopAll?)
    requires Executes(Apply(s, a), acts, u) && NeverBegins(acts, a.t)
    ensures if a.BeginPop? then Pops(PcOf(u, a.t)) else DrainsAll(PcOf(u, a.t))
    ensures Accounts(PcOf(u, a.t), ClaimedBy(Apply(s, a), acts, a.t)) && NoTwice(PcOf(u, a.t))
  {
    var m, out := Apply(s, a), Returned(Initial(len), before);
    AlwaysBooks(len, before, s);
    BooksKept(s, a, out);
    RunGoesOn(m, acts, u, a.t);
    RunAccounts(m, acts, u, a.t, out + Returns(s, a), {});
    assert {} + ClaimedBy(m, acts, a.t) == ClaimedBy(m, acts, a.t);
    RunsKeepBooks(m, acts, u, out + Returns(s, a));
  }

  /** A pop returns the value that it has claimed, and nothing exactly if it has claimed nothing. */
  lemma PopAnswers(len: nat, before: seq<Action>, s: State, t: nat, acts: seq<Action>, u: State)
    requires Executes(Initial(len), before, s) && Enabled(s, BeginPop(t))
    requires Executes(Apply(s, BeginPop(t)), acts, u) && NeverBegins(acts, t) && AtRest(PcOf(u, t))
    ensures PcOf(u, t).Popped?
    ensures ClaimedBy(Apply(s, BeginPop(t)), acts, t) == if PcOf(u, t).got.Some? then {PcOf(u, t).got.value} else {}
  {
    RunAnswers(len, before, s, BeginPop(t), acts, u);
  }

  /** A drain returns all values that it has claimed, each once. */
  lemma DrainAnswers(len: nat, before: seq<Action>, s: State, t: nat, acts: seq<Action>, u: State)
    requires Executes(Initial(len), before, s) && Enabled(s, BeginPopAll(t))
    requires Executes(Apply(s, BeginPopAll(t)), acts, u) && NeverBegins(acts, t) && AtRest(PcOf(u, t))
    ensures PcOf(u, t).Drained? && Distinct(PcOf(u, t).acc)
    ensures forall v :: v in PcOf(u, t).acc <==> v in ClaimedBy(Apply(s, BeginPopAll(t)), acts, t)
  {
    RunAnswers(len, before, s, BeginPopAll(t), acts, u);
  }
}
