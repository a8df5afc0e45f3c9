/**
  What concurrent insertions into a leaf and removals from it answer: a success has changed the map
  exactly once, and every other answer has its cause in some state the operation has met.
 */
module LeafReturns {
  import opened Common
  import opened Entries
  import opened Leaf
  import opened LeafSafety
  import opened LeafRuns

  predicate Begins(a: Action, t: nat) { (a.BeginInsert? || a.BeginRemove?) && a.t == t }

  predicate By(a: Action, t: nat) { !a.Freeze? && !a.Thaw? && a.t == t }

  ghost predicate NeverBegins(acts: seq<Action>, t: nat) {
    forall i :: 0 <= i < |acts| ==> !Begins(acts[i], t)
  }

  ghost predicate EverDeclines(acts: seq<Action>, t: nat) {
    exists i :: 0 <= i < |acts| && acts[i] == Decline(t)
  }

  /** The states that a run goes through, from the one after its first step. */
  ghost function States(s: State, acts: seq<Action>): seq<State>
    decreases |acts|
  {
    if acts == [] || !Enabled(s, acts[0]) then []
    else [Apply(s, acts[0])] + States(Apply(s, acts[0]), acts[1..])
  }

  /** What thread `t` has added to the map, and what it has taken from it. */
  ghost function Added(s: State, acts: seq<Action>, t: nat): seq<Entry>
    decreases |acts|
  {
    if acts == [] || !Enabled(s, acts[0]) then [] else AddedBy(s, acts[0], t) + Added(Apply(s, acts[0]), acts[1..], t)
  }

  ghost function AddedBy(s: State, a: Action, t: nat): seq<Entry>
    requires Enabled(s, a)
  {
    if By(a, t) && Adds(s, a).Some? then [Adds(s, a).value] else []
  }

  ghost function TakenBy(s: State, a: Action, t: nat): seq<Key>
    requires Enabled(s, a)
  {
    if By(a, t) && Takes(s, a).Some? then [Takes(s, a).value] else []
  }

  ghost function Taken(s: State, acts: seq<Action>, t: nat): seq<Key>
    decreases |acts|
  {
    if acts == [] || !Enabled(s, acts[0]) then [] else TakenBy(s, acts[0], t) + Taken(Apply(s, acts[0]), acts[1..], t)
  }

  // ---------------------------------------------------------------- entries stay

  /** `s` comes after `r`: entries that had been ranked in `r` are still there, and a retired leaf still is. */
  ghost predicate Later(r: State, s: State) {
    && Inv(r) && |s.entries| == N && r.published <= s.published && (r.meta.retired ==> s.meta.retired)
    && forall i :: i in r.published ==> i < N && s.entries[i] == r.entries[i]
  }

  lemma EntriesStay(s: State, a: Action)
    requires Inv(s) && Enabled(s, a)
    ensures Later(s, Apply(s, a))
  {
    if s.meta.retired { RetiredStep(s, a); }
    if a.Step? {
      match s.threads[a.t]
      case RollingBack(slot) => assert ReservedBy(s, slot, a.t);
      case _ =>
    }
  }

  lemma LaterStill(r: State, s: State, a: Action)
    requires Inv(s) && Enabled(s, a) && Later(r, s)
    ensures Later(r, Apply(s, a))
  {
    EntriesStay(s, a);
  }

  /** Others do not touch the thread, nor the slot that it has reserved. */
  lemma OthersStay(s: State, a: Action, t: nat)
    requires Inv(s) && Enabled(s, a) && !By(a, t)
    ensures PcOf(Apply(s, a), t) == PcOf(s, t)
    ensures Reserves(PcOf(s, t)).Some? ==>
              var slot := Reserves(PcOf(s, t)).value;
              slot < N && |Apply(s, a).entries| == N && Apply(s, a).entries[slot] == s.entries[slot]
  {
    assert t in s.threads && Reserves(s.threads[t]).Some? ==> ReservedBy(s, Reserves(s.threads[t]).value, t);
    if a.Step? {
      match s.threads[a.t]
      case RollingBack(slot) => assert ReservedBy(s, slot, a.t);
      case _ =>
    }
  }

  /** A word that has been loaded has the key exactly if the map had it then. */
  lemma SeenIsModel(r: State, s: State, k: Key)
    requires Later(r, s)
    ensures Contains(r.meta, s.entries, k) <==> k in r.model
  {
    if k in r.model {
      var i :| HasKey(r.meta, r.entries, i, k);
      assert HasKey(r.meta, s.entries, i, k);
    }
    if Contains(r.meta, s.entries, k) {
      var i :| HasKey(r.meta, s.entries, i, k);
      assert HasKey(r.meta, r.entries, i, k);
    }
  }

  // ---------------------------------------------------------------- insertions

  /** `seen` is the word of a state that has been met. */
  ghost predicate Loaded(s: State, seen: Meta, met: seq<State>) {
    exists r :: r in met && r.meta == seen && Later(r, s)
  }

  ghost predicate MetFrozen(met: seq<State>) { exists r :: r in met && r.meta.frozen }

  ghost predicate MetKey(met: seq<State>, k: Key) { exists r :: r in met && k in r.model }

  /** All slots were taken, and none of them by the key. */
  ghost predicate MetFull(met: seq<State>, k: Key) {
    exists r :: r in met && !r.meta.frozen && !r.meta.retired && k !in r.model
                && forall i :: 0 <= i < |r.meta.ranks| ==> r.meta.ranks[i] != UNINIT
  }

  /** How far a thread has come with the insertion of `e`, having met these states and added these entries. */
  ghost predicate Inserts(s: State, pc: Pc, e: Entry, met: seq<State>, added: seq<Entry>) {
    match pc
    case Reserving(k, v, seen) => e == Entry(k, v) && added == [] && Loaded(s, seen, met)
    case Publishing(slot, seen) => slot < |s.entries| && s.entries[slot] == Some(e) && added == [] && Loaded(s, seen, met)
    case RollingBack(_) => added == [] && (s.meta.retired || MetFrozen(met) || MetKey(met, e.key))
    case InsertDone(Inserted) => added == [e]
    case InsertDone(Duplicate) => added == [] && (MetFrozen(met) || MetKey(met, e.key))
    case InsertDone(Full) => added == [] && MetFull(met, e.key)
    case InsertDone(InsertFrozen) => added == [] && MetFrozen(met)
    case InsertDone(InsertRetired) => added == [] && s.meta.retired
    case _ => false
  }

  lemma LoadedStill(s: State, a: Action, seen: Meta, met: seq<State>, more: State)
    requires Inv(s) && Enabled(s, a) && Loaded(s, seen, met)
    ensures Loaded(Apply(s, a), seen, met + [more])
  {
    var r :| r in met && r.meta == seen && Later(r, s);
    LaterStill(r, s, a);
    assert r in met + [more];
  }

  lemma MoreMet(met: seq<State>, more: State, k: Key)
    ensures MetFrozen(met) ==> MetFrozen(met + [more])
    ensures MetKey(met, k) ==> MetKey(met + [more], k)
    ensures MetFull(met, k) ==> MetFull(met + [more], k)
  {
    assert forall r :: r in met ==> r in met + [more];
  }

  /** The state just reached is met, and its word may be loaded. */
  lemma JustMet(u: State, met: seq<State>)
    requires Inv(u)
    ensures Loaded(u, u.meta, met + [u])
  {
    assert u in met + [u] && Later(u, u);
  }

  lemma OtherInserts(s: State, a: Action, t: nat, e: Entry, met: seq<State>, added: seq<Entry>)
    requires Inv(s) && Enabled(s, a) && !By(a, t) && Inserts(s, PcOf(s, t), e, met, added)
    ensures Inserts(Apply(s, a), PcOf(Apply(s, a), t), e, met + [Apply(s, a)], added)
  {
    var pc := PcOf(s, t);
    OthersStay(s, a, t);
    MoreMet(met, Apply(s, a), e.key);
    if s.meta.retired { RetiredStep(s, a); }
    if pc.Reserving? || pc.Publishing? { LoadedStill(s, a, pc.seen, met, Apply(s, a)); }
  }

  /** What the loaded word says has been so. */
  lemma SeenWasMet(s: State, seen: Meta, met: seq<State>, more: State, k: Key)
    requires Inv(s) && Loaded(s, seen, met)
    ensures seen.retired ==> s.meta.retired
    ensures seen.frozen ==> MetFrozen(met + [more])
    ensures Contains(seen, s.entries, k) ==> MetKey(met + [more], k)
    ensures !Contains(seen, s.entries, k) && !seen.frozen && !seen.retired && FirstFree(seen.ranks).None? ==> MetFull(met + [more], k)
  {
    var r :| r in met && r.meta == seen && Later(r, s);
    assert r in met + [more];
    SeenIsModel(r, s, k);
  }

  /** All that can be learnt from the word that a thread has loaded, and from the one it is going to load. */
  ghost predicate Learnt(s: State, u: State, seen: Meta, met: seq<State>, k: Key) {
    && Loaded(u, u.meta, met)
    && (seen.retired ==> s.meta.retired)
    && (seen.frozen ==> MetFrozen(met))
    && (Contains(seen, s.entries, k) ==> MetKey(met, k))
    && (!Contains(seen, s.entries, k) && !seen.frozen && !seen.retired && FirstFree(seen.ranks).None? ==> MetFull(met, k))
  }

  lemma Learns(s: State, t: nat, seen: Meta, met: seq<State>, k: Key)
    requires Inv(s) && Enabled(s, Step(t)) && Loaded(s, seen, met)
    ensures Learnt(s, Apply(s, Step(t)), seen, met + [Apply(s, Step(t))], k)
  {
    SeenWasMet(s, seen, met, Apply(s, Step(t)), k);
    InvKept(s, Step(t));
    JustMet(Apply(s, Step(t)), met);
  }

  lemma ReserveInserts(s: State, t: nat, e: Entry, met: seq<State>)
    requires SizesOk(s) && PcOf(s, t).Reserving? && e == Entry(s.threads[t].k, s.threads[t].v)
    requires Learnt(s, ReserveStep(s, t), s.threads[t].seen, met, e.key)
    ensures Inserts(ReserveStep(s, t), PcOf(ReserveStep(s, t), t), e, met, [])
  {
  }

  lemma PublishInserts(s: State, t: nat, e: Entry, met: seq<State>)
    requires SizesOk(s) && PcOf(s, t).Publishing? && s.entries[s.threads[t].slot] == Some(e)
    requires Learnt(s, PublishStep(s, t), s.threads[t].seen, met, e.key)
    requires s.meta.frozen ==> MetFrozen(met)
    ensures var u := PublishStep(s, t);
            Inserts(u, PcOf(u, t), e, met, if u.threads[t] == InsertDone(Inserted) then [e] else [])
  {
  }

  lemma PublishAdds(s: State, t: nat, e: Entry)
    requires Enabled(s, Step(t)) && PcOf(s, t).Publishing? && s.entries[s.threads[t].slot] == Some(e)
    ensures AddedBy(s, Step(t), t) == if PublishStep(s, t).threads[t] == InsertDone(Inserted) then [e] else []
  {
  }

  lemma RollBackInserts(s: State, t: nat, e: Entry, met: seq<State>, added: seq<Entry>)
    requires Inv(s) && Enabled(s, Step(t)) && s.threads[t].RollingBack? && Inserts(s, s.threads[t], e, met, added)
    ensures var u := Apply(s, Step(t)); Inserts(u, u.threads[t], e, met + [u], added)
  {
    var u := Apply(s, Step(t));
    MoreMet(met, u, e.key);
    assert u in met + [u];
  }

  lemma ActionInserts(s: State, a: Action, t: nat, e: Entry, met: seq<State>, added: seq<Entry>)
    requires Inv(s) && Enabled(s, a) && !Begins(a, t) && Inserts(s, PcOf(s, t), e, met, added)
    ensures Inserts(Apply(s, a), PcOf(Apply(s, a), t), e, met + [Apply(s, a)], added + AddedBy(s, a, t))
  {
    if By(a, t) && s.threads[t].Publishing? {
      Learns(s, t, s.threads[t].seen, met, e.key);
      assert s.meta.frozen ==> Apply(s, a).meta.frozen && Apply(s, a) in met + [Apply(s, a)] by {
        if s.meta.frozen { FrozenStep(s, a); }
      }
      PublishInserts(s, t, e, met + [Apply(s, a)]);
      PublishAdds(s, t, e);
      assert added + AddedBy(s, a, t) == AddedBy(s, a, t);
    } else {
      assert added + AddedBy(s, a, t) == added;
      if !By(a, t) {
        OtherInserts(s, a, t, e, met, added);
      } else if s.threads[t].Reserving? {
        Learns(s, t, s.threads[t].seen, met, e.key);
        ReserveInserts(s, t, e, met + [Apply(s, a)]);
      } else {
        RollBackInserts(s, t, e, met, added);
      }
    }
  }

  lemma {:induction false} RunInserts(s: State, acts: seq<Action>, u: State, t: nat, e: Entry, met: seq<State>, added: seq<Entry>)
    requires Inv(s) && Executes(s, acts, u) && NeverBegins(acts, t) && Inserts(s, PcOf(s, t), e, met, added)
    ensures Inserts(u, PcOf(u, t), e, met + States(s, acts), added + Added(s, acts, t))
    decreases |acts|
  {
    if acts == [] {
      assert met + [] == met && added + [] == added;
    } else {
      var a, rest, m := acts[0], acts[1..], Apply(s, acts[0]);
      assert !Begins(a, t) && NeverBegins(rest, t);
      ActionInserts(s, a, t, e, met, added);
      InvKept(s, a);
      RunInserts(m, rest, u, t, e, met + [m], added + AddedBy(s, a, t));
      assert met + States(s, acts) == (met + [m]) + States(m, rest);
      assert added + Added(s, acts, t) == (added + AddedBy(s, a, t)) + Added(m, rest, t);
    }
  }

  /**
    Whatever other threads do, an insertion that succeeds has added its entry exactly once, and one
    that fails has added nothing. It is told that the leaf is retired only if it is, that it is frozen
    or full only if it was at some moment of the operation, full without the key, and that the key is
    there only if it was, or if the leaf was frozen for a while.
   */
  lemma InsertionAnswers(before: seq<Action>, s: State, t: nat, e: Entry, acts: seq<Action>, u: State)
    requires Executes(Initial(), before, s) && Enabled(s, BeginInsert(t, e.key, e.val))
    requires Executes(Apply(s, BeginInsert(t, e.key, e.val)), acts, u) && NeverBegins(acts, t) && Idling(PcOf(u, t))
    ensures PcOf(u, t).InsertDone?
    ensures var m := Apply(s, BeginInsert(t, e.key, e.val));
            var met, added := [m] + States(m, acts), Added(m, acts, t);
            match PcOf(u, t).insert
            case Inserted => added == [e]
            case Duplicate => added == [] && (MetKey(met, e.key) || MetFrozen(met))
            case Full => added == [] && MetFull(met, e.key)
            case InsertFrozen => added == [] && MetFrozen(met)
            case InsertRetired => added == [] && u.meta.retired
  {
    InitialInv();
    RunsKeepInv(Initial(), before, s);
    var m := Apply(s, BeginInsert(t, e.key, e.val));
    InvKept(s, BeginInsert(t, e.key, e.val));
    JustMet(m, []);
    assert [] + [m] == [m];
    RunInserts(m, acts, u, t, e, [m], []);
    assert [] + Added(m, acts, t) == Added(m, acts, t);
  }

  // ---------------------------------------------------------------- removals

  /** A removal that takes an entry is told exactly whether something is left. */
  lemma RemovalTellsWhatIsLeft(acts: seq<Action>, s: State, t: nat)
    requires Executes(Initial(), acts, s) && Enabled(s, Step(t)) && s.threads[t].Removing?
    ensures var u, k := Apply(s, Step(t)), s.threads[t].k;
            match u.threads[t]
            case RemoveDone(Removed) => k in s.model && u.model == s.model - {k} && u.model != map[] && !u.meta.retired
            case RemoveDone(RemovedLast) => k in s.model && u.model == s.model - {k} && u.model == map[] && u.meta.retired
            case _ => u.model == s.model && u.meta == s.meta
  {
    InitialInv();
    RunsKeepInv(Initial(), acts, s);
    RemoveStepTells(s, t);
  }

  lemma RemoveStepTells(s: State, t: nat)
    requires Inv(s) && Enabled(s, Step(t)) && s.threads[t].Removing?
    ensures var u, k := RemoveStep(s, t), s.threads[t].k;
            match u.threads[t]
            case RemoveDone(Removed) => k in s.model && u.model == s.model - {k} && u.model != map[] && !u.meta.retired
            case RemoveDone(RemovedLast) => k in s.model && u.model == s.model - {k} && u.model == map[] && u.meta.retired
            case _ => u.model == s.model && u.meta == s.meta
  {
    var Removing(k, slot, seen) := s.threads[t];
    var u := RemoveStep(s, t);
    assert PcOk(s, s.threads[t]);
    if s.meta == seen {
      assert HasKey(s.meta, s.entries, slot, k);
      RemoveKeeps(s, t, k, slot);
      if !OnlyLive(s.meta, slot) {
        var j :| 0 <= j < N && j != slot && IsLive(s.meta.ranks[j]);
        assert Live(u.meta, j);
        assert u.entries[j].value.key in u.model;
      }
    }
  }

  ghost predicate MetAbsent(met: seq<State>, k: Key) { exists r :: r in met && k !in r.model }

  /** How far a thread has come with the removal of `k`, having met these states and taken these keys. */
  ghost predicate Removes(s: State, pc: Pc, k: Key, met: seq<State>, taken: seq<Key>, declined: bool) {
    match pc
    case Removing(k', slot, seen) => k' == k && taken == [] && (Live(s.meta, slot) || MetAbsent(met, k))
    case RemoveDone(Removed) => taken == [k]
    case RemoveDone(RemovedLast) => taken == [k] && s.meta.retired
    case RemoveDone(NotRemoved) => taken == [] && (declined || MetAbsent(met, k))
    case RemoveDone(RemoveFrozen) => taken == [] && MetFrozen(met)
    case _ => false
  }

  lemma MoreAbsent(met: seq<State>, more: State, k: Key)
    ensures MetAbsent(met, k) ==> MetAbsent(met + [more], k)
    ensures k !in more.model ==> MetAbsent(met + [more], k)
    ensures MetFrozen(met) ==> MetFrozen(met + [more])
    ensures more.meta.frozen ==> MetFrozen(met + [more])
  {
    assert more in met + [more];
    assert forall r :: r in met ==> r in met + [more];
  }

  lemma RemovedOrLive(s: State, t: nat, slot: nat)
    requires Inv(s) && Enabled(s, Step(t)) && PcOf(s, t).Removing? && Live(s.meta, slot)
    ensures Live(RemoveStep(s, t).meta, slot) || s.entries[slot].value.key !in RemoveStep(s, t).model
  {
    assert PcOk(s, s.threads[t]);
  }

  lemma RolledBackStaysLive(s: State, t: nat, slot: nat)
    requires Inv(s) && Enabled(s, Step(t)) && PcOf(s, t).RollingBack? && Live(s.meta, slot)
    ensures Live(RollBackStep(s, t).meta, slot)
  {
    assert ReservedBy(s, s.threads[t].slot, t);
  }

  lemma ReservedStaysLive(s: State, t: nat, slot: nat)
    requires SizesOk(s) && PcOf(s, t).Reserving? && Live(s.meta, slot)
    ensures Live(ReserveStep(s, t).meta, slot)
  {
  }

  /** A live slot stays live until its key is taken out of the map. */
  lemma LiveUntilTaken(s: State, a: Action, slot: nat)
    requires Inv(s) && Enabled(s, a) && Live(s.meta, slot)
    ensures Live(Apply(s, a).meta, slot) || s.entries[slot].value.key !in Apply(s, a).model
  {
    if a.Step? {
      match s.threads[a.t]
      case Reserving(_, _, _) => ReservedStaysLive(s, a.t, slot);
      case Publishing(_, _) => PublishedStaysLive(s, a.t, slot);
      case RollingBack(_) => RolledBackStaysLive(s, a.t, slot);
      case Removing(_, _, _) => RemovedOrLive(s, a.t, slot);
      case _ =>
    }
  }

  lemma PublishedStaysLive(s: State, t: nat, slot: nat)
    requires Inv(s) && Enabled(s, Step(t)) && PcOf(s, t).Publishing? && Live(s.meta, slot)
    ensures Live(PublishStep(s, t).meta, slot)
  {
    var i := s.threads[t].slot;
    assert ReservedBy(s, i, t);
    RoomForRank(s, i);
  }

  lemma OtherRemoves(s: State, a: Action, t: nat, k: Key, met: seq<State>, taken: seq<Key>, declined: bool)
    requires Inv(s) && Enabled(s, a) && !By(a, t) && Removes(s, PcOf(s, t), k, met, taken, declined)
    ensures Removes(Apply(s, a), PcOf(Apply(s, a), t), k, met + [Apply(s, a)], taken, declined)
  {
    var pc := PcOf(s, t);
    OthersStay(s, a, t);
    MoreAbsent(met, Apply(s, a), k);
    if s.meta.retired { RetiredStep(s, a); }
    if pc.Removing? {
      assert PcOk(s, pc);
      if Live(s.meta, pc.slot) { LiveUntilTaken(s, a, pc.slot); }
    }
  }

  lemma OwnRemoves(s: State, t: nat, k: Key, met: seq<State>, taken: seq<Key>, declined: bool)
    requires Inv(s) && Enabled(s, Step(t)) && s.threads[t].Removing? && Removes(s, s.threads[t], k, met, taken, declined)
    ensures var u := RemoveStep(s, t);
            Removes(u, u.threads[t], k, met + [u], if u.threads[t] == RemoveDone(Removed) || u.threads[t] == RemoveDone(RemovedLast) then [k] else [], declined)
  {
    var Removing(_, slot, seen) := s.threads[t];
    var u := RemoveStep(s, t);
    assert PcOk(s, s.threads[t]);
    RemoveStepTells(s, t);
    MoreAbsent(met, u, k);
    assert s.meta.ranks[slot] != REMOVED ==> Live(s.meta, slot);
  }

  lemma ActionRemoves(s: State, a: Action, t: nat, k: Key, met: seq<State>, taken: seq<Key>, declined: bool)
    requires Inv(s) && Enabled(s, a) && !Begins(a, t) && Removes(s, PcOf(s, t), k, met, taken, declined)
    ensures Removes(Apply(s, a), PcOf(Apply(s, a), t), k, met + [Apply(s, a)], taken + TakenBy(s, a, t), declined || a == Decline(t))
  {
    if By(a, t) && a.Step? {
      OwnRemoves(s, t, k, met, taken, declined);
      assert taken + TakenBy(s, a, t) == TakenBy(s, a, t);
    } else {
      assert taken + TakenBy(s, a, t) == taken;
      if !By(a, t) { OtherRemoves(s, a, t, k, met, taken, declined); }
    }
  }

  lemma StatesFirst(s: State, acts: seq<Action>, met: seq<State>)
    requires acts != [] && Enabled(s, acts[0])
    ensures met + States(s, acts) == (met + [Apply(s, acts[0])]) + States(Apply(s, acts[0]), acts[1..])
  {
  }

  lemma TakenFirst(s: State, acts: seq<Action>, t: nat, taken: seq<Key>)
    requires acts != [] && Enabled(s, acts[0])
    ensures taken + Taken(s, acts, t) == (taken + TakenBy(s, acts[0], t)) + Taken(Apply(s, acts[0]), acts[1..], t)
  {
    Regrouped(taken, TakenBy(s, acts[0], t), Taken(Apply(s, acts[0]), acts[1..], t), Taken(s, acts, t));
  }

  lemma Regrouped<T>(a: seq<T>, b: seq<T>, c: seq<T>, d: seq<T>)
    requires d == b + c
    ensures a + d == (a + b) + c
  {
  }

  lemma {:induction false} RunRemoves(s: State, acts: seq<Action>, u: State, t: nat, k: Key, met: seq<State>,
                                      taken: seq<Key>, declined: bool)
    requires Inv(s) && Executes(s, acts, u) && NeverBegins(acts, t) && Removes(s, PcOf(s, t), k, met, taken, declined)
    ensures Removes(u, PcOf(u, t), k, met + States(s, acts), taken + Taken(s, acts, t), declined || EverDeclines(acts, t))
    decreases |acts|
  {
    if acts == [] {
      assert met + [] == met && taken + [] == taken;
    } else {
      var a, rest, m := acts[0], acts[1..], Apply(s, acts[0]);
      assert !Begins(a, t) && NeverBegins(rest, t);
      ActionRemoves(s, a, t, k, met, taken, declined);
      InvKept(s, a);
      RunRemoves(m, rest, u, t, k, met + [m], taken + TakenBy(s, a, t), declined || a == Decline(t));
      StatesFirst(s, acts, met);
      TakenFirst(s, acts, t, taken);
      EverDeclinesRest(acts, t);
    }
  }

  lemma EverDeclinesRest(acts: seq<Action>, t: nat)
    requires acts != []
    ensures EverDeclines(acts, t) <==> acts[0] == Decline(t) || EverDeclines(acts[1..], t)
  {
    if EverDeclines(acts[1..], t) {
      var i :| 0 <= i < |acts[1..]| && acts[1..][i] == Decline(t);
      assert acts[i + 1] == Decline(t);
    }
    if EverDeclines(acts, t) && acts[0] != Decline(t) {
      var i :| 0 <= i < |acts| && acts[i] == Decline(t);
      assert acts[1..][i - 1] == Decline(t);
    }
  }

  /**
    Whatever other threads do, a removal that succeeds has taken its key exactly once, and one that
    fails has taken nothing. It fails because the condition did not hold, or the key was absent at some
    moment of the operation, or the leaf was frozen; the last entry is reported only of a leaf that
    has retired.
   */
  lemma RemovalAnswers(before: seq<Action>, s: State, t: nat, k: Key, acts: seq<Action>, u: State)
    requires Executes(Initial(), before, s) && Enabled(s, BeginRemove(t, k))
    requires Executes(Apply(s, BeginRemove(t, k)), acts, u) && NeverBegins(acts, t) && Idling(PcOf(u, t))
    ensures PcOf(u, t).RemoveDone?
    ensures var m := Apply(s, BeginRemove(t, k));
            var met, taken := [m] + States(m, acts), Taken(m, acts, t);
            match PcOf(u, t).remove
            case Removed => taken == [k]
            case RemovedLast => taken == [k] && u.meta.retired
            case NotRemoved => taken == [] && (EverDeclines(acts, t) || MetAbsent(met, k))
            case RemoveFrozen => taken == [] && MetFrozen(met)
  {
    InitialInv();
    RunsKeepInv(Initial(), before, s);
    var m := Apply(s, BeginRemove(t, k));
    InvKept(s, BeginRemove(t, k));
    RemoveBegins(s, t, k);
    RunRemoves(m, acts, u, t, k, [m], [], false);
    assert [] + Taken(m, acts, t) == Taken(m, acts, t);
  }

  lemma RemoveBegins(s: State, t: nat, k: Key)
    requires Inv(s) && Idling(PcOf(s, t))
    ensures var m := RemoveBegun(s, t, k); Removes(m, PcOf(m, t), k, [m], [], false)
  {
    var m := RemoveBegun(s, t, k);
    assert m in [m];
    assert k in s.model ==> Contains(s.meta, s.entries, k);
  }

  // ---------------------------------------------------------------- without interference

  /** Steps of thread `t` alone lead from `s` to `u`. */
  ghost predicate AloneReaches(s: State, t: nat, u: State) {
    exists acts :: Executes(s, acts, u) && forall i :: 0 <= i < |acts| ==> acts[i] == Step(t)
  }

  lemma Stays(s: State, t: nat)
    ensures AloneReaches(s, t, s)
  {
    assert Executes(s, [], s);
  }

  lemma StepsFirst(s: State, t: nat, u: State)
    requires Enabled(s, Step(t)) && AloneReaches(Apply(s, Step(t)), t, u)
    ensures AloneReaches(s, t, u)
  {
    var acts :| Executes(Apply(s, Step(t)), acts, u) && forall i :: 0 <= i < |acts| ==> acts[i] == Step(t);
    assert ([Step(t)] + acts)[1..] == acts;
    assert Executes(s, [Step(t)] + acts, u);
  }

  ghost function InsertsAs(s: State, k: Key): InsertResult {
    if s.meta.retired then InsertRetired
    else if s.meta.frozen then InsertFrozen
    else if k in s.model then Duplicate
    else if FirstFree(s.meta.ranks).None? then Full
    else Inserted
  }

  /** The first step of an insertion that nobody interferes with reserves a slot, or is the last one. */
  lemma AloneReserves(m: State, t: nat, e: Entry)
    requires Inv(m) && PcOf(m, t) == Reserving(e.key, e.val, m.meta)
    ensures Enabled(m, Step(t)) && Apply(m, Step(t)).model == m.model
    ensures var n := Apply(m, Step(t));
            match PcOf(n, t)
            case Publishing(slot, seen) =>
              slot < |n.entries| && n.entries[slot] == Some(e) && seen == n.meta && InsertsAs(m, e.key) in {Duplicate, Inserted}
              && !m.meta.frozen && !m.meta.retired && FirstFree(m.meta.ranks).Some?
            case InsertDone(r) => r == InsertsAs(m, e.key) && !r.Inserted?
            case _ => false
  {
    SizesFromInv(m);
    SeenIsModel(m, m, e.key);
  }

  lemma AloneGoesOn(m: State, t: nat, e: Entry)
    requires Inv(m) && PcOf(m, t) == Reserving(e.key, e.val, m.meta)
    ensures exists u :: AloneReaches(m, t, u) && PcOf(u, t) == InsertDone(InsertsAs(m, e.key))
              && u.model == if InsertsAs(m, e.key).Inserted? then m.model[e.key := e.val] else m.model
  {
    AloneReserves(m, t, e);
    var n := Apply(m, Step(t));
    if PcOf(n, t).Publishing? {
      InvKept(m, Step(t));
      AlonePublishes(n, t, e);
      var u :| AloneReaches(n, t, u) && PcOf(u, t) == InsertDone(if e.key in n.model then Duplicate else Inserted)
               && u.model == if e.key in n.model then n.model else n.model[e.key := e.val];
      StepsFirst(m, t, u);
    } else {
      Stays(n, t);
      StepsFirst(m, t, n);
    }
  }

  /** An insertion that nobody interferes with: the flags come first, then the key, then the room. */
  lemma AloneInserts(acts: seq<Action>, s: State, t: nat, e: Entry)
    requires Executes(Initial(), acts, s) && Enabled(s, BeginInsert(t, e.key, e.val))
    ensures exists u :: AloneReaches(Apply(s, BeginInsert(t, e.key, e.val)), t, u)
              && PcOf(u, t) == InsertDone(InsertsAs(s, e.key))
              && u.model == if InsertsAs(s, e.key).Inserted? then s.model[e.key := e.val] else s.model
  {
    InitialInv();
    RunsKeepInv(Initial(), acts, s);
    InvKept(s, BeginInsert(t, e.key, e.val));
    AloneGoesOn(Apply(s, BeginInsert(t, e.key, e.val)), t, e);
  }

  lemma AlonePublishes(s: State, t: nat, e: Entry)
    requires Inv(s) && PcOf(s, t).Publishing? && s.threads[t].seen == s.meta
    requires s.threads[t].slot < N && s.entries[s.threads[t].slot] == Some(e)
    ensures exists u :: AloneReaches(s, t, u) && PcOf(u, t) == InsertDone(if e.key in s.model then Duplicate else Inserted)
              && u.model == if e.key in s.model then s.model else s.model[e.key := e.val]
  {
    SizesFromInv(s);
    SeenIsModel(s, s, e.key);
    assert PcOk(s, s.threads[t]);
    var n := PublishStep(s, t);
    assert Apply(s, Step(t)) == n;
    if e.key in s.model {
      InvKept(s, Step(t));
      SizesFromInv(n);
      var u := RollBackStep(n, t);
      assert Apply(n, Step(t)) == u;
      Stays(u, t);
      StepsFirst(n, t, u);
      StepsFirst(s, t, u);
    } else {
      Stays(n, t);
      StepsFirst(s, t, n);
    }
  }

  /** A removal that nobody interferes with takes the key exactly if the leaf is not frozen and has it. */
  lemma AloneRemoves(acts: seq<Action>, s: State, t: nat, k: Key)
    requires Executes(Initial(), acts, s) && Enabled(s, BeginRemove(t, k))
    ensures exists u :: AloneReaches(Apply(s, BeginRemove(t, k)), t, u) && PcOf(u, t).RemoveDone?
              && u.model == (if s.meta.frozen then s.model else s.model - {k})
              && PcOf(u, t).remove == if s.meta.frozen then RemoveFrozen else if k !in s.model then NotRemoved
                                      else if u.model == map[] then RemovedLast else Removed
  {
    InitialInv();
    RunsKeepInv(Initial(), acts, s);
    var m := Apply(s, BeginRemove(t, k));
    SeenIsModel(s, s, k);
    if PcOf(m, t).Removing? {
      InvKept(s, BeginRemove(t, k));
      SizesFromInv(m);
      var u := RemoveStep(m, t);
      assert Apply(m, Step(t)) == u;
      RemoveStepTells(m, t);
      Stays(u, t);
      StepsFirst(m, t, u);
    } else {
      assert k !in s.model ==> s.model - {k} == s.model;
      Stays(m, t);
    }
  }

  // ---------------------------------------------------------------- a duplicate of nothing

  ghost predicate NeverHas(s: State, acts: seq<Action>, k: Key) {
    !MetKey([s] + States(s, acts), k)
  }

  lemma Precedes(s: State, a: Action, acts: seq<Action>, u: State, k: Key)
    requires Enabled(s, a) && Executes(Apply(s, a), acts, u) && NeverHas(Apply(s, a), acts, k) && k !in s.model
    ensures Executes(s, [a] + acts, u) && NeverHas(s, [a] + acts, k)
  {
    assert ([a] + acts)[1..] == acts;
    var after := [Apply(s, a)] + States(Apply(s, a), acts);
    assert States(s, [a] + acts) == after;
    assert forall r :: r in [s] + after ==> r == s || r in after;
  }

  /** The leaf is thawed before the slot is given back. */
  lemma ThawedMeanwhile(s: State, k: Key)
    requires Inv(s) && PcOf(s, 0).RollingBack? && s.meta.frozen && !s.meta.retired && s.model == map[]
    ensures exists acts, u :: Executes(s, acts, u) && PcOf(u, 0) == InsertDone(Duplicate) && NeverHas(s, acts, k)
  {
    SizesFromInv(s);
    var c := Apply(s, Thaw);
    InvKept(s, Thaw);
    SizesFromInv(c);
    var d := Apply(c, Step(0));
    assert d == RollBackStep(c, 0);
    assert Executes(d, [], d) && NeverHas(d, [], k);
    Precedes(c, Step(0), [], d, k);
    Precedes(s, Thaw, [Step(0)] + [], d, k);
  }

  /** A slot is reserved, and the leaf frozen before the entry in it is ranked. */
  lemma FrozenMeanwhile(s: State, k: Key)
    requires Inv(s) && PcOf(s, 0).Publishing? && s.threads[0].seen == s.meta && s.model == map[]
    requires s.threads[0].slot < N && s.entries[s.threads[0].slot].Some? && s.entries[s.threads[0].slot].value.key == k
    ensures exists acts, u :: Executes(s, acts, u) && PcOf(u, 0) == InsertDone(Duplicate) && NeverHas(s, acts, k)
  {
    assert PcOk(s, s.threads[0]);
    SizesFromInv(s);
    SeenIsModel(s, s, k);
    var a := Apply(s, Freeze);
    InvKept(s, Freeze);
    SizesFromInv(a);
    var b := Apply(a, Step(0));
    assert b == PublishStep(a, 0) && b == WithPc(a, 0, RollingBack(s.threads[0].slot));
    InvKept(a, Step(0));
    ThawedMeanwhile(b, k);
    var acts, u :| Executes(b, acts, u) && PcOf(u, 0) == InsertDone(Duplicate) && NeverHas(b, acts, k);
    Precedes(a, Step(0), acts, u, k);
    Precedes(s, Freeze, [Step(0)] + acts, u, k);
  }

  /**
    An insertion can be told that its key is there although it never was: it meets the leaf frozen, and
    finds it thawed when it gives its slot back.
   */
  lemma DuplicateOfNothing(e: Entry)
    ensures exists acts, u :: Executes(Initial(), acts, u) && PcOf(u, 0) == InsertDone(Duplicate) && NeverHas(Initial(), acts, e.key)
  {
    InitialInv();
    var m := Apply(Initial(), BeginInsert(0, e.key, e.val));
    InvKept(Initial(), BeginInsert(0, e.key, e.val));
    FreeAtFirst(Initial().meta);
    AloneReserves(m, 0, e);
    var n := Apply(m, Step(0));
    InvKept(m, Step(0));
    FrozenMeanwhile(n, e.key);
    var acts, u :| Executes(n, acts, u) && PcOf(u, 0) == InsertDone(Duplicate) && NeverHas(n, acts, e.key);
    Precedes(m, Step(0), acts, u, e.key);
    Precedes(Initial(), BeginInsert(0, e.key, e.val), [Step(0)] + acts, u, e.key);
  }

  lemma FreeAtFirst(m: Meta)
    requires |m.ranks| > 0 && m.ranks[0] == UNINIT
    ensures FirstFree(m.ranks).Some?
  {
  }
}
