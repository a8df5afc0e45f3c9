/**
  What holds of every run of a leaf.
 */
module LeafRuns {
  import opened Common
  import opened Entries
  import opened Leaf
  import opened LeafSafety

  /** `acts` takes `s` to `t`. */
  ghost predicate Executes(s: State, acts: seq<Action>, t: State)
    decreases |acts|
  {
    if acts == [] then s == t else Enabled(s, acts[0]) && Executes(Apply(s, acts[0]), acts[1..], t)
  }

  lemma {:induction false} RunsKeepInv(s: State, acts: seq<Action>, t: State)
    requires Inv(s) && Executes(s, acts, t)
    ensures Inv(t)
    decreases |acts|
  {
    if acts != [] {
      InvKept(s, acts[0]);
      RunsKeepInv(Apply(s, acts[0]), acts[1..], t);
    }
  }

  // ---------------------------------------------------------------- what a step does to the map

  /** The entry that becomes visible in the step, if one does. */
  ghost function Adds(s: State, a: Action): Option<Entry>
    requires Enabled(s, a)
  {
    if a.Step? && s.threads[a.t].Publishing? && Apply(s, a).threads[a.t] == InsertDone(Inserted) then
      s.entries[s.threads[a.t].slot]
    else None
  }

  /** The key whose entry disappears in the step, if one does. */
  ghost function Takes(s: State, a: Action): Option<Key>
    requires Enabled(s, a)
  {
    if a.Step? && s.threads[a.t].Removing?
       && (Apply(s, a).threads[a.t] == RemoveDone(Removed) || Apply(s, a).threads[a.t] == RemoveDone(RemovedLast)) then
      Some(s.threads[a.t].k)
    else None
  }

  /** Insertion succeeds by adding an absent key, removal by taking a present one; nothing else counts. */
  lemma MapChanges(s: State, a: Action)
    requires Inv(s) && Enabled(s, a)
    ensures Adds(s, a).Some? ==> Adds(s, a).value.key !in s.model
    ensures Takes(s, a).Some? ==> Takes(s, a).value in s.model
    ensures Apply(s, a).model ==
            match Adds(s, a)
            case Some(e) => s.model[e.key := e.val]
            case None => match Takes(s, a) case Some(k) => s.model - {k} case None => s.model
  {
    if a.Step? && s.threads[a.t].Publishing? {
      PublishChanges(s, a.t);
    } else if a.Step? && s.threads[a.t].Removing? {
      RemoveChanges(s, a.t);
    }
  }

  lemma NotPublished(s: State, t: nat)
    requires SizesOk(s) && PcOf(s, t).Publishing?
    requires Contains(PcOf(s, t).seen, s.entries, s.entries[PcOf(s, t).slot].value.key) || s.meta != PcOf(s, t).seen
    ensures PublishStep(s, t).model == s.model && PublishStep(s, t).threads[t] != InsertDone(Inserted)
  {
  }

  lemma PublishChanges(s: State, t: nat)
    requires Inv(s) && Enabled(s, Step(t)) && s.threads[t].Publishing?
    ensures Adds(s, Step(t)).Some? ==> Adds(s, Step(t)).value.key !in s.model
    ensures Apply(s, Step(t)).model ==
            match Adds(s, Step(t)) case Some(e) => s.model[e.key := e.val] case None => s.model
  {
    var Publishing(slot, seen) := s.threads[t];
    var e := s.entries[slot].value;
    assert PcOk(s, s.threads[t]) && ReservedBy(s, slot, t);
    assert Apply(s, Step(t)) == PublishStep(s, t);
    if !Contains(seen, s.entries, e.key) && s.meta == seen {
      PublishKeeps(s, t, slot, e);
    } else {
      NotPublished(s, t);
    }
  }

  lemma RemoveChanges(s: State, t: nat)
    requires Inv(s) && Enabled(s, Step(t)) && s.threads[t].Removing?
    ensures Takes(s, Step(t)).Some? ==> Takes(s, Step(t)).value in s.model
    ensures Apply(s, Step(t)).model ==
            match Takes(s, Step(t)) case Some(k) => s.model - {k} case None => s.model
  {
    var Removing(k, slot, seen) := s.threads[t];
    assert PcOk(s, s.threads[t]);
    if s.meta == seen {
      assert HasKey(s.meta, s.entries, slot, k);
      RemoveKeeps(s, t, k, slot);
    }
  }

  // ---------------------------------------------------------------- ranks

  /** How many insertions have succeeded in the run. */
  ghost function Successes(s: State, acts: seq<Action>): nat
    decreases |acts|
  {
    if acts == [] || !Enabled(s, acts[0]) then 0
    else (if Adds(s, acts[0]).Some? then 1 else 0) + Successes(Apply(s, acts[0]), acts[1..])
  }

  lemma PublishedGrows(s: State, a: Action)
    requires Inv(s) && Enabled(s, a)
    ensures |Apply(s, a).published| == |s.published| + if Adds(s, a).Some? then 1 else 0
  {
    if a.Step? && s.threads[a.t].Publishing? {
      PublishStepGrows(s, a.t);
    } else if a.Step? {
      assert Apply(s, a).published == s.published;
    }
  }

  lemma PublishStepGrows(s: State, t: nat)
    requires Inv(s) && SizesOk(s) && PcOf(s, t).Publishing?
    ensures var u := PublishStep(s, t);
            |u.published| == |s.published| + if u.threads[t] == InsertDone(Inserted) then 1 else 0
  {
    var slot := s.threads[t].slot;
    assert ReservedBy(s, slot, t);
    RoomForRank(s, slot);
  }

  lemma {:induction false} PublishedCounts(s: State, acts: seq<Action>, t: State)
    requires Inv(s) && Executes(s, acts, t)
    ensures |t.published| == |s.published| + Successes(s, acts)
    decreases |acts|
  {
    if acts != [] {
      InvKept(s, acts[0]);
      PublishedGrows(s, acts[0]);
      PublishedCounts(Apply(s, acts[0]), acts[1..], t);
    }
  }

  /** A live rank is at most the number of completed insertions, and that is at most 14. */
  lemma RanksAreBounded(acts: seq<Action>, t: State, i: nat)
    requires Executes(Initial(), acts, t) && Live(t.meta, i)
    ensures t.meta.ranks[i] <= Successes(Initial(), acts) <= N < REMOVED
  {
    InitialInv();
    RunsKeepInv(Initial(), acts, t);
    PublishedCounts(Initial(), acts, t);
    FewPublished(t.published, N);
  }

  /** After any run live ranks are distinct and ordered as their keys, and the live entries are one map. */
  lemma LeafIsOneMap(acts: seq<Action>, t: State)
    requires Executes(Initial(), acts, t)
    ensures Ordered(t.meta, t.entries) && OneMap(t)
  {
    InitialInv();
    RunsKeepInv(Initial(), acts, t);
  }

  // ---------------------------------------------------------------- frozen and retired

  lemma FrozenStep(s: State, a: Action)
    requires Inv(s) && Enabled(s, a) && s.meta.frozen && !a.Thaw?
    ensures Apply(s, a).meta.frozen && Apply(s, a).model == s.model
    ensures SameLive(s.meta, s.entries, Apply(s, a).meta, Apply(s, a).entries)
  {
    if a.Step? {
      assert PcOk(s, s.threads[a.t]);
      if s.threads[a.t].RollingBack? {
        var slot := s.threads[a.t].slot;
        assert ReservedBy(s, slot, a.t);
        assert Alters(s, Apply(s, a), slot);
        AltersSameLive(s, Apply(s, a), slot);
      }
    }
  }

  /** From freezing to thawing the live entries stay, with threads in the midst of insertion and removal. */
  lemma {:induction false} FrozenIsConstant(s: State, acts: seq<Action>, t: State)
    requires Inv(s) && s.meta.frozen && Executes(s, acts, t)
    requires forall i :: 0 <= i < |acts| ==> !acts[i].Thaw?
    ensures t.meta.frozen && t.model == s.model
    ensures SameLive(s.meta, s.entries, t.meta, t.entries)
    decreases |acts|
  {
    if acts != [] {
      FrozenStep(s, acts[0]);
      InvKept(s, acts[0]);
      FrozenIsConstant(Apply(s, acts[0]), acts[1..], t);
    }
  }

  lemma RetiredStep(s: State, a: Action)
    requires Inv(s) && Enabled(s, a) && s.meta.retired
    ensures Apply(s, a).meta.retired
  {
    if a.Step? { assert PcOk(s, s.threads[a.t]); }
  }

  /** A retired leaf has no live entry and never gets one again. */
  lemma {:induction false} RetiredStaysEmpty(s: State, acts: seq<Action>, t: State)
    requires Inv(s) && s.meta.retired && Executes(s, acts, t)
    ensures t.meta.retired && t.model == map[] && forall i :: !Live(t.meta, i)
    decreases |acts|
  {
    if acts != [] {
      RetiredStep(s, acts[0]);
      InvKept(s, acts[0]);
      RetiredStaysEmpty(Apply(s, acts[0]), acts[1..], t);
    }
  }

  // ---------------------------------------------------------------- threads that go on

  /** No thread in the midst of an operation is ever blocked. */
  lemma NeverBlocked(acts: seq<Action>, s: State, t: nat)
    requires Executes(Initial(), acts, s) && !Idling(PcOf(s, t))
    ensures Enabled(s, Step(t))
  {
    InitialInv();
    RunsKeepInv(Initial(), acts, s);
    SizesFromInv(s);
  }
}
