/**
  What the operations of the hash table return: each of them uses its bucket before it returns, as
  often as it should, and returns what it found there; an operation that gives up has changed nothing.
 */
module HashTableReturns {
  import opened Common
  import opened Geometry
  import opened HashTable
  import opened HashTableRuns

  /** An operation has used its bucket and found its key bound to `found`. */
  datatype Use = Use(op: Op, found: Option<Val>)

  /** How thread `t` has used buckets in a run. */
  ghost function Uses(s: State, acts: seq<Action>, t: nat): seq<Use>
    decreases |acts|
  {
    if acts == [] || !Enabled(s, acts[0]) then [] else
    (if acts[0].t == t && Used(s, acts[0]).Some? then [Use(Used(s, acts[0]).value, Found(s, acts[0]))] else [])
    + Uses(Apply(s, acts[0]), acts[1..], t)
  }

  predicate Begins(a: Action, t: nat) { (a.Begin? || a.BeginResize?) && a.t == t }

  predicate Fails(a: Action, t: nat) { (a.Fail? || a.FailMove?) && a.t == t }

  /** The uses of a look-up that found nothing and has to look again; others need not. */
  predicate Missed(op: Op, uses: seq<Use>) {
    (uses != [] ==> op.Get?) && forall i :: 0 <= i < |uses| ==> uses[i] == Use(op, None)
  }

  /** The last use has found `found`. */
  predicate Completed(op: Op, found: Option<Val>, uses: seq<Use>) {
    uses != [] && uses[|uses| - 1] == Use(op, found) && Missed(op, uses[..|uses| - 1])
  }

  /** How far a thread has come with `op`, with these uses behind it. */
  predicate Tracks(pc: Pc, op: Op, uses: seq<Use>, failed: bool) {
    match pc
    case Resting(Nothing) => false
    case Resting(GivenUp(o)) => o == op && failed && Missed(op, uses)
    case Resting(Answered(o, found)) => o == op && Completed(op, found, uses)
    case Releasing(o, _, _, _, _, _, _, done) => o == op && Missed(op, uses) && (done || failed)
    case RollingBack(o, _, _, _) => o == op && failed && Missed(op, uses)
    case Leaving(o, _, found) => o == op && Completed(op, found, uses)
    case Rechecking(o, _) => o == op && op.Get? && Completed(op, None, uses)
    case Resizing(_) => false
    case Tagging(_) => false
    case Allocating(_) => false
    case _ => pc.op == op && Missed(op, uses)
  }

  // ---------------------------------------------------------------- steps

  function OneUse(s: State, a: Action, t: nat): seq<Use>
    requires Enabled(s, a)
  {
    if a.t == t && Used(s, a).Some? then [Use(Used(s, a).value, Found(s, a))] else []
  }

  lemma AccessTracks(s: State, t: nat, op: Op, uses: seq<Use>, failed: bool)
    requires Enabled(s, Step(t)) && s.threads[t].Accessing? && Tracks(s.threads[t], op, uses, failed)
    ensures Tracks(Stepped(s, t).threads[t], op, uses + OneUse(s, Step(t), t), failed)
  {
    var all := uses + OneUse(s, Step(t), t);
    assert all[..|all| - 1] == uses;
    assert Stepped(s, t) == Accessed(s, t, LocOf(s, s.threads[t].a, op.k));
  }

  lemma RecheckTracks(op: Op, uses: seq<Use>)
    requires op.Get? && Completed(op, None, uses)
    ensures Missed(op, uses)
  {
    forall i | 0 <= i < |uses| ensures uses[i] == Use(op, None) {
      assert i < |uses| - 1 ==> uses[..|uses| - 1][i] == uses[i];
    }
  }

  lemma PlainTracks(s: State, t: nat, op: Op, uses: seq<Use>, failed: bool)
    requires Enabled(s, Step(t)) && Plain(s, s.threads[t]) && Tracks(s.threads[t], op, uses, failed)
    ensures Tracks(NextPc(s, s.threads[t]), op, uses, failed)
  {
    if s.threads[t].Rechecking? { RecheckTracks(op, uses); }
  }

  lemma ReleaseTracks(s: State, t: nat, op: Op, uses: seq<Use>, failed: bool)
    requires Enabled(s, Step(t)) && Tracks(s.threads[t], op, uses, failed)
    requires s.threads[t].Releasing? || s.threads[t].Leaving?
    ensures t in Stepped(s, t).threads && Tracks(Stepped(s, t).threads[t], op, uses, failed)
  {
  }

  lemma ClaimTracks(s: State, t: nat, op: Op, uses: seq<Use>, failed: bool)
    requires Enabled(s, Step(t)) && !Plain(s, s.threads[t]) && Tracks(s.threads[t], op, uses, failed)
    requires s.threads[t].Claiming? || s.threads[t].Walking? || s.threads[t].Dropping? || s.threads[t].RollingBack?
    ensures t in Stepped(s, t).threads && Tracks(Stepped(s, t).threads[t], op, uses, failed)
  {
  }

  lemma WorkTracks(s: State, t: nat, op: Op, uses: seq<Use>, failed: bool)
    requires Enabled(s, Step(t)) && !Plain(s, s.threads[t]) && Tracks(s.threads[t], op, uses, failed)
    requires !s.threads[t].Accessing?
    ensures t in Stepped(s, t).threads && Tracks(Stepped(s, t).threads[t], op, uses, failed)
  {
    match s.threads[t]
    case Releasing(_, _, _, _, _, _, _, _) => ReleaseTracks(s, t, op, uses, failed);
    case Leaving(_, _, _) => ReleaseTracks(s, t, op, uses, failed);
    case Claiming(_, _, _) => ClaimTracks(s, t, op, uses, failed);
    case Walking(_, _, _, _, _) => ClaimTracks(s, t, op, uses, failed);
    case Dropping(_, _, _) => ClaimTracks(s, t, op, uses, failed);
    case RollingBack(_, _, _, _) => ClaimTracks(s, t, op, uses, failed);
    case _ =>
  }

  lemma StepTracks(s: State, t: nat, op: Op, uses: seq<Use>, failed: bool)
    requires Enabled(s, Step(t)) && Tracks(s.threads[t], op, uses, failed)
    ensures t in Stepped(s, t).threads
    ensures Tracks(Stepped(s, t).threads[t], op, uses + OneUse(s, Step(t), t), failed)
  {
    var pc := s.threads[t];
    if pc.Accessing? {
      AccessTracks(s, t, op, uses, failed);
    } else {
      assert uses + OneUse(s, Step(t), t) == uses;
      if Plain(s, pc) { PlainTracks(s, t, op, uses, failed); } else { WorkTracks(s, t, op, uses, failed); }
    }
  }

  lemma ActionTracks(s: State, a: Action, t: nat, op: Op, uses: seq<Use>, failed: bool)
    requires Enabled(s, a) && !Begins(a, t) && t in s.threads && Tracks(s.threads[t], op, uses, failed)
    ensures t in Apply(s, a).threads
    ensures Tracks(Apply(s, a).threads[t], op, uses + OneUse(s, a, t), failed || Fails(a, t))
  {
    if a.Step? && a.t == t {
      StepTracks(s, t, op, uses, failed);
    } else {
      assert uses + OneUse(s, a, t) == uses;
      OtherActionTracks(s, a, t, op, uses, failed);
    }
  }

  lemma OtherActionTracks(s: State, a: Action, t: nat, op: Op, uses: seq<Use>, failed: bool)
    requires Enabled(s, a) && !Begins(a, t) && t in s.threads && Tracks(s.threads[t], op, uses, failed)
    requires !(a.Step? && a.t == t)
    ensures t in Apply(s, a).threads
    ensures Tracks(Apply(s, a).threads[t], op, uses, failed || Fails(a, t))
  {
    if a.t != t {
      OthersStay(s, a, t);
    } else {
      assert a.Move? || a.Fail? || a.FailMove?;
    }
  }

  /** An action changes the program point of its own thread only. */
  lemma OthersStay(s: State, a: Action, t: nat)
    requires Enabled(s, a) && a.t != t && t in s.threads
    ensures t in Apply(s, a).threads && Apply(s, a).threads[t] == s.threads[t]
  {
    if a.Step? { OthersStayInStep(s, a.t, t); }
  }

  lemma OthersStayInStep(s: State, v: nat, t: nat)
    requires LogsOk(s) && StepEnabled(s, v) && v != t && t in s.threads
    ensures t in Stepped(s, v).threads && Stepped(s, v).threads[t] == s.threads[t]
  {
    var pc := s.threads[v];
    if Plain(s, pc) {
    } else if pc.Accessing? {
      assert Stepped(s, v) == Accessed(s, v, LocOf(s, pc.a, pc.op.k));
    }
  }

  // ---------------------------------------------------------------- runs

  ghost predicate NeverBegins(acts: seq<Action>, t: nat) {
    forall i :: 0 <= i < |acts| ==> !Begins(acts[i], t)
  }

  ghost predicate EverFails(acts: seq<Action>, t: nat) {
    exists i :: 0 <= i < |acts| && Fails(acts[i], t)
  }

  lemma {:induction false} RunTracks(s: State, acts: seq<Action>, u: State, t: nat, op: Op, uses: seq<Use>, failed: bool)
    requires Executes(s, acts, u) && NeverBegins(acts, t)
    requires t in s.threads && Tracks(s.threads[t], op, uses, failed)
    ensures t in u.threads && Tracks(u.threads[t], op, uses + Uses(s, acts, t), failed || EverFails(acts, t))
    decreases |acts|
  {
    if acts == [] {
      assert uses + [] == uses;
    } else {
      var a, rest, m := acts[0], acts[1..], Apply(s, acts[0]);
      ActionTracks(s, a, t, op, uses, failed);
      assert !Begins(a, t) && NeverBegins(rest, t);
      RunTracks(m, rest, u, t, op, uses + OneUse(s, a, t), failed || Fails(a, t));
      UsesFirst(s, acts, t, uses);
      EverFailsRest(acts, t);
    }
  }

  lemma UsesFirst(s: State, acts: seq<Action>, t: nat, uses: seq<Use>)
    requires acts != [] && Enabled(s, acts[0])
    ensures uses + Uses(s, acts, t) == (uses + OneUse(s, acts[0], t)) + Uses(Apply(s, acts[0]), acts[1..], t)
  {
  }

  lemma EverFailsRest(acts: seq<Action>, t: nat)
    requires acts != []
    ensures EverFails(acts, t) <==> Fails(acts[0], t) || EverFails(acts[1..], t)
  {
    if EverFails(acts[1..], t) {
      var i :| 0 <= i < |acts[1..]| && Fails(acts[1..][i], t);
      assert Fails(acts[i + 1], t);
    }
    if EverFails(acts, t) && !Fails(acts[0], t) {
      var i :| 0 <= i < |acts| && Fails(acts[i], t);
      assert Fails(acts[1..][i - 1], t);
    }
  }

  /**
    Between the beginning of an operation and its return, whatever other threads do: if no attempt to
    lock a bucket fails the operation is answered. If it is answered, an insertion or a removal has
    used its bucket exactly once, a look-up once or more, finding nothing but the last time, and the
    answer is what the last use found. If it gives up, an attempt has failed, and an insertion or a
    removal has not used its bucket at all.
   */
  lemma OperationsTakeEffectOnce(s: State, t: nat, op: Op, acts: seq<Action>, u: State)
    requires Enabled(s, Begin(t, op)) && Executes(Apply(s, Begin(t, op)), acts, u)
    requires NeverBegins(acts, t) && t in u.threads && u.threads[t].Resting?
    ensures var uses, r := Uses(Apply(s, Begin(t, op)), acts, t), u.threads[t].result;
            && (!EverFails(acts, t) ==> r.Answered?)
            && (forall i :: 0 <= i < |uses| ==> uses[i].op == op && (i < |uses| - 1 ==> uses[i].found.None?))
            && (r.Answered? ==> r.op == op && uses != [] && uses[|uses| - 1].found == r.found && (op.Get? || |uses| == 1))
            && (!r.Answered? ==> r == GivenUp(op) && EverFails(acts, t) && (op.Get? || uses == []))
  {
    var m := Apply(s, Begin(t, op));
    RunTracks(m, acts, u, t, op, [], false);
    var uses := Uses(m, acts, t);
    assert [] + uses == uses;
    if u.threads[t].result.Answered? {
      forall i | 0 <= i < |uses| - 1 ensures uses[i] == Use(op, None) {
        assert uses[..|uses| - 1][i] == uses[i];
      }
    }
  }
}
