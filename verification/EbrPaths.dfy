/** Runs that are put together step by step. */
module EbrPaths {
  import opened Ebr
  import opened EbrSafety

  ghost predicate Leads(u: State, t: State) {
    exists acts :: Executes(u, acts, t)
  }

  lemma {:induction false} ExecutesOneMore(s: State, acts: seq<Action>, m: State, a: Action)
    requires Executes(s, acts, m) && Enabled(m, a)
    ensures Executes(s, acts + [a], Apply(m, a))
    decreases |acts|
  {
    if acts == [] {
      assert acts + [a] == [a];
      assert Executes(Apply(m, a), [], Apply(m, a));
    } else {
      ExecutesOneMore(Apply(s, acts[0]), acts[1..], m, a);
      assert (acts + [a])[1..] == acts[1..] + [a];
    }
  }

  lemma Step(u: State, s: State, a: Action) returns (t: State)
    requires Leads(u, s) && Enabled(s, a)
    ensures t == Apply(s, a) && Leads(u, t)
  {
    t := Apply(s, a);
    var acts :| Executes(u, acts, s);
    ExecutesOneMore(u, acts, s, a);
  }
}
