/**
  What every run of the linked list keeps: a link only jumps over deleted entries, and every entry
  that is being cleaned up belongs to exactly one thread.
 */
module LinkedListSafety {
  import opened Common
  import opened LinkedList

  // ---------------------------------------------------------------- positions

  /** `e` stands before the target of a link; nothing stands behind the end. */
  ghost predicate BeforeTarget(s: State, e: nat, target: Option<nat>) {
    e in s.pos && (target.Some? ==> target.value in s.pos && s.pos[e] < s.pos[target.value])
  }

  /** All entries between `e` and the target are deleted. */
  ghost predicate Gap(s: State, e: nat, target: Option<nat>) {
    BeforeTarget(s, e, target)
    && forall f :: f in s.pos && s.pos[e] < s.pos[f] && BeforeTarget(s, f, target) ==> Deleted(s, f)
  }

  /** All entries from `start` on, up to but not including `at`, are deleted. */
  ghost predicate Dead(s: State, start: nat, at: Option<nat>) {
    && start in s.pos && (at.Some? ==> at.value in s.pos && s.pos[start] <= s.pos[at.value])
    && forall f :: f in s.pos && s.pos[start] <= s.pos[f] && BeforeTarget(s, f, at) ==> Deleted(s, f)
  }

  ghost predicate Positions(s: State) {
    && s.links.Keys == s.pos.Keys
    && forall e, f :: e in s.pos && f in s.pos && e != f ==> s.pos[e] != s.pos[f]
  }

  ghost predicate LinksOk(s: State) {
    forall e :: e in s.links ==> Gap(s, e, s.links[e].target)
  }

  // ---------------------------------------------------------------- claims

  function Claims(pc: Pc): seq<nat> {
    match pc
    case Walking(_, _, _, _, _, _, _, claimed) => claimed
    case Claiming(_, _, _, _, _, _, _, claimed) => claimed
    case Linking(_, _, _, _, _, _, claimed) => claimed
    case Sweeping(_, _, _, _, claimed) => claimed
    case Resetting(_, _, _, claimed) => claimed
    case _ => []
  }

  ghost predicate Owns(s: State, t: nat, e: nat) {
    t in s.threads && e in Claims(s.threads[t])
  }

  /** Entries are tagged `Both` exactly while one thread cleans them up. */
  ghost predicate Owned(s: State) {
    && (forall e :: e in s.links && s.links[e].tag.Both? ==> exists t :: Owns(s, t, e))
    && (forall t, e :: Owns(s, t, e) ==> e in s.links && s.links[e].tag.Both?)
    && (forall t, u, e :: Owns(s, t, e) && Owns(s, u, e) ==> t == u)
  }

  /** The claimed entries are linked one to the next, from `first` to `last`. */
  ghost predicate Chain(s: State, claimed: seq<nat>, first: Option<nat>, last: Option<nat>) {
    && (forall i :: 0 <= i < |claimed| ==> claimed[i] in s.links && claimed[i] in s.pos)
    && (forall i :: 0 <= i < |claimed| - 1 ==>
          s.links[claimed[i]].target == Some(claimed[i + 1]) && s.pos[claimed[i]] < s.pos[claimed[i + 1]])
    && first == (if claimed == [] then None else Some(claimed[0]))
    && last == (if claimed == [] then None else Some(claimed[|claimed| - 1]))
  }

  /** The claimed entries lie in the range that has been walked. */
  ghost predicate InRange(s: State, claimed: seq<nat>, start: nat, at: Option<nat>) {
    forall i :: 0 <= i < |claimed| ==> BeforeTarget(s, claimed[i], at) && start in s.pos && s.pos[start] <= s.pos[claimed[i]]
  }

  // ---------------------------------------------------------------- program points

  ghost predicate PcOk(s: State, pc: Pc) {
    match pc
    case Idle(_) => true
    case Pushing(self, seen, _) => self in s.links && (DeletedTag(seen.tag) ==> Deleted(s, self))
    case Walking(self, seen, start, at, first, last, ended, claimed) =>
      && self in s.links && seen.target == Some(start) && Dead(s, start, at)
      && Chain(s, claimed, first, last) && InRange(s, claimed, start, at)
      && (seen.tag.Both? ==> ended && claimed == [])
      && (at == Some(start) ==> claimed == [])
      && (!ended && last.Some? ==> s.links[last.value].target == at)
    case Claiming(self, seen, start, e, state, first, last, claimed) =>
      && self in s.links && seen.target == Some(start) && Dead(s, start, Some(e)) && !seen.tag.Both?
      && Chain(s, claimed, first, last) && InRange(s, claimed, start, Some(e))
      && Deleted(s, e) && Gap(s, e, state.target) && state.tag.Second?
      && (last.Some? ==> s.links[last.value].target == Some(e))
    case Linking(self, seen, start, next, first, last, claimed) =>
      && self in s.links && seen.target == Some(start) && Dead(s, start, next) && !seen.tag.Both?
      && Chain(s, claimed, first, last) && InRange(s, claimed, start, next)
    case Sweeping(start, next, e, last, claimed) =>
      Dead(s, start, next) && Chain(s, claimed, Some(e), Some(last)) && InRange(s, claimed, start, next)
    case Resetting(_, e, last, claimed) => Chain(s, claimed, Some(e), Some(last))
  }

  ghost predicate Threads(s: State) {
    forall t :: t in s.threads ==> PcOk(s, s.threads[t])
  }

  ghost predicate Inv(s: State) {
    Positions(s) && LinksOk(s) && Owned(s) && Threads(s)
  }

  lemma InitialInv()
    ensures Inv(Initial())
  {
  }

  // ---------------------------------------------------------------- one link changes

  /** Link of `a` becomes `link`; only `t` may have claimed `a`, and `t` goes on to `q`. */
  ghost predicate Relinks(s: State, u: State, a: nat, link: Link, t: nat, q: Pc) {
    && a in s.links && u == WithPc(WithLink(s, a, link), t, q)
    && (Deleted(s, a) ==> DeletedTag(link.tag))
    && Gap(s, a, link.target)
  }

  lemma RelinkGap(s: State, u: State, a: nat, link: Link, t: nat, q: Pc, e: nat, target: Option<nat>)
    requires Relinks(s, u, a, link, t, q) && Gap(s, e, target)
    ensures Gap(u, e, target)
  {
  }

  lemma RelinkDead(s: State, u: State, a: nat, link: Link, t: nat, q: Pc, start: nat, at: Option<nat>)
    requires Relinks(s, u, a, link, t, q) && Dead(s, start, at)
    ensures Dead(u, start, at)
  {
  }

  lemma RelinkLinks(s: State, u: State, a: nat, link: Link, t: nat, q: Pc)
    requires Relinks(s, u, a, link, t, q) && Positions(s) && LinksOk(s)
    ensures Positions(u) && LinksOk(u)
  {
    forall e | e in u.links ensures Gap(u, e, u.links[e].target) {
      RelinkGap(s, u, a, link, t, q, e, if e == a then link.target else s.links[e].target);
    }
  }

  lemma RelinkWalkingOk(s: State, u: State, a: nat, link: Link, t: nat, q: Pc, pc: Pc)
    requires Relinks(s, u, a, link, t, q) && pc.Walking? && PcOk(s, pc) && a !in Claims(pc)
    ensures PcOk(u, pc)
  {
    RelinkDead(s, u, a, link, t, q, pc.start, pc.at);
    RelinkChain(s, u, a, link, t, q, pc.claimed, pc.first, pc.last);
    assert pc.last.Some? ==> pc.last.value == pc.claimed[|pc.claimed| - 1];
  }

  lemma RelinkPcOk(s: State, u: State, a: nat, link: Link, t: nat, q: Pc, pc: Pc)
    requires Relinks(s, u, a, link, t, q) && PcOk(s, pc) && a !in Claims(pc)
    ensures PcOk(u, pc)
  {
    match pc
    case Walking(_, _, _, _, _, _, _, _) => RelinkWalkingOk(s, u, a, link, t, q, pc);
    case Claiming(_, _, start, e, state, first, last, claimed) =>
      RelinkDead(s, u, a, link, t, q, start, Some(e));
      RelinkGap(s, u, a, link, t, q, e, state.target);
      RelinkChain(s, u, a, link, t, q, claimed, first, last);
    case Linking(_, _, start, next, first, last, claimed) =>
      RelinkDead(s, u, a, link, t, q, start, next);
      RelinkChain(s, u, a, link, t, q, claimed, first, last);
    case Sweeping(start, next, e, last, claimed) =>
      RelinkDead(s, u, a, link, t, q, start, next);
      RelinkChain(s, u, a, link, t, q, claimed, Some(e), Some(last));
    case Resetting(_, e, last, claimed) => RelinkChain(s, u, a, link, t, q, claimed, Some(e), Some(last));
    case _ =>
  }

  lemma RelinkChain(s: State, u: State, a: nat, link: Link, t: nat, q: Pc,
                    claimed: seq<nat>, first: Option<nat>, last: Option<nat>)
    requires Relinks(s, u, a, link, t, q) && Chain(s, claimed, first, last) && a !in claimed
    ensures Chain(u, claimed, first, last)
    ensures forall i :: 0 <= i < |claimed| ==> u.links[claimed[i]] == s.links[claimed[i]]
  {
    assert forall i :: 0 <= i < |claimed| ==> claimed[i] in claimed;
  }

  lemma RelinkThreads(s: State, u: State, a: nat, link: Link, t: nat, q: Pc)
    requires Relinks(s, u, a, link, t, q) && Threads(s) && PcOk(u, q)
    requires forall v :: Owns(s, v, a) ==> v == t
    ensures Threads(u)
  {
    forall v | v in u.threads ensures PcOk(u, u.threads[v]) {
      if v != t {
        assert !Owns(s, v, a);
        RelinkPcOk(s, u, a, link, t, q, s.threads[v]);
      }
    }
  }

  /** Who owns what after thread `t` has claimed or released `a`. */
  lemma RelinkOwned(s: State, u: State, a: nat, link: Link, t: nat, q: Pc)
    requires Relinks(s, u, a, link, t, q) && Owned(s)
    requires forall v :: Owns(s, v, a) ==> v == t
    requires link.tag.Both? <==> a in Claims(q)
    requires forall e :: e != a ==> (e in Claims(q) <==> e in Claims(PcOf(s, t)))
    ensures Owned(u)
  {
    forall e | e in u.links && u.links[e].tag.Both? ensures exists v :: Owns(u, v, e) {
      if e == a {
        assert Owns(u, t, e);
      } else {
        var v :| Owns(s, v, e);
        assert Owns(u, v, e);
      }
    }
    forall v, e | Owns(u, v, e)
      ensures e in u.links && u.links[e].tag.Both? && (e != a ==> Owns(s, v, e)) && (e == a ==> v == t)
    {
      assert e != a ==> Owns(s, v, e);
      assert e == a && v != t ==> Owns(s, v, a);
    }
  }

  lemma RelinkKeeps(s: State, u: State, a: nat, link: Link, t: nat, q: Pc)
    requires Inv(s) && Relinks(s, u, a, link, t, q) && PcOk(u, q)
    requires forall v :: Owns(s, v, a) ==> v == t
    requires link.tag.Both? <==> a in Claims(q)
    requires forall e :: e != a ==> (e in Claims(q) <==> e in Claims(PcOf(s, t)))
    ensures Inv(u)
  {
    RelinkLinks(s, u, a, link, t, q);
    RelinkOwned(s, u, a, link, t, q);
    RelinkThreads(s, u, a, link, t, q);
  }

  lemma GoesOn(s: State, t: nat, q: Pc)
    requires Inv(s) && PcOk(s, q) && Claims(q) == Claims(PcOf(s, t))
    ensures Inv(WithPc(s, t, q))
  {
    var u := WithPc(s, t, q);
    SamePc(s, u);
    forall v, e | true ensures Owns(u, v, e) <==> Owns(s, v, e) {}
  }

  lemma SamePc(s: State, u: State)
    requires u == s.(threads := u.threads)
    ensures Positions(s) && LinksOk(s) ==> Positions(u) && LinksOk(u)
    ensures forall pc :: PcOk(s, pc) ==> PcOk(u, pc)
  {
    assert forall e, target :: Gap(s, e, target) <==> Gap(u, e, target);
    assert forall start, at :: Dead(s, start, at) <==> Dead(u, start, at);
    forall pc | PcOk(s, pc) ensures PcOk(u, pc) {}
  }
}
