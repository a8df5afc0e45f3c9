/**
  Every step of every thread keeps the invariant of the linked list.
 */
module LinkedListSteps {
  import opened Common
  import opened LinkedList
  import opened LinkedListSafety

  // ---------------------------------------------------------------- pushing

  /** `entry` has been put in directly behind `self`. */
  ghost predicate Grows(s: State, u: State, self: nat, entry: nat, pos: real, tag: Tag) {
    && self in s.links && entry !in s.links && entry !in s.pos && !Deleted(s, self) && !DeletedTag(tag)
    && DirectlyBehind(s, self, pos)
    && u.links == s.links[entry := Link(s.links[self].target, Clear)][self := Link(Some(entry), tag)]
    && u.pos == s.pos[entry := pos]
  }

  lemma GrowGap(s: State, u: State, self: nat, entry: nat, pos: real, tag: Tag, e: nat, target: Option<nat>)
    requires Grows(s, u, self, entry, pos, tag) && Positions(s) && Gap(s, e, target) && e != self
    ensures Gap(u, e, target)
  {
    // If the new entry stood in the gap, so would `self`, which is not deleted.
    assert s.pos[e] != s.pos[self];
    assert BeforeTarget(s, self, target) ==> s.pos[self] < s.pos[e];
    forall f | f in u.pos && u.pos[e] < u.pos[f] && BeforeTarget(u, f, target) ensures Deleted(u, f) {
      if f != entry { assert BeforeTarget(s, f, target); }
    }
  }

  lemma GrowDead(s: State, u: State, self: nat, entry: nat, pos: real, tag: Tag, start: nat, at: Option<nat>)
    requires Grows(s, u, self, entry, pos, tag) && Dead(s, start, at)
    ensures Dead(u, start, at)
  {
    assert BeforeTarget(s, self, at) ==> s.pos[self] < s.pos[start];
    forall f | f in u.pos && u.pos[start] <= u.pos[f] && BeforeTarget(u, f, at) ensures Deleted(u, f) {
      if f != entry { assert BeforeTarget(s, f, at); }
    }
  }

  lemma GrowLinks(s: State, u: State, self: nat, entry: nat, pos: real, tag: Tag)
    requires Grows(s, u, self, entry, pos, tag) && Positions(s) && LinksOk(s)
    ensures Positions(u) && LinksOk(u)
  {
    assert Gap(s, self, s.links[self].target);
    GrowPositions(s, u, self, entry, pos, tag);
    forall e | e in u.links ensures Gap(u, e, u.links[e].target) {
      if e != self && e != entry {
        GrowGap(s, u, self, entry, pos, tag, e, s.links[e].target);
      } else {
        forall f | f in u.pos && u.pos[e] < u.pos[f] && BeforeTarget(u, f, u.links[e].target) ensures Deleted(u, f) {
          assert BeforeTarget(s, f, s.links[self].target) ==> Deleted(s, f);
        }
      }
    }
  }

  lemma GrowPositions(s: State, u: State, self: nat, entry: nat, pos: real, tag: Tag)
    requires Grows(s, u, self, entry, pos, tag) && Positions(s)
    ensures Positions(u)
  {
  }

  lemma GrowChain(s: State, u: State, self: nat, entry: nat, pos: real, tag: Tag,
                  claimed: seq<nat>, first: Option<nat>, last: Option<nat>)
    requires Grows(s, u, self, entry, pos, tag) && Chain(s, claimed, first, last) && self !in claimed
    ensures Chain(u, claimed, first, last)
    ensures forall i :: 0 <= i < |claimed| ==> u.links[claimed[i]] == s.links[claimed[i]]
  {
    assert forall i :: 0 <= i < |claimed| ==> claimed[i] in claimed;
  }

  lemma GrowWalkOk(s: State, u: State, self: nat, entry: nat, pos: real, tag: Tag, pc: Pc)
    requires Grows(s, u, self, entry, pos, tag) && Positions(s) && PcOk(s, pc) && self !in Claims(pc) && pc.Walking?
    ensures PcOk(u, pc)
  {
    GrowDead(s, u, self, entry, pos, tag, pc.start, pc.at);
    GrowChain(s, u, self, entry, pos, tag, pc.claimed, pc.first, pc.last);
  }

  lemma GrowClaimOk(s: State, u: State, self: nat, entry: nat, pos: real, tag: Tag, pc: Pc)
    requires Grows(s, u, self, entry, pos, tag) && Positions(s) && PcOk(s, pc) && self !in Claims(pc) && pc.Claiming?
    ensures PcOk(u, pc)
  {
    GrowDead(s, u, self, entry, pos, tag, pc.start, Some(pc.entry));
    GrowGap(s, u, self, entry, pos, tag, pc.entry, pc.state.target);
    GrowChain(s, u, self, entry, pos, tag, pc.claimed, pc.first, pc.last);
  }

  lemma GrowCleanupOk(s: State, u: State, self: nat, entry: nat, pos: real, tag: Tag, pc: Pc)
    requires Grows(s, u, self, entry, pos, tag) && Positions(s) && PcOk(s, pc) && self !in Claims(pc)
    requires pc.Linking? || pc.Sweeping? || pc.Resetting?
    ensures PcOk(u, pc)
  {
    if pc.Linking? {
      GrowDead(s, u, self, entry, pos, tag, pc.start, pc.next);
      GrowChain(s, u, self, entry, pos, tag, pc.claimed, pc.first, pc.last);
    } else {
      if pc.Sweeping? { GrowDead(s, u, self, entry, pos, tag, pc.start, pc.next); }
      GrowChain(s, u, self, entry, pos, tag, pc.claimed, Some(pc.entry), Some(pc.end));
    }
  }

  lemma GrowPcOk(s: State, u: State, self: nat, entry: nat, pos: real, tag: Tag, pc: Pc)
    requires Grows(s, u, self, entry, pos, tag) && Positions(s) && PcOk(s, pc) && self !in Claims(pc)
    ensures PcOk(u, pc)
  {
    if pc.Walking? {
      GrowWalkOk(s, u, self, entry, pos, tag, pc);
    } else if pc.Claiming? {
      GrowClaimOk(s, u, self, entry, pos, tag, pc);
    } else if pc.Linking? || pc.Sweeping? || pc.Resetting? {
      GrowCleanupOk(s, u, self, entry, pos, tag, pc);
    }
  }

  lemma GrowThreads(s: State, u: State, self: nat, entry: nat, pos: real, tag: Tag, t: nat)
    requires Grows(s, u, self, entry, pos, tag) && Positions(s) && Threads(s) && Owned(s)
    requires u.threads == s.threads[t := Idle(Accepted(entry))]
    ensures Threads(u)
  {
    forall v | v in u.threads ensures PcOk(u, u.threads[v]) {
      if v != t {
        assert !Owns(s, v, self);
        GrowPcOk(s, u, self, entry, pos, tag, s.threads[v]);
      }
    }
  }

  lemma GrowOwned(s: State, u: State, self: nat, entry: nat, pos: real, tag: Tag, t: nat)
    requires Grows(s, u, self, entry, pos, tag) && Owned(s)
    requires u.threads == s.threads[t := Idle(Accepted(entry))] && Claims(PcOf(s, t)) == []
    ensures Owned(u)
  {
    assert forall v, e :: Owns(u, v, e) <==> Owns(s, v, e);
  }

  lemma PushKeeps(s: State, t: nat, entry: nat, pos: real)
    requires Inv(s) && Enabled(s, Push(t, entry, pos))
    ensures Inv(Pushed(s, t, entry, pos))
  {
    var Pushing(self, seen, mark) := PcOf(s, t);
    var u := Pushed(s, t, entry, pos);
    if !DeletedTag(seen.tag) && s.links[self] == seen {
      var tag := if mark then First else Clear;
      assert Grows(s, u, self, entry, pos, tag);
      GrowLinks(s, u, self, entry, pos, tag);
      GrowThreads(s, u, self, entry, pos, tag, t);
      GrowOwned(s, u, self, entry, pos, tag, t);
    } else {
      GoesOn(s, t, u.threads[t]);
    }
  }

  // ---------------------------------------------------------------- walking

  /** A walk goes on past a deleted entry. */
  lemma DeadGoesOn(s: State, start: nat, e: nat, target: Option<nat>)
    requires Dead(s, start, Some(e)) && Deleted(s, e) && Gap(s, e, target) && Positions(s)
    ensures Dead(s, start, target) && target != Some(start)
  {
    forall f | f in s.pos && s.pos[start] <= s.pos[f] && BeforeTarget(s, f, target) ensures Deleted(s, f) {
      if f != e {
        assert s.pos[f] < s.pos[e] ==> BeforeTarget(s, f, Some(e));
      }
    }
  }

  lemma InRangeGoesOn(s: State, claimed: seq<nat>, start: nat, e: nat, target: Option<nat>)
    requires InRange(s, claimed, start, Some(e)) && Gap(s, e, target)
    ensures InRange(s, claimed, start, target)
  {
  }

  lemma ArrivedOk(s: State, pc: Pc)
    requires pc.Walking? && PcOk(s, pc)
    requires pc.at.None? || !Deleted(s, pc.at.value)
    ensures PcOk(s, Arrived(pc)) && Claims(Arrived(pc)) == Claims(pc)
  {
  }

  /** A deleted entry is passed, or is to be claimed if nobody else has claimed it. */
  lemma PassedOk(s: State, pc: Pc, e: nat, state: Link)
    requires Positions(s) && pc.Walking? && PcOk(s, pc) && pc.at == Some(e) && e in s.links && s.links[e] == state
    requires DeletedTag(state.tag) && Gap(s, e, state.target)
    ensures PcOk(s, pc.(at := state.target, ended := true))
    ensures state.tag.Second? && !pc.ended ==>
              PcOk(s, Claiming(pc.self, pc.seen, pc.start, e, state, pc.first, pc.last, pc.claimed))
  {
    DeadGoesOn(s, pc.start, e, state.target);
    InRangeGoesOn(s, pc.claimed, pc.start, e, state.target);
  }

  lemma WalkStepKeeps(s: State, t: nat)
    requires Inv(s) && Enabled(s, Step(t)) && PcOf(s, t).Walking?
    ensures Inv(WalkStep(s, t))
  {
    var pc := PcOf(s, t);
    assert PcOk(s, pc);
    var q := WalkStep(s, t).threads[t];
    if pc.at.Some? && Deleted(s, pc.at.value) {
      assert Gap(s, pc.at.value, s.links[pc.at.value].target);
      PassedOk(s, pc, pc.at.value, s.links[pc.at.value]);
    } else {
      ArrivedOk(s, pc);
    }
    assert PcOk(s, q) && Claims(q) == Claims(pc);
    GoesOn(s, t, q);
  }

  lemma NextBegunKeeps(s: State, t: nat, self: nat)
    requires Inv(s) && Enabled(s, BeginNext(t, self))
    ensures Inv(NextBegun(s, t, self))
  {
    assert Gap(s, self, s.links[self].target);
    GoesOn(s, t, NextBegun(s, t, self).threads[t]);
  }

  lemma ClaimedPcOk(s: State, u: State, t: nat, q: Pc)
    requires Positions(s) && PcOf(s, t).Claiming? && PcOk(s, PcOf(s, t))
    requires var pc := PcOf(s, t);
             && pc.entry in s.links && s.links[pc.entry] == pc.state && pc.entry !in pc.claimed
             && q == Walking(pc.self, pc.seen, pc.start, pc.state.target, if pc.first.None? then Some(pc.entry) else pc.first,
                             Some(pc.entry), false, pc.claimed + [pc.entry])
             && Relinks(s, u, pc.entry, pc.state.(tag := Both), t, q)
    ensures PcOk(u, q)
  {
    var pc := PcOf(s, t);
    var link := pc.state.(tag := Both);
    DeadGoesOn(s, pc.start, pc.entry, pc.state.target);
    RelinkDead(s, u, pc.entry, link, t, q, pc.start, pc.state.target);
    RelinkChain(s, u, pc.entry, link, t, q, pc.claimed, pc.first, pc.last);
    InRangeGoesOn(s, pc.claimed, pc.start, pc.entry, pc.state.target);
    ChainGrows(u, pc.claimed, pc.first, pc.last, pc.entry);
    assert u.pos == s.pos && Gap(s, pc.entry, pc.state.target);
    InRangeGrows(u, pc.claimed, pc.start, pc.entry, pc.state.target);
  }

  lemma ChainGrows(s: State, claimed: seq<nat>, first: Option<nat>, last: Option<nat>, e: nat)
    requires Chain(s, claimed, first, last) && e in s.links && e in s.pos
    requires last.Some? ==> last.value in s.links && s.links[last.value].target == Some(e)
    requires forall i :: 0 <= i < |claimed| ==> s.pos[claimed[i]] < s.pos[e]
    ensures Chain(s, claimed + [e], if first.None? then Some(e) else first, Some(e))
  {
    var c := claimed + [e];
    forall i | 0 <= i < |c| - 1
      ensures c[i] in s.links && s.links[c[i]].target == Some(c[i + 1]) && s.pos[c[i]] < s.pos[c[i + 1]]
    {
      assert i < |claimed| - 1 ==> c[i + 1] == claimed[i + 1];
    }
  }

  lemma InRangeGrows(s: State, claimed: seq<nat>, start: nat, e: nat, at: Option<nat>)
    requires InRange(s, claimed, start, at) && BeforeTarget(s, e, at) && start in s.pos && s.pos[start] <= s.pos[e]
    ensures InRange(s, claimed + [e], start, at)
  {
  }

  lemma ClaimStepKeeps(s: State, t: nat)
    requires Inv(s) && Enabled(s, Step(t)) && PcOf(s, t).Claiming?
    ensures Inv(ClaimStep(s, t))
  {
    var pc := PcOf(s, t);
    var u := ClaimStep(s, t);
    assert PcOk(s, pc);
    if s.links[pc.entry] == pc.state {
      assert !Owns(s, t, pc.entry);
      ClaimedPcOk(s, u, t, u.threads[t]);
      RelinkKeeps(s, u, pc.entry, pc.state.(tag := Both), t, u.threads[t]);
    } else {
      DeadGoesOn(s, pc.start, pc.entry, pc.state.target);
      InRangeGoesOn(s, pc.claimed, pc.start, pc.entry, pc.state.target);
      GoesOn(s, t, u.threads[t]);
    }
  }

  // ---------------------------------------------------------------- unlinking

  /** From before the first deleted entry to behind the last there is nothing but deleted entries. */
  lemma GapAcross(s: State, self: nat, start: nat, next: Option<nat>)
    requires Gap(s, self, Some(start)) && Dead(s, start, next)
    ensures Gap(s, self, next)
  {
    forall f | f in s.pos && s.pos[self] < s.pos[f] && BeforeTarget(s, f, next) ensures Deleted(s, f) {
      assert s.pos[f] < s.pos[start] ==> BeforeTarget(s, f, Some(start));
    }
  }

  lemma CleanupOk(s: State, pc: Pc, success: bool)
    requires pc.Linking? && PcOk(s, pc)
    ensures PcOk(s, Cleanup(pc, success)) && Claims(Cleanup(pc, success)) == pc.claimed
  {
  }

  lemma LinkStepKeeps(s: State, t: nat)
    requires Inv(s) && Enabled(s, Step(t)) && PcOf(s, t).Linking?
    ensures Inv(LinkStep(s, t))
  {
    var pc := PcOf(s, t);
    var u := LinkStep(s, t);
    assert PcOk(s, pc);
    if s.links[pc.self] == pc.seen {
      var link := Link(pc.next, pc.seen.tag);
      var q := Cleanup(pc, true);
      assert forall v :: !Owns(s, v, pc.self);
      assert !Owns(s, t, pc.self);
      GapAcross(s, pc.self, pc.start, pc.next);
      assert Relinks(s, u, pc.self, link, t, q);
      CleanupOk(s, pc, true);
      RelinkPcOk(s, u, pc.self, link, t, q, q);
      RelinkKeeps(s, u, pc.self, link, t, q);
    } else {
      CleanupOk(s, pc, false);
      GoesOn(s, t, u.threads[t]);
    }
  }

  lemma AbandonKeeps(s: State, t: nat)
    requires Inv(s) && PcOf(s, t).Linking?
    ensures Inv(WithPc(s, t, Cleanup(PcOf(s, t), false)))
  {
    assert PcOk(s, PcOf(s, t));
    CleanupOk(s, PcOf(s, t), false);
    GoesOn(s, t, Cleanup(PcOf(s, t), false));
  }

  // ---------------------------------------------------------------- releasing claimed entries

  lemma {:induction false} ChainIncreases(s: State, claimed: seq<nat>, first: Option<nat>, last: Option<nat>, j: nat)
    requires Chain(s, claimed, first, last) && 0 < j < |claimed|
    ensures s.pos[claimed[0]] < s.pos[claimed[j]]
  {
    if j > 1 { ChainIncreases(s, claimed, first, last, j - 1); }
  }

  /** The first claimed entry is the last one exactly if it is the only one. */
  lemma ChainEnds(s: State, claimed: seq<nat>, e: nat, last: nat)
    requires Chain(s, claimed, Some(e), Some(last))
    ensures e in s.links && claimed != [] && claimed[0] == e && e !in claimed[1..]
    ensures |claimed| == 1 ==> e == last
    ensures |claimed| > 1 ==> e != last && s.links[e].target == Some(claimed[1]) && Chain(s, claimed[1..], Some(claimed[1]), Some(last))
  {
    if e in claimed[1..] {
      var j :| 0 <= j < |claimed[1..]| && claimed[1..][j] == e;
      ChainIncreases(s, claimed, Some(e), Some(last), j + 1);
    }
    if |claimed| > 1 {
      ChainIncreases(s, claimed, Some(e), Some(last), |claimed| - 1);
    }
  }

  lemma SweepStepKeeps(s: State, t: nat)
    requires Inv(s) && Enabled(s, Step(t)) && PcOf(s, t).Sweeping?
    ensures Inv(SweepStep(s, t))
  {
    var pc := PcOf(s, t);
    var u := SweepStep(s, t);
    assert PcOk(s, pc);
    ChainEnds(s, pc.claimed, pc.entry, pc.end);
    assert Owns(s, t, pc.entry);
    var link, q := Link(pc.next, Second), u.threads[t];
    assert Relinks(s, u, pc.entry, link, t, q);
    if q.Sweeping? {
      assert PcOk(s, q);
      RelinkPcOk(s, u, pc.entry, link, t, q, q);
    }
    assert forall e :: e in pc.claimed <==> e == pc.entry || e in pc.claimed[1..];
    RelinkKeeps(s, u, pc.entry, link, t, q);
  }

  lemma ResetStepKeeps(s: State, t: nat)
    requires Inv(s) && Enabled(s, Step(t)) && PcOf(s, t).Resetting?
    ensures Inv(ResetStep(s, t))
  {
    var pc := PcOf(s, t);
    var u := ResetStep(s, t);
    assert PcOk(s, pc);
    ChainEnds(s, pc.claimed, pc.entry, pc.end);
    assert Owns(s, t, pc.entry);
    var link, q := s.links[pc.entry].(tag := Second), u.threads[t];
    assert Relinks(s, u, pc.entry, link, t, q);
    if q.Resetting? {
      assert PcOk(s, q);
      RelinkPcOk(s, u, pc.entry, link, t, q, q);
    }
    assert forall e :: e in pc.claimed <==> e == pc.entry || e in pc.claimed[1..];
    RelinkKeeps(s, u, pc.entry, link, t, q);
  }

  lemma RetagKeeps(s: State, t: nat, self: nat, from: set<Tag>, tag: Tag)
    requires Inv(s) && PcOf(s, t).Idle? && self in s.links && from <= {Clear, First} && !tag.Both?
    ensures Inv(Retagged(s, t, self, from, tag))
  {
    if s.links[self].tag in from {
      assert forall v :: !Owns(s, v, self);
      RelinkKeeps(s, Retagged(s, t, self, from, tag), self, s.links[self].(tag := tag), t, Idle(Tagged(true)));
    } else {
      GoesOn(s, t, Idle(Tagged(false)));
    }
  }

  // ---------------------------------------------------------------- every step

  lemma InvKept(s: State, a: Action)
    requires Inv(s) && Enabled(s, a)
    ensures Inv(Apply(s, a))
  {
    match a
    case BeginPush(t, self, mark) => GoesOn(s, t, Pushing(self, s.links[self], mark));
    case Push(t, entry, pos) => PushKeeps(s, t, entry, pos);
    case BeginNext(t, self) => NextBegunKeeps(s, t, self);
    case Step(t) =>
      match PcOf(s, t) {
        case Walking(_, _, _, _, _, _, _, _) => WalkStepKeeps(s, t);
        case Claiming(_, _, _, _, _, _, _, _) => ClaimStepKeeps(s, t);
        case Linking(_, _, _, _, _, _, _) => LinkStepKeeps(s, t);
        case Sweeping(_, _, _, _, _) => SweepStepKeeps(s, t);
        case Resetting(_, _, _, _) => ResetStepKeeps(s, t);
        case _ =>
      }
    case Abandon(t) => AbandonKeeps(s, t);
    case Mark(t, self) => RetagKeeps(s, t, self, {Clear}, First);
    case Unmark(t, self) => RetagKeeps(s, t, self, {First}, Clear);
    case DeleteSelf(t, self) => RetagKeeps(s, t, self, {Clear, First}, Second);
  }
}
