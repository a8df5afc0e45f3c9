/**
  The lock-free linked list: entries are pushed in behind an entry, deleted by a tag on their own
  link, and unlinked by whoever walks past them.

  The history gives every entry a position. An entry that is pushed in stands directly behind the
  entry it is pushed to; positions never change.
 */
module LinkedList {
  import opened Common

  datatype Tag = Clear | First | Second | Both

  datatype Link = Link(target: Option<nat>, tag: Tag)

  /** What the last operation of a thread has returned. */
  datatype Result =
    | Nothing
    | Accepted(entry: nat)         // `push_back`: the entry is in the list
    | Refused                      // `push_back`: the entry is given back
    | Next(next: Option<nat>)      // `next_ptr`
    | Tagged(done: bool)           // `mark`, `unmark` and `delete_self`

  /** What a thread does next, with the values it has loaded; `claimed` is history. */
  datatype Pc =
    | Idle(result: Result)
    | Pushing(self: nat, seen: Link, mark: bool)
    | Walking(self: nat, seen: Link, start: nat, at: Option<nat>, first: Option<nat>, last: Option<nat>,
              ended: bool, claimed: seq<nat>)             // load the link of the entry at hand
    | Claiming(self: nat, seen: Link, start: nat, entry: nat, state: Link, first: Option<nat>, last: Option<nat>,
               claimed: seq<nat>)                         // tag the deleted entry
    | Linking(self: nat, seen: Link, start: nat, next: Option<nat>, first: Option<nat>, last: Option<nat>,
              claimed: seq<nat>)                          // update the link of `self`
    | Sweeping(start: nat, next: Option<nat>, entry: nat, end: nat, claimed: seq<nat>)  // after success
    | Resetting(next: Option<nat>, entry: nat, end: nat, claimed: seq<nat>)             // after failure

  datatype State = State(links: map<nat, Link>, threads: map<nat, Pc>, pos: map<nat, real>)

  datatype Action =
    | BeginPush(t: nat, self: nat, mark: bool)
    | Push(t: nat, entry: nat, pos: real)
    | BeginNext(t: nat, self: nat)
    | Step(t: nat)
    | Abandon(t: nat)              // the next valid entry cannot be held on to
    | Mark(t: nat, self: nat)
    | Unmark(t: nat, self: nat)
    | DeleteSelf(t: nat, self: nat)

  predicate DeletedTag(tag: Tag) { tag.Second? || tag.Both? }

  predicate Deleted(s: State, e: nat) {
    e in s.links && DeletedTag(s.links[e].tag)
  }

  function PcOf(s: State, t: nat): Pc {
    if t in s.threads then s.threads[t] else Idle(Nothing)
  }

  function WithPc(s: State, t: nat, pc: Pc): State {
    s.(threads := s.threads[t := pc])
  }

  function WithLink(s: State, e: nat, link: Link): State {
    s.(links := s.links[e := link])
  }

  /** `pos` lies directly behind `self`. */
  ghost predicate DirectlyBehind(s: State, self: nat, pos: real) {
    && self in s.pos && s.pos[self] < pos
    && forall e :: e in s.pos && s.pos[self] < s.pos[e] ==> pos < s.pos[e]
  }

  ghost predicate Enabled(s: State, a: Action) {
    match a
    case BeginPush(t, self, _) => PcOf(s, t).Idle? && self in s.links
    case Push(t, entry, pos) =>
      && PcOf(s, t).Pushing? && PcOf(s, t).self in s.links && entry !in s.links
      && DirectlyBehind(s, PcOf(s, t).self, pos)
    case BeginNext(t, self) => PcOf(s, t).Idle? && self in s.links
    case Step(t) =>
      (match PcOf(s, t)
       case Walking(_, _, _, at, _, _, _, _) => at.Some? ==> at.value in s.links
       case Claiming(_, _, _, entry, _, _, _, _) => entry in s.links
       case Linking(self, _, _, _, _, _, _) => self in s.links
       case Sweeping(_, _, entry, _, claimed) => entry in s.links && claimed != []
       case Resetting(_, entry, _, claimed) => entry in s.links && claimed != []
       case _ => false)
    case Abandon(t) => PcOf(s, t).Linking?
    case Mark(t, self) => PcOf(s, t).Idle? && self in s.links
    case Unmark(t, self) => PcOf(s, t).Idle? && self in s.links
    case DeleteSelf(t, self) => PcOf(s, t).Idle? && self in s.links
  }

  /** `push_back`: one attempt to put the entry in, or the failure because `self` is deleted. */
  function Pushed(s: State, t: nat, entry: nat, pos: real): State
    requires PcOf(s, t).Pushing? && PcOf(s, t).self in s.links
  {
    var Pushing(self, seen, mark) := PcOf(s, t);
    if DeletedTag(seen.tag) then WithPc(s, t, Idle(Refused))
    else if s.links[self] == seen then
      WithPc(s.(links := s.links[entry := Link(seen.target, Clear)][self := Link(Some(entry), if mark then First else Clear)],
                pos := s.pos[entry := pos]), t, Idle(Accepted(entry)))
    else WithPc(s, t, Pushing(self, s.links[self], mark))
  }

  /** The start of `next_ptr`; without a next entry there is nothing to do. */
  function NextBegun(s: State, t: nat, self: nat): State
    requires self in s.links
  {
    var seen := s.links[self];
    WithPc(s, t, if seen.target.None? then Idle(Next(None))
                 else Walking(self, seen, seen.target.value, seen.target, None, None, seen.tag.Both?, []))
  }

  /** The walk has ended at `pc.at`: is there anything to update? */
  function Arrived(pc: Pc): Pc
    requires pc.Walking?
  {
    if pc.seen.tag.Both? || pc.at == Some(pc.start) then Idle(Next(pc.at))
    else Linking(pc.self, pc.seen, pc.start, pc.at, pc.first, pc.last, pc.claimed)
  }

  function WalkStep(s: State, t: nat): State
    requires PcOf(s, t).Walking? && (PcOf(s, t).at.Some? ==> PcOf(s, t).at.value in s.links)
  {
    var pc := PcOf(s, t);
    if pc.at.None? then WithPc(s, t, Arrived(pc)) else
    var e := pc.at.value;
    var state := s.links[e];
    if !DeletedTag(state.tag) then WithPc(s, t, Arrived(pc))
    else if state.tag.Second? && !pc.ended then
      WithPc(s, t, Claiming(pc.self, pc.seen, pc.start, e, state, pc.first, pc.last, pc.claimed))
    else WithPc(s, t, pc.(at := state.target, ended := true))
  }

  function ClaimStep(s: State, t: nat): State
    requires PcOf(s, t).Claiming? && PcOf(s, t).entry in s.links
  {
    var Claiming(self, seen, start, e, state, first, last, claimed) := PcOf(s, t);
    if s.links[e] == state then
      WithPc(WithLink(s, e, state.(tag := Both)), t,
             Walking(self, seen, start, state.target, if first.None? then Some(e) else first, Some(e), false, claimed + [e]))
    else
      WithPc(s, t, Walking(self, seen, start, state.target, first, last, true, claimed))
  }

  /** The claimed entries are released: with the link to the next valid entry, or as they are. */
  function Cleanup(pc: Pc, success: bool): Pc
    requires pc.Linking?
  {
    if pc.first.None? || pc.last.None? then Idle(Next(pc.next))
    else if success then Sweeping(pc.start, pc.next, pc.first.value, pc.last.value, pc.claimed)
    else Resetting(pc.next, pc.first.value, pc.last.value, pc.claimed)
  }

  function LinkStep(s: State, t: nat): State
    requires PcOf(s, t).Linking? && PcOf(s, t).self in s.links
  {
    var pc := PcOf(s, t);
    if s.links[pc.self] == pc.seen then
      WithPc(WithLink(s, pc.self, Link(pc.next, pc.seen.tag)), t, Cleanup(pc, true))
    else WithPc(s, t, Cleanup(pc, false))
  }

  function SweepStep(s: State, t: nat): State
    requires PcOf(s, t).Sweeping? && PcOf(s, t).entry in s.links && PcOf(s, t).claimed != []
  {
    var Sweeping(start, next, e, last, claimed) := PcOf(s, t);
    var before := s.links[e].target;
    WithPc(WithLink(s, e, Link(next, Second)), t,
           if e == last || before.None? then Idle(Next(next)) else Sweeping(start, next, before.value, last, claimed[1..]))
  }

  function ResetStep(s: State, t: nat): State
    requires PcOf(s, t).Resetting? && PcOf(s, t).entry in s.links && PcOf(s, t).claimed != []
  {
    var Resetting(next, e, last, claimed) := PcOf(s, t);
    var before := s.links[e].target;
    WithPc(WithLink(s, e, s.links[e].(tag := Second)), t,
           if e == last || before.None? then Idle(Next(next)) else Resetting(next, before.value, last, claimed[1..]))
  }

  /** `update_tag_if`: the tag of `self` becomes `tag` if it is one of `from`. */
  function Retagged(s: State, t: nat, self: nat, from: set<Tag>, tag: Tag): State
    requires self in s.links
  {
    if s.links[self].tag in from then WithPc(WithLink(s, self, s.links[self].(tag := tag)), t, Idle(Tagged(true)))
    else WithPc(s, t, Idle(Tagged(false)))
  }

  ghost function Apply(s: State, a: Action): State
    requires Enabled(s, a)
  {
    match a
    case BeginPush(t, self, mark) => WithPc(s, t, Pushing(self, s.links[self], mark))
    case Push(t, entry, pos) => Pushed(s, t, entry, pos)
    case BeginNext(t, self) => NextBegun(s, t, self)
    case Step(t) =>
      (match PcOf(s, t)
       case Walking(_, _, _, _, _, _, _, _) => WalkStep(s, t)
       case Claiming(_, _, _, _, _, _, _, _) => ClaimStep(s, t)
       case Linking(_, _, _, _, _, _, _) => LinkStep(s, t)
       case Sweeping(_, _, _, _, _) => SweepStep(s, t)
       case Resetting(_, _, _, _) => ResetStep(s, t)
       case _ => s)
    case Abandon(t) => WithPc(s, t, Cleanup(PcOf(s, t), false))
    case Mark(t, self) => Retagged(s, t, self, {Clear}, First)
    case Unmark(t, self) => Retagged(s, t, self, {First}, Clear)
    case DeleteSelf(t, self) => Retagged(s, t, self, {Clear, First}, Second)
  }

  /** A list of one entry. */
  function Initial(): State {
    State(map[0 := Link(None, Clear)], map[], map[0 := 0.0])
  }
}
