/**
  One leaf of the tree under concurrent insertion, removal, freezing and thawing.

  The whole state of a leaf is one word: a rank for each slot, and two flags. A slot is reserved by
  giving it the rank of a removed entry, and its entry becomes visible when the ranks of all
  greater entries are raised together with its own. Every load and every compare-and-exchange of
  the word is one step; the entry of a reserved slot is written in the step that reserves it.
 */
module Leaf {
  import opened Common
  import opened Entries

  const UNINIT: nat := 0
  const REMOVED: nat := 15

  /** The metadata word. */
  datatype Meta = Meta(ranks: seq<nat>, frozen: bool, retired: bool)

  datatype InsertResult = Inserted | Duplicate | Full | InsertFrozen | InsertRetired

  datatype RemoveResult = Removed | RemovedLast | NotRemoved | RemoveFrozen

  datatype Pc =
    | Idle
    | Reserving(k: Key, v: Val, seen: Meta)     // reserve a free slot of the word as loaded
    | Publishing(slot: nat, seen: Meta)         // rank the entry in the reserved slot
    | RollingBack(slot: nat)                    // give the reserved slot back
    | Removing(k: Key, slot: nat, seen: Meta)   // mark the slot of the key removed
    | InsertDone(insert: InsertResult)
    | RemoveDone(remove: RemoveResult)

  datatype State = State(
    meta: Meta,
    entries: seq<Option<Entry>>,
    threads: map<nat, Pc>,
    published: set<nat>,       // history: slots that have been ranked
    model: map<Key, Val>)      // history: what the insertions and removals amount to

  datatype Action =
    | BeginInsert(t: nat, k: Key, v: Val)
    | BeginRemove(t: nat, k: Key)
    | Step(t: nat)
    | Decline(t: nat)          // the condition on the value does not hold
    | Freeze
    | Thaw

  // ---------------------------------------------------------------- ranks

  predicate IsLive(rank: nat) { UNINIT < rank < REMOVED }

  predicate Live(m: Meta, i: int) {
    0 <= i < |m.ranks| && IsLive(m.ranks[i])
  }

  /** Slot `i` holds a live entry with key `k`. */
  predicate HasKey(m: Meta, entries: seq<Option<Entry>>, i: int, k: Key) {
    Live(m, i) && i < |entries| && entries[i].Some? && entries[i].value.key == k
  }

  predicate Below(m: Meta, entries: seq<Option<Entry>>, i: int, k: Key) {
    Live(m, i) && i < |entries| && entries[i].Some? && entries[i].value.key < k
  }

  predicate Above(m: Meta, entries: seq<Option<Entry>>, i: int, k: Key) {
    Live(m, i) && i < |entries| && entries[i].Some? && entries[i].value.key > k
  }

  ghost predicate Contains(m: Meta, entries: seq<Option<Entry>>, k: Key) {
    exists i :: HasKey(m, entries, i, k)
  }

  function FirstFree(ranks: seq<nat>, from: nat := 0): (r: Option<nat>)
    requires from <= |ranks|
    ensures r.Some? ==> r.value < |ranks| && ranks[r.value] == UNINIT
    ensures r.None? ==> forall i :: from <= i < |ranks| ==> ranks[i] != UNINIT
    decreases |ranks| - from
  {
    if from == |ranks| then None else if ranks[from] == UNINIT then Some(from) else FirstFree(ranks, from + 1)
  }

  /** The greatest rank among the first `n` slots with a key below `k`. */
  function MaxBelow(m: Meta, entries: seq<Option<Entry>>, k: Key, n: nat): (r: nat)
    ensures forall i :: i < n && Below(m, entries, i, k) ==> m.ranks[i] <= r
    ensures r > 0 ==> exists i :: i < n && Below(m, entries, i, k) && m.ranks[i] == r
  {
    if n == 0 then 0 else
    var r := MaxBelow(m, entries, k, n - 1);
    if Below(m, entries, n - 1, k) && m.ranks[n - 1] > r then m.ranks[n - 1] else r
  }

  /** The ranks with the entry in `slot` visible: greater entries move up by one. */
  function Ranked(m: Meta, entries: seq<Option<Entry>>, slot: nat, k: Key): Meta {
    m.(ranks := seq(|m.ranks|, i requires 0 <= i < |m.ranks| =>
      if i == slot then MaxBelow(m, entries, k, |m.ranks|) + 1
      else if Above(m, entries, i, k) then m.ranks[i] + 1
      else m.ranks[i]))
  }

  /** No entry but the one in `slot` is live. */
  predicate OnlyLive(m: Meta, slot: nat) {
    forall j :: 0 <= j < |m.ranks| && j != slot ==> !IsLive(m.ranks[j])
  }

  function WithoutSlot(m: Meta, slot: nat): Meta
    requires slot < |m.ranks|
  {
    Meta(m.ranks[slot := REMOVED], m.frozen, m.retired || OnlyLive(m, slot))
  }

  // ---------------------------------------------------------------- steps

  predicate Idling(pc: Pc) { pc.Idle? || pc.InsertDone? || pc.RemoveDone? }

  function PcOf(s: State, t: nat): Pc {
    if t in s.threads then s.threads[t] else Idle
  }

  function WithPc(s: State, t: nat, pc: Pc): State {
    s.(threads := s.threads[t := pc])
  }

  predicate SizesOk(s: State) {
    && |s.meta.ranks| == N && |s.entries| == N
    && forall t :: t in s.threads ==> match s.threads[t]
       case Reserving(_, _, seen) => |seen.ranks| == N
       case Publishing(slot, seen) => slot < N && |seen.ranks| == N && s.entries[slot].Some?
       case RollingBack(slot) => slot < N && s.entries[slot].Some?
       case Removing(_, slot, seen) => slot < N && |seen.ranks| == N
       case _ => true
  }

  ghost predicate Enabled(s: State, a: Action) {
    && SizesOk(s)
    && match a
       case BeginInsert(t, _, _) => Idling(PcOf(s, t))
       case BeginRemove(t, _) => Idling(PcOf(s, t))
       case Step(t) => !Idling(PcOf(s, t))
       case Decline(t) => PcOf(s, t).Removing?
       case Freeze => !s.meta.frozen
       case Thaw => s.meta.frozen
  }

  function Reserved(s: State, t: nat, slot: nat, k: Key, v: Val): State
    requires slot < |s.meta.ranks| && slot < |s.entries|
  {
    var meta := s.meta.(ranks := s.meta.ranks[slot := REMOVED]);
    WithPc(s.(meta := meta, entries := s.entries[slot := Some(Entry(k, v))]), t, Publishing(slot, meta))
  }

  ghost function ReserveStep(s: State, t: nat): State
    requires SizesOk(s) && PcOf(s, t).Reserving?
  {
    var pc := PcOf(s, t);
    if pc.seen.retired then WithPc(s, t, InsertDone(InsertRetired))
    else if pc.seen.frozen then WithPc(s, t, InsertDone(InsertFrozen))
    else match FirstFree(pc.seen.ranks)
      case Some(slot) =>
        if s.meta == pc.seen then Reserved(s, t, slot, pc.k, pc.v)
        else WithPc(s, t, Reserving(pc.k, pc.v, s.meta))
      case None =>
        WithPc(s, t, InsertDone(if Contains(pc.seen, s.entries, pc.k) then Duplicate else Full))
  }

  function Published(s: State, t: nat, slot: nat, e: Entry): State {
    WithPc(s.(meta := Ranked(s.meta, s.entries, slot, e.key),
              published := s.published + {slot},
              model := s.model[e.key := e.val]), t, InsertDone(Inserted))
  }

  ghost function PublishStep(s: State, t: nat): State
    requires SizesOk(s) && PcOf(s, t).Publishing?
  {
    var Publishing(slot, seen) := PcOf(s, t);
    var e := s.entries[slot].value;
    if Contains(seen, s.entries, e.key) then WithPc(s, t, RollingBack(slot))
    else if s.meta == seen then Published(s, t, slot, e)
    else if s.meta.frozen || s.meta.retired then WithPc(s, t, RollingBack(slot))
    else WithPc(s, t, Publishing(slot, s.meta))
  }

  /** The result depends on the flags at the time the slot is given back. */
  function RollBackStep(s: State, t: nat): State
    requires SizesOk(s) && PcOf(s, t).RollingBack?
  {
    var slot := PcOf(s, t).slot;
    WithPc(s.(meta := s.meta.(ranks := s.meta.ranks[slot := UNINIT]), entries := s.entries[slot := None]), t,
           InsertDone(if s.meta.retired then InsertRetired else if s.meta.frozen then InsertFrozen else Duplicate))
  }

  function Unpublished(s: State, t: nat, k: Key, slot: nat): State
    requires slot < |s.meta.ranks|
  {
    WithPc(s.(meta := WithoutSlot(s.meta, slot), model := s.model - {k}), t,
           RemoveDone(if OnlyLive(s.meta, slot) then RemovedLast else Removed))
  }

  function RemoveStep(s: State, t: nat): State
    requires SizesOk(s) && PcOf(s, t).Removing?
  {
    var Removing(k, slot, seen) := PcOf(s, t);
    if s.meta == seen then Unpublished(s, t, k, slot)
    else if s.meta.ranks[slot] == REMOVED then WithPc(s, t, RemoveDone(NotRemoved))
    else if s.meta.frozen then WithPc(s, t, RemoveDone(RemoveFrozen))
    else WithPc(s, t, Removing(k, slot, s.meta))
  }

  /** The word is loaded, and the key is looked up in it. */
  ghost function RemoveBegun(s: State, t: nat, k: Key): State {
    WithPc(s, t,
      if s.meta.frozen then RemoveDone(RemoveFrozen)
      else if Contains(s.meta, s.entries, k) then
        var slot :| HasKey(s.meta, s.entries, slot, k);
        Removing(k, slot, s.meta)
      else RemoveDone(NotRemoved))
  }

  ghost function Apply(s: State, a: Action): State
    requires Enabled(s, a)
  {
    match a
    case BeginInsert(t, k, v) => WithPc(s, t, Reserving(k, v, s.meta))
    case BeginRemove(t, k) => RemoveBegun(s, t, k)
    case Step(t) =>
      (match s.threads[t]
       case Reserving(_, _, _) => ReserveStep(s, t)
       case Publishing(_, _) => PublishStep(s, t)
       case RollingBack(_) => RollBackStep(s, t)
       case Removing(_, _, _) => RemoveStep(s, t)
       case _ => s)
    case Decline(t) => WithPc(s, t, RemoveDone(NotRemoved))
    case Freeze => s.(meta := s.meta.(frozen := true))
    case Thaw => s.(meta := s.meta.(frozen := false))
  }

  function Initial(): State {
    State(Meta(seq(N, _ => UNINIT), false, false), seq(N, _ => None), map[], {}, map[])
  }
}
