/**
  Epoch-based reclamation: collectors that announce an epoch, three garbage generations per
  collector, and a scanner, serialised by a tag lock, that advances an epoch counted modulo three.

  Every atomic access is one step. Fields and history variables that the implementation does not
  have are named under "history" below: they record a run and never decide a step.
 */
module Ebr {
  import opened Common

  /** What can be retired: an instance, or the collector of a thread that has exited. */
  datatype Item = Instance(id: nat) | Exited(collector: nat)

  datatype Collector = Collector(
    active: bool,                 // `state` lacks INACTIVE
    invalid: bool,                // `state` has INVALID
    announcement: nat,            // 0, 1 or 2
    readers: nat,
    previous: set<Item>,
    current: set<Item>,
    next: set<Item>,
    draining: set<Item>,          // taken by `epoch_updated`, not dropped yet
    loaded: Option<nat>,          // EPOCH loaded, `state` not stored yet
    // history
    session: nat,                 // how often the collector has become active
    era: nat,                     // unbounded epoch at the last activation
    pubTick: nat)                 // number of epoch changes before the last store of `state`

  datatype Scan =
    | Idle
    | Scanning(owner: nat, known: nat, rest: seq<nat>, kept: Option<nat>,
               late: set<nat>)    // history: collectors published since the scan began

  datatype State = State(
    epoch: nat,                   // EPOCH
    collectors: map<nat, Collector>,
    chain: seq<nat>,              // the list hanging off GLOBAL_ANCHOR
    scan: Scan,                   // the holder of the anchor's tag lock, if any
    freed: set<Item>,
    // history
    era: nat,                     // unbounded epoch: how often EPOCH has been advanced
    epochs: seq<nat>,             // every value EPOCH has had
    retired: map<Item, nat>,      // the era in which an item was retired
    pins: map<Item, set<(nat, nat)>>) // the sessions active when an item was retired

  datatype Action =
    | Alloc(c: nat)
    | Activate(c: nat, shift: bool) // load EPOCH and store `state` as one step
    | Load(c: nat)
    | Publish(c: nat, shift: bool)
    | Nest(c: nat)
    | Unnest(c: nat)
    | Retire(c: nat, id: nat)
    | BeginScan(c: nat)
    | Visit
    | EndScan
    | EndGuard(c: nat)
    | Invalidate(c: nat)
    | Free(c: nat, item: Item)

  // ---------------------------------------------------------------- the collector's own steps

  function NewCollector(): Collector {
    Collector(false, false, 0, 0, {}, {}, {}, {}, None, 0, 0, 0)
  }

  function Garbage(c: Collector): set<Item> {
    c.previous + c.current + c.next + c.draining
  }

  /** `epoch_updated`: every generation ages, the oldest one is taken for dropping. */
  function Shifted(c: Collector): Collector {
    c.(draining := c.draining + c.next, next := c.previous, previous := c.current, current := {})
  }

  /** `new_guard` on a collector without readers, followed by `epoch_updated` where it is called. */
  function Activated(c: Collector, epoch: nat, shift: bool): Collector {
    var announced := c.(active := true, readers := 1, announcement := epoch, loaded := None);
    if shift && c.announcement != epoch then Shifted(announced) else announced
  }

  function Ended(c: Collector): Collector {
    c.(active := false, readers := 0)
  }

  function Reclaimed(c: Collector, item: Item): Collector {
    c.(current := c.current + {item})
  }

  /** The epoch a scanner that knows `known` stores. */
  function NextEpoch(known: nat): nat {
    match known
    case 0 => 1
    case 1 => 2
    case _ => 0
  }

  // ---------------------------------------------------------------- the whole system

  function Initial(): State {
    State(0, map[], [], Idle, {}, 0, [0], map[], map[])
  }

  function Ticks(s: State): nat
    requires s.epochs != []
  {
    |s.epochs| - 1
  }

  /** The collector at position `|chain| - |rest|`, which the scanner looks at. */
  function ScanPos(s: State): int
    requires s.scan.Scanning?
  {
    |s.chain| - |s.scan.rest|
  }

  /**
    Whether the scanner can unlink the collector it looks at: behind a collector it has kept it
    always can, at the front only while the anchor still points there.
   */
  predicate Unlinkable(s: State)
    requires s.scan.Scanning? && s.scan.rest != []
  {
    s.scan.kept.Some? || (s.chain != [] && s.chain[0] == s.scan.rest[0])
  }

  predicate Enabled(s: State, a: Action) {
    && s.epochs != []
    && (a.Alloc? || a.Visit? || a.EndScan? || a.c in s.collectors)
    && match a
       case Alloc(c) => c !in s.collectors
       case Activate(c, _) =>
         s.collectors[c].readers == 0 && !s.collectors[c].invalid && s.collectors[c].loaded.None?
       case Load(c) =>
         s.collectors[c].readers == 0 && !s.collectors[c].invalid && s.collectors[c].loaded.None?
       case Publish(c, _) => s.collectors[c].loaded.Some?
       case Nest(c) => s.collectors[c].readers > 0
       case Unnest(c) => s.collectors[c].readers > 1
       case Retire(c, id) => s.collectors[c].readers > 0 && Instance(id) !in s.retired
       case BeginScan(c) =>
         s.scan.Idle? && s.collectors[c].readers == 1 && s.collectors[c].draining == {}
       case Visit =>
         && s.scan.Scanning? && s.scan.rest != []
         && s.scan.rest[0] in s.collectors && s.scan.owner in s.collectors && 0 <= ScanPos(s)
       case EndScan => s.scan.Scanning? && s.scan.rest == []
       case EndGuard(c) =>
         && s.collectors[c].readers == 1 && s.collectors[c].draining == {}
         && (s.scan.Idle? || s.scan.owner != c)
       case Invalidate(c) => s.collectors[c].readers == 0 && s.collectors[c].loaded.None?
       case Free(c, item) =>
         && s.collectors[c].readers > 0 && item in s.collectors[c].draining
         && (item.Exited? ==> item.collector in s.collectors)
  }

  /** The sessions active in `s`. */
  function ActiveSessions(s: State): set<(nat, nat)> {
    set c | c in s.collectors && s.collectors[c].active :: (c, s.collectors[c].session)
  }

  function WithRetired(s: State, c: nat, item: Item): State
    requires c in s.collectors && s.epochs != []
  {
    s.(collectors := s.collectors[c := Reclaimed(s.collectors[c], item)],
       retired := s.retired[item := s.era],
       pins := s.pins[item := ActiveSessions(s)])
  }

  function WithPublished(s: State, c: nat, epoch: nat, shift: bool): State
    requires c in s.collectors && s.epochs != []
  {
    var before := s.collectors[c];
    var now := Activated(before, epoch, shift).(
      session := before.session + 1, era := s.era, pubTick := Ticks(s));
    s.(collectors := s.collectors[c := now],
       scan := if s.scan.Idle? then Idle else s.scan.(late := s.scan.late + {c}))
  }

  function WithStep(s: State): State
    requires s.scan.Scanning? && s.scan.rest != []
  {
    s.(scan := s.scan.(rest := s.scan.rest[1..], kept := Some(s.scan.rest[0])))
  }

  function WithUnlinked(s: State): State
    requires s.scan.Scanning? && s.scan.rest != [] && 0 <= ScanPos(s)
    requires s.scan.owner in s.collectors && s.epochs != []
  {
    WithRetired(s, s.scan.owner, Exited(s.scan.rest[0])).(
      chain := RemoveAt(s.chain, ScanPos(s)),
      scan := s.scan.(rest := s.scan.rest[1..]))
  }

  /** One iteration of the loop of `try_scan`. */
  function Visited(s: State): State
    requires Enabled(s, Visit)
  {
    var other := s.collectors[s.scan.rest[0]];
    if s.scan.rest[0] == s.scan.owner then
      WithStep(s)
    else if other.invalid then
      if Unlinkable(s) then WithUnlinked(s) else WithStep(s)
    else if other.active && other.announcement != s.scan.known then
      s.(scan := Idle)
    else
      WithStep(s)
  }

  function WithEpoch(s: State, epoch: nat): State {
    if epoch == s.epoch then s
    else s.(epoch := epoch, era := s.era + 1, epochs := s.epochs + [epoch])
  }

  function WithFreed(s: State, c: nat, item: Item): State
    requires c in s.collectors && (item.Exited? ==> item.collector in s.collectors)
  {
    var from := s.collectors[c];
    var freed := s.freed + {item};
    match item
    case Instance(_) =>
      s.(freed := freed, collectors := s.collectors[c := from.(draining := from.draining - {item})])
    case Exited(x) =>
      // Dropping an exited thread's collector drops everything it still holds.
      var gone := s.collectors[x];
      var emptied := gone.(previous := {}, current := {}, next := {}, draining := {});
      s.(freed := freed,
         collectors := s.collectors[x := emptied][
           c := from.(draining := from.draining - {item} + Garbage(gone))])
  }

  function Apply(s: State, a: Action): State
    requires Enabled(s, a)
  {
    match a
    case Alloc(c) => s.(collectors := s.collectors[c := NewCollector()], chain := [c] + s.chain)
    case Activate(c, shift) => WithPublished(s, c, s.epoch, shift)
    case Load(c) =>
      s.(collectors := s.collectors[
        c := s.collectors[c].(loaded := Some(s.epoch))])
    case Publish(c, shift) =>
      WithPublished(s, c, s.collectors[c].loaded.value, shift)
    case Nest(c) =>
      s.(collectors := s.collectors[c := s.collectors[c].(readers := s.collectors[c].readers + 1)])
    case Unnest(c) =>
      s.(collectors := s.collectors[c := s.collectors[c].(readers := s.collectors[c].readers - 1)])
    case Retire(c, id) => WithRetired(s, c, Instance(id))
    case BeginScan(c) =>
      s.(scan := Scanning(c, s.collectors[c].announcement, s.chain, None, {}))
    case Visit => Visited(s)
    case EndScan => WithEpoch(s, NextEpoch(s.scan.known)).(scan := Idle)
    case EndGuard(c) => s.(collectors := s.collectors[c := Ended(s.collectors[c])])
    case Invalidate(c) =>
      s.(collectors := s.collectors[c := s.collectors[c].(invalid := true)])
    case Free(c, item) => WithFreed(s, c, item)
  }
}
