/**
  The collector of one thread as an object: counters, the three intrusive garbage lists and the
  pace at which it asks for a scan. Its abstract value is the collector of the protocol.
 */
module EbrCollector {
  import opened Common
  import opened Ebr

  const CADENCE: nat := 255
  const MAX_READERS: nat := 0xFFFF_FFFF

  function Items(s: seq<Item>): set<Item> {
    set i | i in s
  }

  function SaturatingPred(n: nat): nat {
    if n == 0 then 0 else n - 1
  }

  class LocalCollector {
    var active: bool
    var invalid: bool
    var announcement: nat
    var nextEpochUpdate: nat
    var hasGarbage: bool
    var readers: nat
    var previous: seq<Item>
    var current: seq<Item>
    var next: seq<Item>

    /** `has_garbage` is exact. */
    ghost predicate GarbageKnown()
      reads this
    {
      hasGarbage <==> previous != [] || current != [] || next != []
    }

    ghost predicate Valid()
      reads this
    {
      && nextEpochUpdate <= CADENCE && readers <= MAX_READERS
      && (active <==> readers > 0)
      && GarbageKnown()
    }

    /** The collector as the protocol sees it, without history. */
    ghost function Value(): Collector
      reads this
    {
      NewCollector().(active := active, invalid := invalid, announcement := announcement,
        readers := readers, previous := Items(previous), current := Items(current), next := Items(next))
    }

    constructor ()
      ensures Valid() && Value() == NewCollector()
    {
      active, invalid, announcement := false, false, 0;
      nextEpochUpdate, hasGarbage, readers := CADENCE, false, 0;
      previous, current, next := [], [], [];
    }

    /** Enters a guard; tells whether an epoch other than the last announced one was announced. */
    method NewGuard(epoch: nat) returns (announced: bool)
      requires Valid() && readers < MAX_READERS
      modifies this`active, this`announcement, this`readers
      ensures Valid() && readers == old(readers) + 1
      ensures announced <==> old(readers) == 0 && old(announcement) != epoch
      ensures old(readers) == 0 ==>
                Value() == Activated(old(Value()), epoch, false)
      ensures old(readers) > 0 ==> announcement == old(announcement)
    {
      if readers == 0 {
        readers := 1;
        active := true;
        if announcement == epoch {
          announced := false;
        } else {
          announcement := epoch;
          announced := true;
        }
      } else {
        readers := readers + 1;
        announced := false;
      }
    }

    /** Ages the generations and drops the oldest one, newest retirement first. */
    method EpochUpdated() returns (dropped: seq<Item>)
      requires GarbageKnown()
      modifies this`hasGarbage, this`previous, this`current, this`next
      ensures GarbageKnown()
      ensures dropped == old(next) && next == old(previous) && previous == old(current) && current == []
      ensures Value().(draining := Items(dropped)) == Shifted(old(Value()))
    {
      var garbage := next;
      next := previous;
      previous := current;
      current := [];
      hasGarbage := next != [] || previous != [];
      dropped := [];
      while garbage != []
        invariant dropped + garbage == old(next)
        decreases |garbage|
      {
        dropped := dropped + [garbage[0]];
        garbage := garbage[1..];
      }
    }

    /** `Guard::new`: what is dropped is exactly what the protocol puts up for dropping. */
    method EnterGuard(epoch: nat) returns (dropped: seq<Item>)
      requires Valid() && readers < MAX_READERS
      modifies this`active, this`announcement, this`readers, this`hasGarbage, this`previous, this`current, this`next
      ensures Valid() && readers == old(readers) + 1
      ensures old(readers) == 0 ==>
                Value().(draining := Items(dropped)) == Activated(old(Value()), epoch, true)
      ensures old(readers) > 0 ==> dropped == []
    {
      var announced := NewGuard(epoch);
      dropped := [];
      if announced {
        dropped := EpochUpdated();
      }
    }

    /** Puts an instance in front of the current generation and brings the next scan closer. */
    method Reclaim(item: Item)
      requires Valid()
      modifies this`current, this`nextEpochUpdate, this`hasGarbage
      ensures Valid() && current == [item] + old(current)
      ensures Value() == Reclaimed(old(Value()), item)
      ensures nextEpochUpdate <= CADENCE / 4 && nextEpochUpdate <= old(nextEpochUpdate)
      ensures nextEpochUpdate == old(nextEpochUpdate) ==> nextEpochUpdate == 0
    {
      current := [item] + current;
      assert Items(current) == Items(old(current)) + {item};
      var sooner := SaturatingPred(nextEpochUpdate);
      nextEpochUpdate := if sooner < CADENCE / 4 then sooner else CADENCE / 4;
      hasGarbage := true;
    }

    /**
      Leaves a guard. When the last guard goes and the count-down is over, it asks for a scan if it
      has garbage or an exited collector has been announced; `unlinked` are the exited collectors
      that scan takes off the list.
     */
    method EndGuard(scanEnforced: bool, unlinked: seq<Item>) returns (scanned: bool)
      requires Valid() && readers > 0
      modifies this
      ensures Valid() && readers == old(readers) - 1
      ensures previous == old(previous) && next == old(next) && announcement == old(announcement)
      ensures scanned <==> old(readers) == 1 && old(nextEpochUpdate) == 0 && (old(hasGarbage) || scanEnforced)
      ensures Items(current) == Items(old(current)) + (if scanned then Items(unlinked) else {})
      ensures old(readers) == 1 && !scanned ==> Value() == Ended(old(Value()))
      ensures old(readers) == 1 && old(nextEpochUpdate) == 0 ==>
                nextEpochUpdate == if hasGarbage then CADENCE / 4 else CADENCE
      ensures old(readers) == 1 && old(nextEpochUpdate) > 0 ==> nextEpochUpdate == old(nextEpochUpdate) - 1
    {
      scanned := false;
      if readers == 1 {
        if nextEpochUpdate == 0 {
          if hasGarbage || scanEnforced {
            scanned := true;
            var i := 0;
            while i < |unlinked|
              invariant 0 <= i <= |unlinked|
              invariant Valid() && readers == 1
              invariant previous == old(previous) && next == old(next) && announcement == old(announcement)
              invariant Items(current) == Items(old(current)) + Items(unlinked[..i])
            {
              Reclaim(unlinked[i]);
              assert unlinked[..i + 1] == unlinked[..i] + [unlinked[i]];
              i := i + 1;
            }
            assert unlinked[..i] == unlinked;
          }
          nextEpochUpdate := if hasGarbage then CADENCE / 4 else CADENCE;
        } else {
          nextEpochUpdate := SaturatingPred(nextEpochUpdate);
        }
        active := false;
        readers := 0;
      } else {
        readers := readers - 1;
      }
    }

    /** Dropping a collector drops all it still holds, oldest generation first, and nothing else. */
    method Drop() returns (dropped: seq<Item>)
      requires Valid()
      modifies this
      ensures dropped == old(next) + old(previous) + old(current)
      ensures next == [] && previous == [] && current == [] && !hasGarbage
    {
      active, invalid := true, false;
      announcement := 0;
      dropped := [];
      while hasGarbage
        invariant GarbageKnown()
        invariant dropped + next + previous + current == old(next) + old(previous) + old(current)
        decreases if current != [] then 3 else if previous != [] then 2 else if next != [] then 1 else 0
      {
        var more := EpochUpdated();
        dropped := dropped + more;
      }
    }
  }
}
