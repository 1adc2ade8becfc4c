/** `BoundedUUIDSet` of ref/CC-Source/src/bridge/bridgeMessaging.ts: a ring of identifiers and the set
    of those in it. */
module BoundedUuidSets {
  import opened Wrappers

  /** The last `capacity` entries. */
  function Window(accepted: seq<string>, capacity: nat): (w: seq<string>)
    ensures |w| == if |accepted| < capacity then |accepted| else capacity
  {
    if |accepted| < capacity then accepted else accepted[|accepted| - capacity..]
  }

  /** What has been accepted when `uuid` has been added. */
  function Accept(accepted: seq<string>, capacity: nat, uuid: string): seq<string> {
    if uuid in Window(accepted, capacity) then accepted else accepted + [uuid]
  }

  /** Two acceptances of one identifier are more than `capacity` acceptances apart. */
  ghost predicate Spaced(accepted: seq<string>, capacity: nat) {
    forall i, j :: 0 <= i < j < |accepted| && accepted[i] == accepted[j] ==> j - i > capacity
  }

  /** An identifier is remembered exactly while fewer than `capacity` others have been accepted since. */
  lemma InWindowIff(accepted: seq<string>, capacity: nat, uuid: string)
    ensures uuid in Window(accepted, capacity) <==>
            exists i :: 0 <= i < |accepted| && accepted[i] == uuid && |accepted| - i <= capacity
  {
    var w := Window(accepted, capacity);
    var from := |accepted| - |w|;
    if uuid in w {
      var k :| 0 <= k < |w| && w[k] == uuid;
      assert accepted[from + k] == uuid;
    }
    if i :| 0 <= i < |accepted| && accepted[i] == uuid && |accepted| - i <= capacity {
      assert w[i - from] == uuid;
    }
  }

  lemma AcceptKeepsSpaced(accepted: seq<string>, capacity: nat, uuid: string)
    requires Spaced(accepted, capacity)
    ensures Spaced(Accept(accepted, capacity, uuid), capacity)
  {
    InWindowIff(accepted, capacity, uuid);
  }

  /** Adding a new identifier to a full window drops its oldest entry and nothing else. */
  lemma OldestLeaves(accepted: seq<string>, capacity: nat, uuid: string)
    requires capacity > 0
    ensures var w := Window(accepted, capacity);
            Window(accepted + [uuid], capacity) == (if |w| == capacity then w[1..] else w) + [uuid]
  {
  }

  function Elements(s: seq<string>): set<string> {
    set x | x in s
  }

  function Wrap(i: nat, capacity: nat): nat {
    if i < capacity then i else i - capacity
  }

  function Advance(i: nat, capacity: nat): (r: nat)
    requires i < capacity
    ensures r == Wrap(i + 1, capacity)
  {
    (i + 1) % capacity
  }

  /** The slots, read from `writeIdx` around, hold the window from its oldest entry to its newest;
      before the ring is full they hold it from the start, and the rest is unused. */
  ghost predicate RingHolds(slots: seq<Option<string>>, writeIdx: nat, accepted: seq<string>)
    ensures RingHolds(slots, writeIdx, accepted) ==> writeIdx < |slots|
  {
    && writeIdx < |slots|
    && if |accepted| < |slots| then
         && writeIdx == |accepted|
         && (forall k :: 0 <= k < |slots| ==> slots[k] == if k < writeIdx then Some(accepted[k]) else None)
       else
         forall k :: 0 <= k < |slots| ==> slots[Wrap(writeIdx + k, |slots|)] == Some(Window(accepted, |slots|)[k])
  }

  lemma FillingStep(slots: seq<Option<string>>, writeIdx: nat, accepted: seq<string>, uuid: string)
    requires RingHolds(slots, writeIdx, accepted) && |accepted| + 1 < |slots|
    ensures RingHolds(slots[writeIdx := Some(uuid)], writeIdx + 1, accepted + [uuid])
  {
  }

  lemma FilledStep(slots: seq<Option<string>>, writeIdx: nat, accepted: seq<string>, uuid: string)
    requires RingHolds(slots, writeIdx, accepted) && |accepted| + 1 == |slots|
    ensures RingHolds(slots[writeIdx := Some(uuid)], 0, accepted + [uuid])
  {
    assert (accepted + [uuid])[0..] == accepted + [uuid];
  }

  lemma FullStep(slots: seq<Option<string>>, writeIdx: nat, accepted: seq<string>, uuid: string)
    requires RingHolds(slots, writeIdx, accepted) && |accepted| >= |slots|
    ensures RingHolds(slots[writeIdx := Some(uuid)], Wrap(writeIdx + 1, |slots|), accepted + [uuid])
  {
    var n := |slots|;
    var slots', w' := slots[writeIdx := Some(uuid)], Wrap(writeIdx + 1, n);
    OldestLeaves(accepted, n, uuid);
    hide Window;
    forall k | 0 <= k < n
      ensures slots'[Wrap(w' + k, n)] == Some(Window(accepted + [uuid], n)[k])
    {
      if k < n - 1 {
        assert Wrap(w' + k, n) == Wrap(writeIdx + (k + 1), n) != writeIdx;
        assert slots[Wrap(writeIdx + (k + 1), n)] == Some(Window(accepted, n)[k + 1]);
      } else {
        assert Wrap(w' + k, n) == writeIdx;
      }
    }
  }

  /** Writing at `writeIdx` and moving on adds the newest entry in the place of the oldest. */
  lemma RingStep(slots: seq<Option<string>>, writeIdx: nat, accepted: seq<string>, uuid: string)
    requires RingHolds(slots, writeIdx, accepted)
    ensures RingHolds(slots[writeIdx := Some(uuid)], Wrap(writeIdx + 1, |slots|), accepted + [uuid])
  {
    if |accepted| >= |slots| {
      FullStep(slots, writeIdx, accepted, uuid);
    } else if |accepted| + 1 == |slots| {
      FilledStep(slots, writeIdx, accepted, uuid);
    } else {
      FillingStep(slots, writeIdx, accepted, uuid);
    }
  }

  /** The evicted entry is the oldest of the window, and once only there. */
  lemma EvictionStep(slots: seq<Option<string>>, writeIdx: nat, accepted: seq<string>, uuid: string)
    requires RingHolds(slots, writeIdx, accepted) && Spaced(accepted, |slots|)
    ensures var evicted := if slots[writeIdx].Some? then {slots[writeIdx].value} else {};
            Elements(Window(accepted + [uuid], |slots|)) == Elements(Window(accepted, |slots|)) - evicted + {uuid}
  {
    var n := |slots|;
    OldestLeaves(accepted, n, uuid);
    if |accepted| >= n {
      var w := Window(accepted, n);
      assert slots[Wrap(writeIdx + 0, n)] == Some(w[0]);
      OnceInWindow(accepted, n);
      hide Window, Spaced, RingHolds;
      assert w == [w[0]] + w[1..];
    }
  }

  lemma OnceInWindow(accepted: seq<string>, capacity: nat)
    requires Spaced(accepted, capacity) && 0 < capacity <= |accepted|
    ensures Window(accepted, capacity)[0] !in Window(accepted, capacity)[1..]
  {
    var w := Window(accepted, capacity);
    var from := |accepted| - capacity;
    forall k | 1 <= k < capacity
      ensures w[k] != w[0]
    {
      assert w[k] == accepted[from + k] && w[0] == accepted[from];
    }
  }

  class BoundedUuidSet {
    const capacity: nat
    const ring: array<Option<string>>
    var members: set<string>
    var writeIdx: nat
    /** Every identifier accepted since the set was created or cleared, in order. */
    ghost var accepted: seq<string>

    ghost predicate Valid()
      reads this, ring
    {
      && 0 < capacity == ring.Length
      && RingHolds(ring[..], writeIdx, accepted)
      && Spaced(accepted, capacity)
      && members == Elements(Window(accepted, capacity))
    }

    constructor (capacity: nat)
      requires capacity > 0
      ensures Valid() && this.capacity == capacity && accepted == [] && fresh(ring)
    {
      this.capacity := capacity;
      ring := new Option<string>[capacity](_ => None);
      members := {};
      writeIdx := 0;
      accepted := [];
    }

    method Add(uuid: string)
      requires Valid()
      modifies this, ring
      ensures Valid() && accepted == Accept(old(accepted), capacity, uuid)
    {
      AcceptKeepsSpaced(accepted, capacity, uuid);
      if uuid !in members {
        Overwrite(uuid);
      }
    }

    /** Evict what the next slot holds, if anything, and put the new identifier there. */
    method Overwrite(uuid: string)
      requires Valid() && Spaced(accepted + [uuid], capacity)
      modifies this, ring
      ensures Valid() && accepted == old(accepted) + [uuid]
    {
      hide RingHolds, Spaced, Window, Elements, Wrap, Advance;
      ghost var slots := ring[..];
      RingStep(slots, writeIdx, accepted, uuid);
      EvictionStep(slots, writeIdx, accepted, uuid);
      var evicted := ring[writeIdx];
      if evicted.Some? {
        members := members - {evicted.value};
      }
      ring[writeIdx] := Some(uuid);
      members := members + {uuid};
      assert ring[..] == slots[writeIdx := Some(uuid)];
      writeIdx := Advance(writeIdx, capacity);
      accepted := accepted + [uuid];
    }

    method Has(uuid: string) returns (r: bool)
      requires Valid()
      ensures r <==> uuid in Window(accepted, capacity)
    {
      return uuid in members;
    }

    method Clear()
      requires Valid()
      modifies this, ring
      ensures Valid() && accepted == []
    {
      members := {};
      for i := 0 to ring.Length
        invariant forall k :: 0 <= k < i ==> ring[k] == None
        invariant members == {}
      {
        ring[i] := None;
      }
      writeIdx := 0;
      accepted := [];
    }
  }
}
