/** The backlog of availability samples a receiver has not accepted yet, compacted in place
    (internal/delivery/worker.go, bufferStates and pruneStates). */
module Backlog {
  import opened Types
  import opened Sorting
  import opened SlotGrid

  const MAX_PENDING_STATES := 10000

  function NotBefore(floor: int): Sample -> bool { (x: Sample) => x.timestampMs >= floor }

  /** The millisecond in which the current slot starts. */
  function Floor(zone: int, window: int, now: int): int
    requires window > 0
  {
    Millis(SlotStart(zone, now, window))
  }

  function Newest(s: seq<Sample>): seq<Sample> {
    if |s| > MAX_PENDING_STATES then s[|s| - MAX_PENDING_STATES..] else s
  }

  /** What Newest leaves out: the samples that MAX_PENDING_STATES later ones follow. */
  function Excess(s: seq<Sample>): seq<Sample> {
    if |s| > MAX_PENDING_STATES then s[..|s| - MAX_PENDING_STATES] else []
  }

  function InSlot(zone: int, window: int, now: int, s: seq<Sample>): seq<Sample> {
    if window > 0 then Filter(NotBefore(Floor(zone, window, now)), s) else s
  }

  /** The samples of the current slot, the newest ones if there are too many. */
  function Pruned(zone: int, window: int, now: int, s: seq<Sample>): seq<Sample> {
    Newest(InSlot(zone, window, now, s))
  }

  /** What is kept is a part of what was there, within bounds, and nothing of a slot closed by now. */
  lemma PrunedHolds(zone: int, window: int, now: int, s: seq<Sample>)
    ensures |Pruned(zone, window, now, s)| == Min(10000, |InSlot(zone, window, now, s)|)
    ensures forall x :: x in Pruned(zone, window, now, s) ==> x in s && (window > 0 ==> x.timestampMs >= Millis(SlotStart(zone, now, window)))
    ensures forall x :: x in s && (window > 0 ==> x.timestampMs >= Millis(SlotStart(zone, now, window))) ==>
              x in Pruned(zone, window, now, s) || x in Excess(InSlot(zone, window, now, s))
    ensures Excess(InSlot(zone, window, now, s)) + Pruned(zone, window, now, s) == InSlot(zone, window, now, s)
  {
    if window > 0 {
      FilterMembers(NotBefore(Floor(zone, window, now)), s);
    }
    var all := InSlot(zone, window, now, s);
    assert Excess(all) + Newest(all) == all;
    forall x | x in all ensures x in Newest(all) || x in Excess(all) {
      assert x in Excess(all) + Newest(all);
    }
  }

  class PendingStates {
    const zone: int
    const window: int
    var buffer: array<Sample>
    var count: nat

    ghost predicate Valid()
      reads this
    {
      count <= buffer.Length
    }

    ghost function Contents(): seq<Sample>
      requires Valid()
      reads this, buffer
    {
      buffer[..count]
    }

    constructor (zone: int, window: int)
      ensures Valid() && fresh(buffer) && Contents() == [] && this.zone == zone && this.window == window
    {
      this.zone, this.window := zone, window;
      buffer, count := new Sample[0], 0;
    }

    /** Grows the buffer when the samples do not fit. */
    method Append(samples: seq<Sample>)
      requires Valid()
      modifies this`buffer, this`count, buffer
      ensures Valid() && Contents() == old(Contents()) + samples
      ensures buffer == old(buffer) || fresh(buffer)
    {
      var total := count + |samples|;
      ghost var was := Contents();
      if total > buffer.Length {
        var grown := new Sample[2 * total](_ => Sample("", Unknown, 0));
        for i := 0 to count
          invariant grown[..i] == was[..i]
          invariant Valid() && Contents() == was && count == old(count)
        {
          grown[i] := buffer[i];
        }
        buffer := grown;
      }
      for i := 0 to |samples|
        invariant count == old(count) && count + |samples| <= buffer.Length && (buffer == old(buffer) || fresh(buffer))
        invariant buffer[..count + i] == was + samples[..i]
      {
        buffer[count + i] := samples[i];
        assert samples[..i + 1] == samples[..i] + [samples[i]];
      }
      count := total;
    }

    /** Keeps the samples not before floor, writing over the part already read. */
    method DropBefore(floor: int)
      requires Valid()
      modifies this`count, buffer
      ensures Valid() && Contents() == Filter(NotBefore(floor), old(Contents()))
    {
      var kept := 0;
      ghost var was := Contents();
      for i := 0 to count
        invariant kept <= i && count == old(count)
        invariant buffer[..kept] == Filter(NotBefore(floor), was[..i])
        invariant forall k :: i <= k < count ==> buffer[k] == was[k]
      {
        var sample := buffer[i];
        assert was[..i + 1][..i] == was[..i];
        if sample.timestampMs >= floor {
          buffer[kept] := sample;
          kept := kept + 1;
        }
      }
      assert was[..count] == was;
      count := kept;
    }

    /** Moves the newest samples to the front. */
    method DropExcess(excess: nat)
      requires Valid() && excess <= count
      modifies this`count, buffer
      ensures Valid() && Contents() == old(Contents())[excess..]
    {
      ghost var was := Contents();
      for i := 0 to count - excess
        invariant count == old(count)
        invariant forall k :: 0 <= k < i ==> buffer[k] == was[excess + k]
        invariant forall k :: i <= k < count ==> buffer[k] == was[k]
      {
        buffer[i] := buffer[excess + i];
      }
      count := count - excess;
    }

    method PruneStates(now: int)
      requires Valid()
      modifies this`count, buffer
      ensures Valid() && Contents() == Pruned(zone, window, now, old(Contents()))
    {
      if window > 0 {
        DropBefore(Millis(SlotStart(zone, now, window)));
      }
      var excess := count - MAX_PENDING_STATES;
      if excess > 0 {
        DropExcess(excess);
      }
    }

    /** The backlog becomes the newest samples, at most MAX_PENDING_STATES, of the old and new ones of
        the current slot. */
    method BufferStates(samples: seq<Sample>, now: int)
      requires Valid()
      modifies this`buffer, this`count, buffer
      ensures Valid() && (buffer == old(buffer) || fresh(buffer))
      ensures Contents() == if samples == [] then old(Contents()) else Pruned(zone, window, now, old(Contents()) + samples)
    {
      if |samples| == 0 {
        return;
      }
      Append(samples);
      PruneStates(now);
    }
  }
}
