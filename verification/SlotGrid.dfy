/** The local-time slot grid and its edges (internal/recovery/backfill.go, SlotStart to
    RecoveryWindow). Times are nanoseconds, zone the fixed offset of the local zone. */
module SlotGrid {
  import opened Types

  const MILLISECOND := 1_000_000
  const SECOND := 1_000_000_000
  const MINUTE := 60_000_000_000
  const HOUR := 3_600_000_000_000

  const SLOT_END_FRACTION := 5 * MILLISECOND
  const SLOT_END_LEAD := SECOND - SLOT_END_FRACTION

  /** The millisecond an instant falls into. */
  function Millis(t: int): int { t / MILLISECOND }

  function SlotStart(zone: int, t: int, size: int): int
    requires size > 0
  {
    var local := t + zone;
    var hour := local - local % HOUR;
    var minute := local % HOUR / MINUTE;
    hour + minute * MINUTE / size * size - zone
  }

  function SlotOpeningTime(start: int): int { start + SLOT_END_FRACTION }

  function SlotClosingTime(start: int, size: int): int { start + size - SLOT_END_LEAD }

  /** None stands for the zero time. */
  function DueSlotOpening(zone: int, now: int, size: int): Option<int> {
    if size <= SLOT_END_LEAD then None
    else
      var start := SlotStart(zone, now, size);
      if now >= SlotOpeningTime(start) && now < start + size then Some(SlotOpeningTime(start)) else None
  }

  function DueSlotClosing(zone: int, now: int, size: int): Option<int> {
    if size <= SLOT_END_LEAD then None
    else
      var start := SlotStart(zone, now, size);
      if now >= SlotClosingTime(start, size) && now < start + size then Some(SlotClosingTime(start, size)) else None
  }

  function NextSlotOpening(zone: int, now: int, size: int): Option<int> {
    if size <= SLOT_END_LEAD then None
    else
      var start := SlotStart(zone, now, size);
      if now < SlotOpeningTime(start) then Some(SlotOpeningTime(start)) else Some(SlotOpeningTime(start + size))
  }

  function NextSlotClosing(zone: int, now: int, size: int): Option<int> {
    if size <= SLOT_END_LEAD then None
    else
      var start := SlotStart(zone, now, size);
      if now < SlotClosingTime(start, size) then Some(SlotClosingTime(start, size))
      else Some(SlotClosingTime(start + size, size))
  }

  function RecoveryWindow(zone: int, ready: int, size: int): Option<(int, int)> {
    if size <= 0 then None
    else
      var start := SlotStart(zone, ready, size);
      if ready <= start then None else Some((start, ready))
  }

  // ------------------------------------------------------------------ the grid

  /** A window of whole minutes that divides an hour. */
  predicate WholeWindow(size: int) { size > 0 && size % MINUTE == 0 && HOUR % size == 0 }

  /** Start of the k-th slot of the grid. */
  function Slot(zone: int, size: int, k: int): int { k * size - zone }

  /** The k with Slot(k) <= t < Slot(k + 1). */
  function SlotIndex(zone: int, size: int, t: int): int
    requires size > 0
  {
    (t + zone) / size
  }

  lemma {:induction false} MulAtLeast(d: int, size: int)
    requires d >= 1 && size > 0
    ensures d * size >= size
    decreases d
  {
    if d > 1 {
      MulAtLeast(d - 1, size);
      assert d * size == (d - 1) * size + size;
    }
  }

  lemma QuotientNotBelow(d: int, q: int, r: int, q': int, r': int)
    requires d > 0 && q * d + r == q' * d + r' && 0 <= r < d && 0 <= r' < d
    ensures q >= q'
  {
    if q < q' {
      MulAtLeast(q' - q, d);
      assert false;
    }
  }

  lemma DivModUnique(x: int, d: int, q: int, r: int)
    requires d > 0 && x == q * d + r && 0 <= r < d
    ensures x / d == q && x % d == r
  {
    assert x == x / d * d + x % d;
    QuotientNotBelow(d, q, r, x / d, x % d);
    QuotientNotBelow(d, x / d, x % d, q, r);
  }

  lemma FloorToMinute(r: int, c: int)
    requires c * MINUTE <= r
    ensures c * MINUTE <= r - r % MINUTE
  {
  }

  /** For a whole window SlotStart is the grid point at or before t, whatever the hour. */
  lemma SlotStartOnGrid(zone: int, t: int, size: int)
    requires WholeWindow(size)
    ensures SlotStart(zone, t, size) == Slot(zone, size, SlotIndex(zone, size, t))
  {
    var local := t + zone;
    var hours, r := local / HOUR, local % HOUR;
    var a, b := r / size, r % size;
    assert r == a * size + b;
    var m := r / MINUTE * MINUTE;
    MinutesReachSlot(size, r, a);
    DivModUnique(m, size, a, m - a * size);
    var perHour := HOUR / size;
    assert HOUR == perHour * size;
    assert hours * HOUR == (hours * perHour) * size by {
      assert hours * (perHour * size) == (hours * perHour) * size;
    }
    assert local == (hours * perHour + a) * size + b by {
      assert (hours * perHour + a) * size == (hours * perHour) * size + a * size;
    }
    DivModUnique(local, size, hours * perHour + a, b);
  }

  /** Dropping the seconds does not leave the slot when slots start at whole minutes. */
  lemma MinutesReachSlot(size: int, r: int, a: int)
    requires size > 0 && size % MINUTE == 0 && a * size <= r < a * size + size
    ensures a * size <= r / MINUTE * MINUTE < a * size + size
  {
    var k := size / MINUTE;
    assert a * size == (a * k) * MINUTE by {
      assert size == k * MINUTE;
      assert a * (k * MINUTE) == (a * k) * MINUTE;
    }
    FloorToMinute(r, a * k);
  }

  lemma SlotsIncrease(zone: int, size: int, j: int, k: int)
    requires size > 0 && j < k
    ensures Slot(zone, size, j) + size <= Slot(zone, size, k)
  {
    MulAtLeast(k - j, size);
    assert k * size == j * size + (k - j) * size;
  }

  lemma SlotIndexBrackets(zone: int, size: int, t: int)
    requires size > 0
    ensures var k := SlotIndex(zone, size, t); Slot(zone, size, k) <= t < Slot(zone, size, k) + size
  {
    var x := t + zone;
    assert x == x / size * size + x % size;
  }

  lemma SlotIndexUnique(zone: int, size: int, t: int, k: int)
    requires size > 0 && Slot(zone, size, k) <= t < Slot(zone, size, k) + size
    ensures SlotIndex(zone, size, t) == k
  {
    DivModUnique(t + zone, size, k, t - Slot(zone, size, k));
  }

  /** SlotStart is the greatest grid point not after t, t lies in its slot, and it is idempotent. */
  lemma SlotStartIsFloor(zone: int, t: int, size: int)
    requires WholeWindow(size)
    ensures var start := SlotStart(zone, t, size);
      && (exists k :: start == Slot(zone, size, k))
      && start <= t < start + size
      && (forall k :: Slot(zone, size, k) <= t ==> Slot(zone, size, k) <= start)
      && SlotStart(zone, start, size) == start
  {
    var i := SlotIndex(zone, size, t);
    var start := SlotStart(zone, t, size);
    SlotStartOnGrid(zone, t, size);
    SlotIndexBrackets(zone, size, t);
    forall k | Slot(zone, size, k) <= t ensures Slot(zone, size, k) <= start {
      if k > i { SlotsIncrease(zone, size, i, k); } else if k < i { SlotsIncrease(zone, size, k, i); }
    }
    SlotIndexUnique(zone, size, start, i);
    SlotStartOnGrid(zone, start, size);
  }

  /** Containment holds for every time exactly when the window is a whole number of minutes. */
  lemma ContainmentIff(zone: int, size: int)
    requires size > 0 && HOUR % size == 0
    ensures (forall t :: SlotStart(zone, t, size) <= t < SlotStart(zone, t, size) + size) <==> size % MINUTE == 0
  {
    if size % MINUTE == 0 {
      forall t ensures SlotStart(zone, t, size) <= t < SlotStart(zone, t, size) + size {
        SlotStartIsFloor(zone, t, size);
      }
    } else {
      PartialMinutesEscape(zone, size, 0);
      assert !(size - zone < SlotStart(zone, size - zone, size) + size);
    }
  }

  lemma DividesHour(size: int)
    requires size > 0 && HOUR % size == 0
    ensures size <= HOUR && HOUR == HOUR / size * size
  {
    if size > HOUR {
      DivModUnique(HOUR, size, 0, HOUR);
      assert false;
    }
  }

  /** Just after the second slot begins, SlotStart still answers with the first one. */
  lemma PartialMinutesEscape(zone: int, size: int, late: int)
    requires size > 0 && HOUR % size == 0 && size % MINUTE != 0
    requires 0 <= late && size % MINUTE + late < MINUTE
    ensures SlotStart(zone, size - zone + late, size) == -zone
  {
    DividesHour(size);
    var local := size + late;
    assert size < HOUR;
    assert local < HOUR;
    DivModUnique(local, HOUR, 0, local);
    var minute := local / MINUTE;
    assert minute == size / MINUTE;
    assert 0 <= minute * MINUTE < size;
    DivModUnique(minute * MINUTE, size, 0, minute * MINUTE);
  }

  // ------------------------------------------------------------------ the edges

  function Opening(zone: int, size: int, k: int): int { SlotOpeningTime(Slot(zone, size, k)) }

  function Closing(zone: int, size: int, k: int): int { SlotClosingTime(Slot(zone, size, k), size) }

  lemma WholeWindowIsLong(size: int)
    requires WholeWindow(size)
    ensures size >= MINUTE
  {
  }

  lemma NextSlot(zone: int, size: int, k: int)
    ensures Slot(zone, size, k + 1) == Slot(zone, size, k) + size
  {
  }

  /** Each slot opens 5 ms after its start, closes 995 ms before its end, and then the next one opens. */
  lemma EdgesAlternate(zone: int, size: int, k: int)
    requires WholeWindow(size)
    ensures Slot(zone, size, k) < Opening(zone, size, k) < Closing(zone, size, k) < Slot(zone, size, k + 1) < Opening(zone, size, k + 1)
    ensures Opening(zone, size, k) == Slot(zone, size, k) + 5_000_000
    ensures Closing(zone, size, k) == Slot(zone, size, k + 1) - 995_000_000
  {
    WholeWindowIsLong(size);
    NextSlot(zone, size, k);
  }

  /** The opening edge scheduled behind an opening edge that fired. */
  function OpeningAfter(zone: int, size: int, fired: int): int
    requires size > 0
  {
    SlotOpeningTime(SlotStart(zone, fired, size) + size)
  }

  function ClosingAfter(zone: int, size: int, fired: int): int
    requires size > 0
  {
    SlotClosingTime(SlotStart(zone, fired, size) + size, size)
  }

  lemma EdgesAdvance(zone: int, size: int, k: int)
    requires WholeWindow(size)
    ensures OpeningAfter(zone, size, Opening(zone, size, k)) == Opening(zone, size, k + 1)
    ensures ClosingAfter(zone, size, Closing(zone, size, k)) == Closing(zone, size, k + 1)
  {
    EdgesAlternate(zone, size, k);
    NextSlot(zone, size, k);
    SlotIndexUnique(zone, size, Opening(zone, size, k), k);
    SlotStartOnGrid(zone, Opening(zone, size, k), size);
    SlotIndexUnique(zone, size, Closing(zone, size, k), k);
    SlotStartOnGrid(zone, Closing(zone, size, k), size);
  }

  /** Each Next edge is the first of its kind strictly after now. */
  lemma NextIsLeast(zone: int, now: int, size: int)
    requires WholeWindow(size)
    ensures var o, c := NextSlotOpening(zone, now, size), NextSlotClosing(zone, now, size);
      && o.Some? && now < o.value && (exists k :: o.value == Opening(zone, size, k))
      && c.Some? && now < c.value && (exists k :: c.value == Closing(zone, size, k))
      && (forall k :: now < Opening(zone, size, k) ==> o.value <= Opening(zone, size, k))
      && (forall k :: now < Closing(zone, size, k) ==> c.value <= Closing(zone, size, k))
  {
    var i := SlotIndex(zone, size, now);
    WholeWindowIsLong(size);
    SlotStartOnGrid(zone, now, size);
    SlotIndexBrackets(zone, size, now);
    NextSlot(zone, size, i);
    var o, c := NextSlotOpening(zone, now, size).value, NextSlotClosing(zone, now, size).value;
    assert o == Opening(zone, size, i) || o == Opening(zone, size, i + 1);
    assert c == Closing(zone, size, i) || c == Closing(zone, size, i + 1);
    forall k | now < Opening(zone, size, k) ensures o <= Opening(zone, size, k) {
      if k < i { SlotsIncrease(zone, size, k, i); } else if k > i + 1 { SlotsIncrease(zone, size, i + 1, k); }
    }
    forall k | now < Closing(zone, size, k) ensures c <= Closing(zone, size, k) {
      if k < i { SlotsIncrease(zone, size, k, i); } else if k > i + 1 { SlotsIncrease(zone, size, i + 1, k); }
    }
  }

  /** Each Due edge is the current slot's, exactly when it has been reached. */
  lemma DueIsCurrent(zone: int, now: int, size: int)
    requires WholeWindow(size)
    ensures var k := SlotIndex(zone, size, now);
      && DueSlotOpening(zone, now, size) == (if now >= Opening(zone, size, k) then Some(Opening(zone, size, k)) else None)
      && DueSlotClosing(zone, now, size) == (if now >= Closing(zone, size, k) then Some(Closing(zone, size, k)) else None)
  {
    WholeWindowIsLong(size);
    SlotStartOnGrid(zone, now, size);
    SlotIndexBrackets(zone, size, now);
  }

  /** The recovered interval lies in the slot of its end and starts at that slot. It is empty exactly
      at a slot start. */
  lemma RecoveryWindowIsCurrentSlot(zone: int, ready: int, size: int)
    requires WholeWindow(size)
    ensures var w, k := RecoveryWindow(zone, ready, size), SlotIndex(zone, size, ready);
      && (w.None? <==> ready == Slot(zone, size, k))
      && (w.Some? ==> w.value == (Slot(zone, size, k), ready) && ready < Slot(zone, size, k + 1))
  {
    SlotStartOnGrid(zone, ready, size);
    SlotIndexBrackets(zone, size, ready);
    NextSlot(zone, size, SlotIndex(zone, size, ready));
  }

  // ------------------------------------------------------------------ windows the configuration admits

  predicate Configured(size: int) { 5 * MINUTE <= size <= HOUR && HOUR % size == 0 }

  /** Of the windows the configuration admits, only 7m30s and 6m40s are not whole minutes. */
  lemma ConfiguredWindows(size: int)
    requires Configured(size)
    ensures WholeWindow(size) <==> size != 450 * SECOND && size != 400 * SECOND
  {
    var n := HOUR / size;
    DividesHour(size);
    assert n * size == HOUR;
    Quotients(size, n);
    if n == 8 { assert size == 450 * SECOND; }
    else if n == 9 { assert size == 400 * SECOND; }
    else { assert size % MINUTE == 0; }
  }

  /** Twelve quotients at most, and neither 7 nor 11 divides an hour into whole nanoseconds. */
  lemma Quotients(size: int, n: int)
    requires 5 * MINUTE <= size <= HOUR && n * size == HOUR
    ensures n in {1, 2, 3, 4, 5, 6, 8, 9, 10, 12}
  {
    if n > 12 {
      MulAtLeast(n - 12, size);
      assert false;
    }
  }

  /** Behind every opening edge the next one is scheduled exactly when the admitted window is a whole
      number of minutes. With 7m30s or 6m40s the second opening is scheduled again and again. */
  lemma OpeningsAdvanceIff(zone: int, size: int)
    requires Configured(size)
    ensures (forall k :: OpeningAfter(zone, size, Opening(zone, size, k)) == Opening(zone, size, k + 1)) <==> size % MINUTE == 0
    ensures size % MINUTE != 0 ==> OpeningAfter(zone, size, Opening(zone, size, 1)) == Opening(zone, size, 1)
  {
    ConfiguredWindows(size);
    if size % MINUTE == 0 {
      forall k ensures OpeningAfter(zone, size, Opening(zone, size, k)) == Opening(zone, size, k + 1) {
        EdgesAdvance(zone, size, k);
      }
    } else {
      assert size == 450 * SECOND || size == 400 * SECOND;
      PartialMinutesEscape(zone, size, SLOT_END_FRACTION);
      assert Slot(zone, size, 1) == size - zone;
      NextSlot(zone, size, 1);
      assert OpeningAfter(zone, size, Opening(zone, size, 1)) != Opening(zone, size, 1 + 1);
    }
  }
}
