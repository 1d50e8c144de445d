/** When slot-edge samples are taken: the slot timer of a worker (internal/delivery/worker.go, Run). */
module SlotScheduler {
  import opened Types
  import opened SlotGrid

  const MAX_PENDING := 4

  /** The edges of all slots in time order: slot k opens at edge 2k and closes at edge 2k + 1. */
  function Edge(zone: int, size: int, m: int): int {
    if m % 2 == 0 then Opening(zone, size, m / 2) else Closing(zone, size, m / 2)
  }

  lemma EdgeIncreases(zone: int, size: int, m: int)
    requires WholeWindow(size)
    ensures Edge(zone, size, m) < Edge(zone, size, m + 1)
  {
    EdgesAlternate(zone, size, m / 2);
    if m % 2 == 1 {
      assert (m + 1) / 2 == m / 2 + 1;
    }
  }

  lemma {:induction false} EdgesIncrease(zone: int, size: int, m: int, n: int)
    requires WholeWindow(size) && m < n
    ensures Edge(zone, size, m) < Edge(zone, size, n)
    decreases n - m
  {
    EdgeIncreases(zone, size, n - 1);
    if m < n - 1 {
      EdgesIncrease(zone, size, m, n - 1);
    }
  }

  /** The edges from m up to but not including n. */
  function Edges(zone: int, size: int, m: int, n: int): seq<int>
    requires m <= n
  {
    seq(n - m, i => Edge(zone, size, m + i))
  }

  /** A run of edges misses none: an opening or closing instant between its ends is in it. */
  lemma EdgesComplete(zone: int, size: int, m: int, n: int, k: int)
    requires WholeWindow(size) && m <= n
    ensures Edge(zone, size, m) <= Opening(zone, size, k) < Edge(zone, size, n) ==> Opening(zone, size, k) in Edges(zone, size, m, n)
    ensures Edge(zone, size, m) <= Closing(zone, size, k) < Edge(zone, size, n) ==> Closing(zone, size, k) in Edges(zone, size, m, n)
  {
    EdgeInRun(zone, size, m, n, 2 * k);
    EdgeInRun(zone, size, m, n, 2 * k + 1);
    assert (2 * k + 1) / 2 == k;
  }

  lemma EdgeInRun(zone: int, size: int, m: int, n: int, j: int)
    requires WholeWindow(size) && m <= n
    ensures Edge(zone, size, m) <= Edge(zone, size, j) < Edge(zone, size, n) ==> Edge(zone, size, j) in Edges(zone, size, m, n)
  {
    if j < m {
      EdgesIncrease(zone, size, j, m);
    } else if j >= n {
      if j > n { EdgesIncrease(zone, size, n, j); }
    } else {
      assert Edges(zone, size, m, n)[j - m] == Edge(zone, size, j);
    }
  }

  lemma EdgesSplit(zone: int, size: int, m: int, n: int)
    requires m <= n
    ensures Edges(zone, size, m, n + 1) == Edges(zone, size, m, n) + [Edge(zone, size, n)]
    ensures m < n ==> Edges(zone, size, m, n)[1..] == Edges(zone, size, m + 1, n)
  {
  }

  function Earlier(a: int, b: int): int { if a < b then a else b }

  /** The two edges a timer waits for: edge next and the one behind it. */
  predicate Scheduled(zone: int, size: int, next: int, opening: int, closing: int) {
    if next % 2 == 0
    then opening == Edge(zone, size, next) && closing == Edge(zone, size, next + 1)
    else closing == Edge(zone, size, next) && opening == Edge(zone, size, next + 1)
  }

  lemma AdvanceScheduled(zone: int, size: int, next: int, opening: int, closing: int)
    requires WholeWindow(size) && Scheduled(zone, size, next, opening, closing)
    ensures Earlier(opening, closing) == Edge(zone, size, next)
    ensures if Edge(zone, size, next) == opening
            then Scheduled(zone, size, next + 1, OpeningAfter(zone, size, opening), closing)
            else Scheduled(zone, size, next + 1, opening, ClosingAfter(zone, size, closing))
  {
    ScheduledNext(zone, size, next, opening, closing);
    EdgeIncreases(zone, size, next);
    if next % 2 == 0 {
      OpeningFires(zone, size, next / 2);
    } else {
      ClosingFires(zone, size, next / 2);
    }
  }

  lemma OpeningFires(zone: int, size: int, k: int)
    requires WholeWindow(size)
    ensures Edge(zone, size, 2 * k) == Opening(zone, size, k)
    ensures OpeningAfter(zone, size, Opening(zone, size, k)) == Edge(zone, size, 2 * k + 2)
  {
    EdgesAdvance(zone, size, k);
    assert 2 * k / 2 == k && (2 * k + 2) / 2 == k + 1;
  }

  lemma ClosingFires(zone: int, size: int, k: int)
    requires WholeWindow(size)
    ensures Edge(zone, size, 2 * k + 1) == Closing(zone, size, k)
    ensures ClosingAfter(zone, size, Closing(zone, size, k)) == Edge(zone, size, 2 * k + 3)
  {
    EdgesAdvance(zone, size, k);
    assert (2 * k + 1) / 2 == k && (2 * k + 3) / 2 == k + 1;
  }

  lemma ScheduledNext(zone: int, size: int, next: int, opening: int, closing: int)
    requires WholeWindow(size) && Scheduled(zone, size, next, opening, closing)
    ensures Earlier(opening, closing) == Edge(zone, size, next)
  {
    EdgeIncreases(zone, size, next);
  }

  // ------------------------------------------------------------------ any window

  datatype Scheduling = Scheduling(opening: int, closing: int)

  function First(at: Scheduling): int { Earlier(at.opening, at.closing) }

  /** What is scheduled once the earlier edge has fired. */
  function Fired(zone: int, size: int, at: Scheduling): Scheduling
    requires size > 0
  {
    if at.opening <= at.closing then at.(opening := OpeningAfter(zone, size, at.opening))
    else at.(closing := ClosingAfter(zone, size, at.closing))
  }

  function Rounds(zone: int, size: int, at: Scheduling, n: nat): Scheduling
    requires size > 0
    decreases n
  {
    if n == 0 then at else Rounds(zone, size, Fired(zone, size, at), n - 1)
  }

  function AtStart(zone: int, size: int, start: int): Scheduling
    requires size > SLOT_END_LEAD
  {
    Scheduling(NextSlotOpening(zone, start, size).value, NextSlotClosing(zone, start, size).value)
  }

  /** A timer set up at start gets past now: the loop that fires every edge reached by now ends. */
  ghost predicate Ends(zone: int, size: int, start: int, now: int)
    requires size > SLOT_END_LEAD
  {
    exists n: nat :: now < First(Rounds(zone, size, AtStart(zone, size, start), n))
  }

  /** Of the admitted windows, the timer gets past every instant exactly with those of whole minutes. */
  lemma EndsIff(zone: int, size: int)
    requires Configured(size)
    ensures (forall start, now :: Ends(zone, size, start, now)) <==> size % MINUTE == 0
  {
    if size % MINUTE == 0 {
      forall start, now ensures Ends(zone, size, start, now) {
        var next, _ := StartsAt(zone, size, start);
        EdgesGrow(zone, size, next, Max(now + 1 - Edge(zone, size, next), 0));
        RoundsSchedule(zone, size, next, AtStart(zone, size, start), Max(now + 1 - Edge(zone, size, next), 0));
      }
    } else {
      Stalls(zone, size);
    }
  }

  lemma {:induction false} EdgesGrow(zone: int, size: int, m: int, n: nat)
    requires WholeWindow(size)
    ensures Edge(zone, size, m + n) >= Edge(zone, size, m) + n
  {
    if n > 0 {
      EdgesGrow(zone, size, m, n - 1);
      EdgeIncreases(zone, size, m + n - 1);
    }
  }

  lemma {:induction false} RoundsSchedule(zone: int, size: int, next: int, at: Scheduling, n: nat)
    requires WholeWindow(size) && Scheduled(zone, size, next, at.opening, at.closing)
    ensures First(Rounds(zone, size, at, n)) == Edge(zone, size, next + n)
    decreases n
  {
    AdvanceScheduled(zone, size, next, at.opening, at.closing);
    if n > 0 {
      RoundsSchedule(zone, size, next + 1, Fired(zone, size, at), n - 1);
    }
  }

  /** With 7m30s or 6m40s, a timer set up at the start of an hour never gets past the second opening. */
  lemma Stalls(zone: int, size: int)
    requires Configured(size) && size % MINUTE != 0
    ensures !Ends(zone, size, -zone, Opening(zone, size, 1))
  {
    ConfiguredWindows(size);
    var a := AtStart(zone, size, -zone);
    var b := Fired(zone, size, a);
    var c := Fired(zone, size, b);
    StallsAt(zone, size);
    forall n: nat ensures First(Rounds(zone, size, a, n)) <= Opening(zone, size, 1) {
      if n >= 2 {
        Stuck(zone, size, c, n - 2);
        assert Rounds(zone, size, a, n) == Rounds(zone, size, b, n - 1) == Rounds(zone, size, c, n - 2);
      }
    }
  }

  lemma StallsAt(zone: int, size: int)
    requires size == 450 * SECOND || size == 400 * SECOND
    ensures var a := AtStart(zone, size, -zone);
      var b := Fired(zone, size, a);
      var c := Fired(zone, size, b);
      && First(a) <= Opening(zone, size, 1) && First(b) <= Opening(zone, size, 1)
      && Fired(zone, size, c) == c && First(c) == Opening(zone, size, 1)
  {
    var o, c := SLOT_END_FRACTION, size - SLOT_END_LEAD;
    FirstSlot(zone, size, 0);
    FirstSlot(zone, size, o);
    FirstSlot(zone, size, c);
    FirstSlot(zone, size, size + o);
    assert AtStart(zone, size, -zone) == Scheduling(o - zone, c - zone);
    assert Fired(zone, size, Scheduling(o - zone, c - zone)) == Scheduling(o + size - zone, c - zone);
    var stuck := Scheduling(o + size - zone, c + size - zone);
    assert Fired(zone, size, Scheduling(o + size - zone, c - zone)) == stuck;
    assert Fired(zone, size, stuck) == stuck;
    assert Opening(zone, size, 1) == stuck.opening;
  }

  /** A moment before the first whole minute behind the first slot of an hour is assigned to that slot. */
  lemma FirstSlot(zone: int, size: int, x: int)
    requires 0 < size < HOUR && 0 <= x < HOUR && x / MINUTE * MINUTE < size
    ensures SlotStart(zone, x - zone, size) == -zone
  {
    DivModUnique(x, HOUR, 0, x);
    DivModUnique(x / MINUTE * MINUTE, size, 0, x / MINUTE * MINUTE);
    assert 0 * size == 0;
  }

  lemma {:induction false} Stuck(zone: int, size: int, at: Scheduling, n: nat)
    requires size > 0 && Fired(zone, size, at) == at
    ensures Rounds(zone, size, at, n) == at
  {
    if n > 0 {
      Stuck(zone, size, at, n - 1);
    }
  }

  /** The instants of the current slot that are due at the start. */
  function DueAtStart(zone: int, size: int, now: int): seq<int> {
    var opening, closing := DueSlotOpening(zone, now, size), DueSlotClosing(zone, now, size);
    (if opening.Some? then [opening.value] else []) + (if closing.Some? then [closing.value] else [])
  }

  /** At the start the due instants are the edges of the current slot reached by now, and the
      scheduled ones come right behind them. */
  lemma StartsAt(zone: int, size: int, now: int) returns (next: int, d: nat)
    requires WholeWindow(size)
    ensures var o, c := NextSlotOpening(zone, now, size), NextSlotClosing(zone, now, size);
      o.Some? && c.Some? && Scheduled(zone, size, next, o.value, c.value)
    ensures Edge(zone, size, next - 1) <= now < Edge(zone, size, next)
    ensures d <= 2 && DueAtStart(zone, size, now) == Edges(zone, size, next - d, next)
  {
    var k := SlotIndex(zone, size, now);
    WholeWindowIsLong(size);
    DueIsCurrent(zone, now, size);
    SlotStartOnGrid(zone, now, size);
    SlotIndexBrackets(zone, size, now);
    EdgesAlternate(zone, size, k);
    EdgesAlternate(zone, size, k - 1);
    NextSlot(zone, size, k);
    EdgesOfSlot(zone, size, k);
    EdgesOfSlot(zone, size, k + 1);
    EdgesOfSlot(zone, size, k - 1);
    d := if now < Opening(zone, size, k) then 0 else if now < Closing(zone, size, k) then 1 else 2;
    next := 2 * k + d;
  }

  lemma EdgesOfSlot(zone: int, size: int, k: int)
    ensures Edge(zone, size, 2 * k) == Opening(zone, size, k) && Edge(zone, size, 2 * k + 1) == Closing(zone, size, k)
    ensures Edges(zone, size, 2 * k, 2 * k) == [] + []
    ensures Edges(zone, size, 2 * k, 2 * k + 1) == [Opening(zone, size, k)] + []
    ensures Edges(zone, size, 2 * k, 2 * k + 2) == [Opening(zone, size, k)] + [Closing(zone, size, k)]
  {
    assert 2 * k / 2 == k && (2 * k + 1) / 2 == k;
  }

  /** What the pending list becomes when an instant is offered. */
  function Enqueued(pending: seq<int>, at: int): seq<int> {
    if pending != [] && pending[|pending| - 1] == at then pending
    else if |pending| < MAX_PENDING then pending + [at]
    else (pending + [at])[|pending| + 1 - MAX_PENDING..]
  }

  /** A pending run of edges stays one, and stays bounded. */
  lemma EnqueuedRun(zone: int, size: int, next: int, w: nat) returns (w': nat)
    requires WholeWindow(size) && w <= MAX_PENDING
    ensures w' == Min(MAX_PENDING, w + 1) && Enqueued(Edges(zone, size, next - w, next), Edge(zone, size, next)) == Edges(zone, size, next + 1 - w', next + 1)
  {
    var run := Edges(zone, size, next - w, next);
    EdgesSplit(zone, size, next - w, next);
    if w > 0 {
      assert run[w - 1] == Edge(zone, size, next - 1);
      EdgeIncreases(zone, size, next - 1);
    }
    w' := if w < MAX_PENDING then w + 1 else MAX_PENDING;
    EdgesSplit(zone, size, next - w, next + 1);
  }

  lemma EdgeInRunIff(zone: int, size: int, m: int, n: int, j: int)
    requires WholeWindow(size) && m <= n
    ensures Edge(zone, size, j) in Edges(zone, size, m, n) <==> m <= j < n
  {
    if m <= j < n {
      assert Edges(zone, size, m, n)[j - m] == Edge(zone, size, j);
    } else if Edge(zone, size, j) in Edges(zone, size, m, n) {
      var k :| 0 <= k < n - m && Edges(zone, size, m, n)[k] == Edge(zone, size, j);
      if j < m + k {
        EdgesIncrease(zone, size, j, m + k);
      } else {
        EdgesIncrease(zone, size, m + k, j);
      }
    }
  }

  /** What Fire leaves pending: of the edges pending before or offered since, exactly those older than the
      newest four are dropped. */
  lemma DroppedIff(zone: int, size: int, next: int, waiting: nat, later: int, m: int)
    requires WholeWindow(size) && next <= later && next - waiting <= m < later
    ensures var w := Min(MAX_PENDING, waiting + later - next);
      Edge(zone, size, m) in Edges(zone, size, later - w, later) <==> later - 4 <= m
  {
    EdgeInRunIff(zone, size, later - Min(MAX_PENDING, waiting + later - next), later, m);
  }

  class SlotTimer {
    const zone: int
    const size: int
    var nextOpening: int
    var nextClosing: int
    var pending: seq<int>

    /** Every instant handed to EnqueueSlotSample so far. */
    var offered: seq<int>
    ghost var first: int
    ghost var next: int
    ghost var waiting: nat

    /** The edges offered are those from first up to next; the last waiting ones up to next are
        pending. */
    ghost predicate Valid()
      reads this
    {
      && WholeWindow(size)
      && first <= next && offered == Edges(zone, size, first, next)
      && waiting <= MAX_PENDING && pending == Edges(zone, size, next - waiting, next)
      && Scheduled(zone, size, next, nextOpening, nextClosing)
    }

    /** Starts with the edges of the current slot that are due already, and schedules the next opening and
        closing; for a whole window these are the edges reached by now and the first ones after it. */
    constructor (zone: int, size: int, now: int)
      requires size > SLOT_END_LEAD
      ensures this.zone == zone && this.size == size
      ensures offered == [] && pending == DueAtStart(zone, size, now)
      ensures Some(nextOpening) == NextSlotOpening(zone, now, size) && Some(nextClosing) == NextSlotClosing(zone, now, size)
      ensures WholeWindow(size) ==> Valid() && first == next && Edge(zone, size, next - 1) <= now < Edge(zone, size, next)
    {
      this.zone, this.size := zone, size;
      var due: seq<int> := [];
      var opening, closing := DueSlotOpening(zone, now, size), DueSlotClosing(zone, now, size);
      if opening.Some? {
        due := due + [opening.value];
      }
      if closing.Some? {
        due := due + [closing.value];
      }
      assert due == DueAtStart(zone, size, now);
      pending, offered := due, [];
      nextOpening := NextSlotOpening(zone, now, size).value;
      nextClosing := NextSlotClosing(zone, now, size).value;
      ghost var n: int, d: nat := 0, 0;
      if WholeWindow(size) {
        n, d := StartsAt(zone, size, now);
      }
      first, next, waiting := n, n, d;
    }

    method EnqueueSlotSample(at: int)
      modifies this`pending, this`offered
      ensures offered == old(offered) + [at] && pending == Enqueued(old(pending), at)
    {
      offered := offered + [at];
      if |pending| > 0 && pending[|pending| - 1] == at {
        return;
      }
      pending := pending + [at];
      if |pending| > MAX_PENDING {
        pending := pending[|pending| - MAX_PENDING..];
      }
    }

    method AdvancePast(fired: int)
      requires size > 0
      modifies this`nextOpening, this`nextClosing
      ensures if fired == old(nextOpening)
              then nextOpening == OpeningAfter(zone, size, fired) && nextClosing == old(nextClosing)
              else nextClosing == ClosingAfter(zone, size, old(nextClosing)) && nextOpening == old(nextOpening)
    {
      if fired == nextOpening {
        nextOpening := SlotOpeningTime(SlotStart(zone, nextOpening, size) + size);
        return;
      }
      nextClosing := SlotClosingTime(SlotStart(zone, nextClosing, size) + size, size);
    }

    /** One edge, for any window: it is offered and the one behind it scheduled. */
    method Advance()
      requires size > 0
      modifies this`nextOpening, this`nextClosing, this`pending, this`offered
      ensures Scheduling(nextOpening, nextClosing) == Fired(zone, size, old(Scheduling(nextOpening, nextClosing)))
      ensures pending == Enqueued(old(pending), old(Earlier(nextOpening, nextClosing)))
      ensures offered == old(offered) + [old(Earlier(nextOpening, nextClosing))]
    {
      var at := Earlier(nextOpening, nextClosing);
      EnqueueSlotSample(at);
      AdvancePast(at);
    }

    method Step()
      requires Valid()
      modifies this
      ensures Valid() && first == old(first) && next == old(next) + 1 && waiting == Min(MAX_PENDING, old(waiting) + 1)
      ensures Earlier(nextOpening, nextClosing) == Edge(zone, size, next)
    {
      AdvanceScheduled(zone, size, next, nextOpening, nextClosing);
      ghost var w := EnqueuedRun(zone, size, next, waiting);
      EdgesSplit(zone, size, first, next);
      Advance();
      next, waiting := next + 1, w;
      ScheduledNext(zone, size, next, nextOpening, nextClosing);
    }

    /** The timer fires, however late: every edge reached by now is offered, once and in order, the newest
        four of those offered and not sent are pending, and the timer is set to the first edge after
        now. */
    method Fire(now: int)
      requires Valid()
      modifies this
      ensures Valid() && first == old(first) && old(next) < next
      ensures offered == old(offered) + Edges(zone, size, old(next), next)
      ensures waiting == Min(MAX_PENDING, old(waiting) + next - old(next))
      ensures pending == Edges(zone, size, next - waiting, next)
      ensures now < Edge(zone, size, next)
      ensures old(next) < next - 1 ==> Edge(zone, size, next - 1) <= now
    {
      Step();
      while !(now < Earlier(nextOpening, nextClosing))
        invariant Valid() && first == old(first) && old(next) < next
        invariant waiting == Min(MAX_PENDING, old(waiting) + next - old(next))
        invariant Earlier(nextOpening, nextClosing) == Edge(zone, size, next)
        invariant old(next) < next - 1 ==> Edge(zone, size, next - 1) <= now
        decreases now - Edge(zone, size, next)
      {
        EdgeIncreases(zone, size, next);
        Step();
      }
      EdgesJoin(zone, size, first, old(next), next);
    }

    /** Hands pending instants to the sender, oldest first, until one is not accepted. */
    method TrySlotSamples(accepted: int -> bool) returns (sent: nat)
      modifies this`pending, this`waiting
      ensures old(Valid()) ==> Valid()
      ensures sent <= |old(pending)| && pending == old(pending)[sent..]
      ensures forall i :: 0 <= i < sent ==> accepted(old(pending)[i])
      ensures pending != [] ==> !accepted(pending[0])
    {
      sent := 0;
      ghost var was := pending;
      while |pending| > 0 && accepted(pending[0])
        invariant (old(Valid()) ==> Valid()) && sent <= |was| && pending == was[sent..]
        invariant forall i :: 0 <= i < sent ==> accepted(was[i])
      {
        DropOne(was, sent);
        Pop();
        sent := sent + 1;
      }
    }

    method Pop()
      requires pending != []
      modifies this`pending, this`waiting
      ensures pending == old(pending)[1..] && (old(Valid()) ==> Valid())
    {
      EdgesSplit(zone, size, next - waiting, next);
      pending := pending[1..];
      waiting := if waiting > 0 then waiting - 1 else 0;
    }
  }

  lemma DropOne(s: seq<int>, n: nat)
    requires n < |s|
    ensures s[n..][1..] == s[n + 1..] && s[n..][0] == s[n]
  {
  }

  lemma EdgesJoin(zone: int, size: int, m: int, n: int, q: int)
    requires m <= n <= q
    ensures Edges(zone, size, m, q) == Edges(zone, size, m, n) + Edges(zone, size, n, q)
  {
  }
}
