/** The state timeline of a recovered slot (internal/recovery/backfill.go, BuildStateFill). */
module Backfill {
  import opened Types
  import opened Sorting
  import opened SlotGrid

  /** What the journal says about a unit before the slot. */
  datatype Previous = Found(state: Availability) | NotFound | Failed

  /** One slot [start, end) in nanoseconds, the recovered transitions, the states observed now, and the
      answers of the journal. */
  datatype Slice = Slice(
    start: int,
    end: int,
    interval: int,
    events: seq<Event>,
    current: map<string, Availability>,
    previous: string -> Previous)

  datatype Fill = Filled(samples: seq<Sample>) | JournalError

  predicate InSlot(w: Slice, e: Event) { Millis(w.start) <= e.timeMs < Millis(w.end) }

  function OfService(w: Slice, service: string): Event -> bool { (e: Event) => e.service == service && InSlot(w, e) }

  predicate EarlierEvent(a: Event, b: Event) { a.timeMs <= b.timeMs }

  /** Go's order of strings. */
  predicate NotAfter(a: string, b: string)
    decreases a
  {
    a == [] || (b != [] && (a[0] < b[0] || (a[0] == b[0] && NotAfter(a[1..], b[1..]))))
  }

  /** By timestamp, then by service. */
  predicate SampleOrder(a: Sample, b: Sample) {
    a.timestampMs < b.timestampMs || (a.timestampMs == b.timestampMs && NotAfter(a.service, b.service))
  }

  function Invert(a: Availability): Availability { if a == Up then Down else Up }

  /** The state at the start of the slot; None when the journal is needed and fails. */
  function SlotStartState(w: Slice, service: string, evs: seq<Event>): Option<Availability> {
    if evs != [] then Some(Invert(evs[0].state))
    else if service in w.current && w.current[service] != Unknown then Some(w.current[service])
    else
      match w.previous(service)
      case Failed => None
      case NotFound => Some(Down)
      case Found(state) => Some(state)
  }

  // ------------------------------------------------------------------ the fill, stated without merging

  /** The transitions of a service inside the slot, in time order. */
  function Transitions(w: Slice, service: string): seq<Event> {
    Sort(EarlierEvent, Filter(OfService(w, service), w.events))
  }

  /** The instants from t up to the end of the slot, one interval apart. */
  function Ticks(w: Slice, t: int): seq<int>
    requires w.interval > 0
    decreases w.end - t
  {
    if t >= w.end then [] else [t] + Ticks(w, t + w.interval)
  }

  /** The state the transitions leave at a moment: that of the latest one not after it. */
  function StateAt(first: Availability, evs: seq<Event>, ms: int): Availability {
    if evs == [] then first
    else if evs[|evs| - 1].timeMs <= ms then evs[|evs| - 1].state
    else StateAt(first, evs[..|evs| - 1], ms)
  }

  function AtEvent(service: string, e: Event): Sample { Sample(service, e.state, e.timeMs) }

  function AtTick(service: string, first: Availability, evs: seq<Event>, t: int): Sample {
    Sample(service, StateAt(first, evs, Millis(t)), Millis(t))
  }

  function EventSamples(service: string, evs: seq<Event>): (r: seq<Sample>)
    ensures |r| == |evs|
  {
    seq(|evs|, i requires 0 <= i < |evs| => AtEvent(service, evs[i]))
  }

  function TickSamples(service: string, first: Availability, evs: seq<Event>, ticks: seq<int>): (r: seq<Sample>)
    ensures |r| == |ticks|
  {
    seq(|ticks|, n requires 0 <= n < |ticks| => AtTick(service, first, evs, ticks[n]))
  }

  /** One sample per transition, then one per tick. */
  function Timeline(service: string, first: Availability, evs: seq<Event>, ticks: seq<int>): seq<Sample> {
    EventSamples(service, evs) + TickSamples(service, first, evs, ticks)
  }

  function Timelines(w: Slice, services: seq<string>): Option<seq<Sample>>
    requires w.interval > 0
  {
    if services == [] then Some([])
    else
      var before := Timelines(w, services[..|services| - 1]);
      var service := services[|services| - 1];
      var evs := Transitions(w, service);
      var first := SlotStartState(w, service, evs);
      if before.None? || first.None? then None
      else Some(before.value + Timeline(service, first.value, evs, Ticks(w, w.start)))
  }

  /** Every sample of every service, sorted. */
  function StateFill(w: Slice, services: seq<string>): Fill {
    if w.interval <= 0 || w.end <= w.start then Filled([])
    else
      var all := Timelines(w, services);
      if all.None? then JournalError else Filled(Sort(SampleOrder, all.value))
  }

  // ------------------------------------------------------------------ the two orders

  lemma {:induction false} StringsOrdered(a: string, b: string, c: string)
    ensures NotAfter(a, b) || NotAfter(b, a)
    ensures NotAfter(a, b) && NotAfter(b, c) ==> NotAfter(a, c)
    ensures NotAfter(a, b) && NotAfter(b, a) ==> a == b
    decreases a
  {
    if a != [] && b != [] {
      StringsOrdered(a[1..], b[1..], if c == [] then [] else c[1..]);
      assert a == [a[0]] + a[1..] && b == [b[0]] + b[1..];
    }
  }

  lemma OrdersTotal()
    ensures TotalPreorder(EarlierEvent) && TotalPreorder(SampleOrder)
    ensures forall x, y :: SampleOrder(x, y) && SampleOrder(y, x) ==> x.timestampMs == y.timestampMs && x.service == y.service
  {
    forall x: Sample, y: Sample ensures SampleOrder(x, y) || SampleOrder(y, x) {
      StringsOrdered(x.service, y.service, []);
    }
    forall x: Sample, y: Sample | SampleOrder(x, y) && SampleOrder(y, x)
      ensures x.timestampMs == y.timestampMs && x.service == y.service
    {
      StringsOrdered(x.service, y.service, []);
    }
    forall x: Sample, y: Sample, z: Sample | SampleOrder(x, y) && SampleOrder(y, z) ensures SampleOrder(x, z) {
      StringsOrdered(x.service, y.service, z.service);
    }
  }

  // ------------------------------------------------------------------ the fill as the program builds it

  type Groups = map<string, seq<Event>>

  function Group(g: Groups, service: string): seq<Event> { if service in g then g[service] else [] }

  method GroupByService(w: Slice) returns (g: Groups)
    ensures forall s :: Group(g, s) == Filter(OfService(w, s), w.events)
  {
    g := map[];
    for i := 0 to |w.events|
      invariant forall s :: Group(g, s) == Filter(OfService(w, s), w.events[..i])
    {
      var event := w.events[i];
      assert w.events[..i + 1][..i] == w.events[..i];
      if event.timeMs < Millis(w.start) || event.timeMs >= Millis(w.end) {
        continue;
      }
      g := g[event.service := Group(g, event.service) + [event]];
    }
    assert w.events[..|w.events|] == w.events;
  }

  method SortGroups(unsorted: Groups) returns (g: Groups)
    ensures forall s :: Group(g, s) == Sort(EarlierEvent, Group(unsorted, s))
  {
    g := unsorted;
    var left := unsorted.Keys;
    while left != {}
      invariant left <= g.Keys == unsorted.Keys
      invariant forall s :: s in left ==> g[s] == unsorted[s]
      invariant forall s :: s in unsorted && s !in left ==> g[s] == Sort(EarlierEvent, unsorted[s])
      decreases left
    {
      var s :| s in left;
      g := g[s := Sort(EarlierEvent, g[s])];
      left := left - {s};
    }
  }

  /** The state after the first i transitions. */
  function Reached(first: Availability, evs: seq<Event>, i: nat): Availability
    requires i <= |evs|
  {
    if i == 0 then first else evs[i - 1].state
  }

  lemma {:induction false} StateAtReached(first: Availability, evs: seq<Event>, i: nat, ms: int)
    requires i <= |evs|
    requires i > 0 ==> evs[i - 1].timeMs <= ms
    requires forall k :: i <= k < |evs| ==> ms < evs[k].timeMs
    ensures StateAt(first, evs, ms) == Reached(first, evs, i)
  {
    if i < |evs| {
      StateAtReached(first, evs[..|evs| - 1], i, ms);
    }
  }

  /** out holds the samples of i transitions and n ticks; the order differs only between samples of
      different moments. */
  ghost predicate Merged(out: seq<Sample>, es: seq<Sample>, ts: seq<Sample>, i: nat, n: nat)
    requires i <= |es| && n <= |ts|
  {
    Equivalent(SampleOrder, out, es[..i] + ts[..n])
  }

  /** A transition later than every tick so far is appended. */
  lemma MergeEvent(out: seq<Sample>, es: seq<Sample>, ts: seq<Sample>, i: nat, n: nat)
    requires i < |es| && n <= |ts| && Merged(out, es, ts, i, n)
    requires forall k :: 0 <= k < n ==> ts[k].timestampMs < es[i].timestampMs
    ensures Merged(out + [es[i]], es, ts, i + 1, n)
  {
    OrdersTotal();
    EquivalentConcat(SampleOrder, out, es[..i] + ts[..n], [es[i]], [es[i]]);
    EquivalentMove(SampleOrder, es[..i], ts[..n], es[i]);
    assert es[..i] + [es[i]] == es[..i + 1];
  }

  lemma MergeTick(out: seq<Sample>, es: seq<Sample>, ts: seq<Sample>, i: nat, n: nat)
    requires i <= |es| && n < |ts| && Merged(out, es, ts, i, n)
    ensures Merged(out + [ts[n]], es, ts, i, n + 1)
  {
    EquivalentConcat(SampleOrder, out, es[..i] + ts[..n], [ts[n]], [ts[n]]);
    assert es[..i] + ts[..n] + [ts[n]] == es[..i] + ts[..n + 1];
  }

  /** Ticks after the first n. */
  lemma {:induction false} TicksFrom(w: Slice, t: int, n: nat)
    requires w.interval > 0
    ensures n < |Ticks(w, t)| <==> t + n * w.interval < w.end
    ensures n < |Ticks(w, t)| ==> Ticks(w, t)[n] == t + n * w.interval
    decreases n
  {
    if n > 0 {
      TicksFrom(w, t + w.interval, n - 1);
      assert t + w.interval + (n - 1) * w.interval == t + n * w.interval;
      if t >= w.end {
        assert n * w.interval > 0;
      }
    }
  }

  /** out holds the first i transitions and n ticks, the remaining transitions being later than those
      ticks. */
  ghost predicate MergedUpTo(w: Slice, service: string, first: Availability, evs: seq<Event>,
                             out: seq<Sample>, i: nat, n: nat)
    requires w.interval > 0
  {
    && i <= |evs| && n <= |Ticks(w, w.start)|
    && Merged(out, EventSamples(service, evs), TickSamples(service, first, evs, Ticks(w, w.start)), i, n)
    && (i < |evs| && n > 0 ==> Millis(Tick(w, n - 1)) < evs[i].timeMs)
  }

  function Tick(w: Slice, n: int): int { w.start + n * w.interval }

  lemma EventMerged(w: Slice, service: string, first: Availability, evs: seq<Event>, out: seq<Sample>, i: nat, n: nat,
                    sample: Sample)
    requires w.interval > 0 && SortedBy(EarlierEvent, evs)
    requires MergedUpTo(w, service, first, evs, out, i, n) && i < |evs| && sample == AtEvent(service, evs[i])
    ensures MergedUpTo(w, service, first, evs, out + [sample], i + 1, n)
  {
    var ticks := Ticks(w, w.start);
    var es, ts := EventSamples(service, evs), TickSamples(service, first, evs, ticks);
    forall k | 0 <= k < n ensures ts[k].timestampMs < es[i].timestampMs {
      TicksFrom(w, w.start, k);
      TicksGrow(w, k, n - 1);
    }
    MergeEvent(out, es, ts, i, n);
    assert i + 1 < |evs| ==> EarlierEvent(evs[i], evs[i + 1]);
  }

  lemma TicksGrow(w: Slice, k: int, n: int)
    requires w.interval > 0 && k <= n
    ensures Millis(Tick(w, k)) <= Millis(Tick(w, n))
  {
    assert (n - k) * w.interval >= 0;
    assert w.start + k * w.interval <= w.start + n * w.interval;
    DivGrows(w.start + k * w.interval, w.start + n * w.interval);
  }

  lemma DivGrows(a: int, b: int)
    requires a <= b
    ensures Millis(a) <= Millis(b)
  {
  }

  lemma TickMerged(w: Slice, service: string, first: Availability, evs: seq<Event>, out: seq<Sample>, i: nat, n: nat, t: int)
    requires w.interval > 0 && SortedBy(EarlierEvent, evs) && MergedUpTo(w, service, first, evs, out, i, n)
    requires t == Tick(w, n) && t < w.end
    requires i > 0 ==> evs[i - 1].timeMs <= Millis(t)
    requires i < |evs| ==> Millis(t) < evs[i].timeMs
    ensures MergedUpTo(w, service, first, evs, out + [Sample(service, Reached(first, evs, i), Millis(t))], i, n + 1)
    ensures t + w.interval == Tick(w, n + 1) && Millis(t) <= Millis(t + w.interval)
  {
    TicksFrom(w, w.start, n);
    forall k | i <= k < |evs| ensures Millis(t) < evs[k].timeMs {
      assert k > i ==> EarlierEvent(evs[i], evs[k]);
    }
    StateAtReached(first, evs, i, Millis(t));
    MergeTick(out, EventSamples(service, evs), TickSamples(service, first, evs, Ticks(w, w.start)), i, n);
  }

  lemma MergeDone(w: Slice, service: string, first: Availability, evs: seq<Event>, out: seq<Sample>, n: nat)
    requires w.interval > 0 && MergedUpTo(w, service, first, evs, out, |evs|, n) && Tick(w, n) >= w.end
    ensures Equivalent(SampleOrder, out, Timeline(service, first, evs, Ticks(w, w.start)))
  {
    var es, ts := EventSamples(service, evs), TickSamples(service, first, evs, Ticks(w, w.start));
    TicksFrom(w, w.start, n);
    assert es[..|es|] == es && ts[..|ts|] == ts;
  }

  lemma MergeStart(w: Slice, service: string, first: Availability, evs: seq<Event>)
    requires w.interval > 0
    ensures MergedUpTo(w, service, first, evs, [], 0, 0) && Tick(w, 0) == w.start
  {
    var es, ts := EventSamples(service, evs), TickSamples(service, first, evs, Ticks(w, w.start));
    assert es[..0] + ts[..0] == [];
  }

  /** The transitions behind the cursor are merged and not after the limit; state is what they leave. */
  ghost predicate Cursor(w: Slice, service: string, first: Availability, evs: seq<Event>, limit: Option<int>,
                         out: seq<Sample>, i: nat, n: nat, state: Availability)
    requires w.interval > 0
  {
    && MergedUpTo(w, service, first, evs, out, i, n) && state == Reached(first, evs, i)
    && (i > 0 && limit.Some? ==> evs[i - 1].timeMs <= limit.value)
  }

  lemma CursorMoves(w: Slice, service: string, first: Availability, evs: seq<Event>, limit: Option<int>,
                    out: seq<Sample>, i: nat, n: nat, state: Availability)
    requires w.interval > 0 && SortedBy(EarlierEvent, evs)
    requires Cursor(w, service, first, evs, limit, out, i, n, state)
    requires i < |evs| && (limit.Some? ==> evs[i].timeMs <= limit.value)
    ensures Cursor(w, service, first, evs, limit, out + [Sample(service, evs[i].state, evs[i].timeMs)], i + 1, n, evs[i].state)
  {
    EventMerged(w, service, first, evs, out, i, n, Sample(service, evs[i].state, evs[i].timeMs));
  }

  /** Emits the transitions up to a moment. */
  method MergeEvents(w: Slice, service: string, ghost first: Availability, evs: seq<Event>, limit: Option<int>,
                     before: seq<Sample>, index: nat, known: Availability, ghost n: nat)
      returns (out: seq<Sample>, i: nat, state: Availability)
    requires w.interval > 0 && SortedBy(EarlierEvent, evs)
    requires MergedUpTo(w, service, first, evs, before, index, n) && known == Reached(first, evs, index)
    requires index > 0 && limit.Some? ==> evs[index - 1].timeMs <= limit.value
    ensures Cursor(w, service, first, evs, limit, out, i, n, state)
    ensures i < |evs| ==> limit.Some? && limit.value < evs[i].timeMs
  {
    out, i, state := before, index, known;
    while i < |evs| && (limit.None? || evs[i].timeMs <= limit.value)
      invariant Cursor(w, service, first, evs, limit, out, i, n, state)
    {
      CursorMoves(w, service, first, evs, limit, out, i, n, state);
      state := evs[i].state;
      out := out + [Sample(service, state, evs[i].timeMs)];
      i := i + 1;
    }
  }

  /** The two cursors over ticks and transitions yield every sample of the timeline. */
  method MergeTimeline(w: Slice, service: string, first: Availability, evs: seq<Event>) returns (out: seq<Sample>)
    requires w.interval > 0 && SortedBy(EarlierEvent, evs)
    ensures Equivalent(SampleOrder, out, Timeline(service, first, evs, Ticks(w, w.start)))
  {
    ghost var n := 0;
    MergeStart(w, service, first, evs);
    out := [];
    var state, i, t := first, 0, w.start;
    while t < w.end
      invariant MergedUpTo(w, service, first, evs, out, i, n) && t == Tick(w, n)
      invariant state == Reached(first, evs, i)
      invariant i > 0 ==> evs[i - 1].timeMs <= Millis(t)
      decreases w.end - t
    {
      out, i, state := MergeEvents(w, service, first, evs, Some(Millis(t)), out, i, state, n);
      TickMerged(w, service, first, evs, out, i, n, t);
      out := out + [Sample(service, state, Millis(t))];
      t, n := t + w.interval, n + 1;
    }
    out, i, state := MergeEvents(w, service, first, evs, None, out, i, state, n);
    MergeDone(w, service, first, evs, out, n);
  }

  lemma TransitionsSorted(w: Slice, service: string)
    ensures SortedBy(EarlierEvent, Transitions(w, service))
  {
    OrdersTotal();
    SortSorts(EarlierEvent, Filter(OfService(w, service), w.events));
  }

  lemma {:induction false} NoTimelines(w: Slice, services: seq<string>, k: nat)
    requires w.interval > 0 && k <= |services| && Timelines(w, services[..k]).None?
    ensures Timelines(w, services).None?
  {
    if k < |services| {
      assert services[..|services| - 1][..k] == services[..k];
      NoTimelines(w, services[..|services| - 1], k);
    } else {
      assert services[..k] == services;
    }
  }

  /** BuildStateFill computes the sorted timelines of all services, or reports that the journal failed. */
  method BuildStateFill(w: Slice, services: seq<string>) returns (fill: Fill)
    ensures fill == StateFill(w, services)
  {
    if w.interval <= 0 || w.end <= w.start {
      return Filled([]);
    }
    var byService := GroupByService(w);
    byService := SortGroups(byService);
    var out: seq<Sample> := [];
    for k := 0 to |services|
      invariant Timelines(w, services[..k]).Some? && Equivalent(SampleOrder, out, Timelines(w, services[..k]).value)
    {
      var service := services[k];
      assert services[..k + 1][..k] == services[..k];
      var evs := Group(byService, service);
      TransitionsSorted(w, service);
      var first := SlotStartState(w, service, evs);
      if first.None? {
        NoTimelines(w, services, k + 1);
        return JournalError;
      }
      var one := MergeTimeline(w, service, first.value, evs);
      EquivalentConcat(SampleOrder, out, Timelines(w, services[..k]).value, one, Timeline(service, first.value, evs, Ticks(w, w.start)));
      out := out + one;
    }
    assert services[..|services|] == services;
    OrdersTotal();
    SortEquivalent(SampleOrder, out, Timelines(w, services).value);
    fill := Filled(Sort(SampleOrder, out));
  }

  // ------------------------------------------------------------------ what the fill holds

  /** A slot that has something to fill. */
  predicate Open(w: Slice) { w.interval > 0 && w.start < w.end }

  /** x is the sample of a transition of the service inside the slot. */
  ghost predicate IsEvent(w: Slice, service: string, x: Sample) {
    exists e :: e in w.events && e.service == service && InSlot(w, e) && x == AtEvent(service, e)
  }

  /** x is the sample of the n-th tick. */
  predicate IsTick(w: Slice, service: string, n: nat, x: Sample) {
    var evs := Transitions(w, service);
    var first := SlotStartState(w, service, evs);
    first.Some? && Tick(w, n) < w.end && x == AtTick(service, first.value, evs, Tick(w, n))
  }

  ghost predicate Belongs(w: Slice, service: string, x: Sample) {
    IsEvent(w, service, x) || exists n: nat :: IsTick(w, service, n, x)
  }

  lemma TransitionsMembers(w: Slice, service: string)
    ensures forall e :: e in Transitions(w, service) <==> e in w.events && e.service == service && InSlot(w, e)
  {
    FilterMembers(OfService(w, service), w.events);
    SortMembers(EarlierEvent, Filter(OfService(w, service), w.events));
  }

  lemma EventSampleMembers(service: string, evs: seq<Event>, x: Sample)
    ensures x in EventSamples(service, evs) <==> exists e :: e in evs && x == AtEvent(service, e)
  {
    var es := EventSamples(service, evs);
    if x in es {
      var i :| 0 <= i < |es| && es[i] == x;
      assert evs[i] in evs;
    }
    if e :| e in evs && x == AtEvent(service, e) {
      var i :| 0 <= i < |evs| && evs[i] == e;
      assert es[i] == x;
    }
  }

  lemma TickSampleMembers(w: Slice, service: string, x: Sample)
    requires w.interval > 0 && SlotStartState(w, service, Transitions(w, service)).Some?
    ensures var evs := Transitions(w, service);
      var first := SlotStartState(w, service, evs).value;
      x in TickSamples(service, first, evs, Ticks(w, w.start)) <==> exists n: nat :: IsTick(w, service, n, x)
  {
    var evs := Transitions(w, service);
    var first := SlotStartState(w, service, evs).value;
    var ts := TickSamples(service, first, evs, Ticks(w, w.start));
    if x in ts {
      var n :| 0 <= n < |ts| && ts[n] == x;
      TicksFrom(w, w.start, n);
      assert IsTick(w, service, n, x);
    }
    if n: nat :| IsTick(w, service, n, x) {
      TicksFrom(w, w.start, n);
      assert ts[n] == x;
    }
  }

  lemma TimelineMembers(w: Slice, service: string, x: Sample)
    requires w.interval > 0 && SlotStartState(w, service, Transitions(w, service)).Some?
    ensures var evs := Transitions(w, service);
      var first := SlotStartState(w, service, evs).value;
      x in Timeline(service, first, evs, Ticks(w, w.start)) <==> Belongs(w, service, x)
  {
    TransitionsMembers(w, service);
    EventSampleMembers(service, Transitions(w, service), x);
    TickSampleMembers(w, service, x);
  }

  lemma {:induction false} TimelinesMembers(w: Slice, services: seq<string>, x: Sample)
    requires w.interval > 0 && Timelines(w, services).Some?
    ensures x in Timelines(w, services).value <==> exists service :: service in services && Belongs(w, service, x)
  {
    if services != [] {
      var front, service := services[..|services| - 1], services[|services| - 1];
      TimelinesMembers(w, front, x);
      TimelineMembers(w, service, x);
      assert services == front + [service];
    }
  }

  /** The fill holds exactly one kind of sample per listed service: those of its transitions inside the
      slot, and those of the ticks, which show the state the transitions leave. */
  lemma FillHolds(w: Slice, services: seq<string>, x: Sample)
    requires Open(w) && StateFill(w, services).Filled?
    ensures x in StateFill(w, services).samples <==> exists service :: service in services && Belongs(w, service, x)
  {
    SortMembers(SampleOrder, Timelines(w, services).value);
    TimelinesMembers(w, services, x);
  }

  /** How many samples the fill has: ticks and transitions of every listed service. */
  function Expected(w: Slice, services: seq<string>): int
    requires w.interval > 0
  {
    if services == [] then 0
    else
      var service := services[|services| - 1];
      Expected(w, services[..|services| - 1]) + |Ticks(w, w.start)| + |Filter(OfService(w, service), w.events)|
  }

  lemma {:induction false} CountTimelines(w: Slice, services: seq<string>)
    requires Open(w) && Timelines(w, services).Some?
    ensures |Timelines(w, services).value| == Expected(w, services)
  {
    if services != [] {
      CountTimelines(w, services[..|services| - 1]);
    }
  }

  /** The fill is a permutation of the timelines of all listed services, in order of timestamp and then
      service, one sample per tick and one per transition. */
  lemma FillOrderedAndCounted(w: Slice, services: seq<string>)
    requires Open(w) && StateFill(w, services).Filled?
    ensures var fill := StateFill(w, services).samples;
      && SortedBy(SampleOrder, fill) && |fill| == Expected(w, services)
      && multiset(fill) == multiset(Timelines(w, services).value)
  {
    OrdersTotal();
    SortSorts(SampleOrder, Timelines(w, services).value);
    SortPermutes(SampleOrder, Timelines(w, services).value);
    CountTimelines(w, services);
  }

  /** Nothing lies outside the slot. */
  lemma FillInsideSlot(w: Slice, services: seq<string>, x: Sample)
    requires Open(w) && StateFill(w, services).Filled? && x in StateFill(w, services).samples
    ensures Millis(w.start) <= x.timestampMs && x.timestampMs * MILLISECOND < w.end
  {
    FillHolds(w, services, x);
    var service :| service in services && Belongs(w, service, x);
    if !IsEvent(w, service, x) {
      var n: nat :| IsTick(w, service, n, x);
      TicksGrow(w, 0, n);
    }
  }

  /** From the start of the slot to its end, every moment has a sample of every listed service that is
      at most one interval old, up to the rounding to milliseconds. */
  lemma FillIsDense(w: Slice, services: seq<string>, service: string, t: int) returns (x: Sample)
    requires Open(w) && StateFill(w, services).Filled? && service in services && w.start <= t < w.end
    ensures x in StateFill(w, services).samples && x.service == service
    ensures x.timestampMs * MILLISECOND <= t < x.timestampMs * MILLISECOND + w.interval + MILLISECOND
    ensures t == w.start ==> x.timestampMs == Millis(w.start)
  {
    var n := LatestTick(w, t, 0);
    Rounded(Tick(w, n));
    x := TickFilled(w, services, service, n);
  }

  lemma TickFilled(w: Slice, services: seq<string>, service: string, n: nat) returns (x: Sample)
    requires Open(w) && StateFill(w, services).Filled? && service in services && Tick(w, n) < w.end
    ensures x in StateFill(w, services).samples && x.service == service && x.timestampMs == Millis(Tick(w, n))
  {
    StartsKnown(w, services, service);
    var evs := Transitions(w, service);
    x := AtTick(service, SlotStartState(w, service, evs).value, evs, Tick(w, n));
    assert IsTick(w, service, n, x);
    FillHolds(w, services, x);
  }

  lemma {:induction false} LatestTick(w: Slice, t: int, k: nat) returns (n: nat)
    requires w.interval > 0 && Tick(w, k) <= t
    ensures Tick(w, n) <= t < Tick(w, n) + w.interval
    ensures t == Tick(w, k) ==> n == k
    decreases t - Tick(w, k)
  {
    if t < Tick(w, k) + w.interval {
      n := k;
    } else {
      assert Tick(w, k + 1) == Tick(w, k) + w.interval;
      n := LatestTick(w, t, k + 1);
    }
  }

  lemma Rounded(t: int)
    ensures Millis(t) * MILLISECOND <= t < Millis(t) * MILLISECOND + MILLISECOND
  {
  }

  /** No transition in the slot, no known current state, and the journal fails. */
  predicate Unanswerable(w: Slice, service: string) {
    && Filter(OfService(w, service), w.events) == []
    && !(service in w.current && w.current[service] != Unknown)
    && w.previous(service) == Failed
  }

  lemma StartFailsIff(w: Slice, service: string)
    ensures SlotStartState(w, service, Transitions(w, service)).None? <==> Unanswerable(w, service)
  {
    assert |Transitions(w, service)| == |Filter(OfService(w, service), w.events)|;
  }

  lemma {:induction false} TimelinesFailIff(w: Slice, services: seq<string>)
    requires w.interval > 0
    ensures Timelines(w, services).None? <==> exists service :: service in services && Unanswerable(w, service)
  {
    if services != [] {
      var front, service := services[..|services| - 1], services[|services| - 1];
      TimelinesFailIff(w, front);
      StartFailsIff(w, service);
      assert services == front + [service];
      assert Timelines(w, services).None? <==> Timelines(w, front).None? || Unanswerable(w, service);
    }
  }

  lemma StartsKnown(w: Slice, services: seq<string>, service: string)
    requires w.interval > 0 && Timelines(w, services).Some? && service in services
    ensures SlotStartState(w, service, Transitions(w, service)).Some?
  {
    TimelinesFailIff(w, services);
    StartFailsIff(w, service);
  }

  /** The fill is refused exactly when one of the services has no answer. */
  lemma FillFailsIff(w: Slice, services: seq<string>)
    ensures StateFill(w, services).JournalError?
      <==> Open(w) && exists service :: service in services && Unanswerable(w, service)
  {
    if Open(w) {
      TimelinesFailIff(w, services);
    }
  }

  // ------------------------------------------------------------------ the fill tells the truth

  /** A transition of the service falls into this millisecond. */
  ghost predicate Recovered(w: Slice, service: string, ms: int) {
    exists e :: e in w.events && e.service == service && InSlot(w, e) && e.timeMs == ms
  }

  /** The real state changes in this millisecond if and only if a transition was recovered for it. */
  ghost predicate ChangesIffRecovered(w: Slice, service: string, actual: int -> Availability, ms: int) {
    actual(ms) != actual(ms - 1) <==> Recovered(w, service, ms)
  }

  /** Without a transition: the state observed now is the one the slot ended with, or, with none observed,
      the journal is right about the one it started with (no entry standing for down). */
  predicate Known(w: Slice, service: string, actual: int -> Availability) {
    if service in w.current && w.current[service] != Unknown then w.current[service] == actual(Millis(w.end) - 1)
    else
      match w.previous(service)
      case Found(state) => state == actual(Millis(w.start) - 1)
      case NotFound => actual(Millis(w.start) - 1) == Down
      case Failed => false
  }

  /** The recovered transitions are those of the real state, which was up or down all along; without any
      the state the fill takes from elsewhere is right. */
  ghost predicate Explains(w: Slice, service: string, actual: int -> Availability) {
    var lo, hi := Millis(w.start), Millis(w.end);
    && (forall ms :: lo - 1 <= ms < hi ==> actual(ms) != Unknown)
    && (forall ms :: lo <= ms < hi ==> ChangesIffRecovered(w, service, actual, ms))
    && (forall e :: e in w.events && e.service == service && InSlot(w, e) ==> e.state == actual(e.timeMs))
    && ((forall ms :: !Recovered(w, service, ms)) ==> Known(w, service, actual))
  }

  /** Without a transition the real state does not change. */
  lemma {:induction false} Constant(w: Slice, service: string, actual: int -> Availability, a: int, b: int)
    requires Explains(w, service, actual) && Millis(w.start) - 1 <= a <= b < Millis(w.end)
    requires forall ms :: a < ms <= b ==> !Recovered(w, service, ms)
    ensures actual(a) == actual(b)
    decreases b - a
  {
    if a < b {
      Constant(w, service, actual, a, b - 1);
      assert ChangesIffRecovered(w, service, actual, b);
    }
  }

  /** The last transition not after a moment. */
  lemma {:induction false} LatestIndex(first: Availability, evs: seq<Event>, ms: int) returns (i: nat)
    requires SortedBy(EarlierEvent, evs)
    ensures i <= |evs| && StateAt(first, evs, ms) == Reached(first, evs, i)
    ensures i > 0 ==> evs[i - 1].timeMs <= ms
    ensures forall k :: i <= k < |evs| ==> ms < evs[k].timeMs
  {
    if evs == [] || evs[|evs| - 1].timeMs <= ms {
      i := |evs|;
    } else {
      i := LatestIndex(first, evs[..|evs| - 1], ms);
    }
  }

  /** No transition between the i-th one and a moment before the next. */
  lemma Quiet(w: Slice, service: string, i: nat, a: int, b: int)
    requires i <= |Transitions(w, service)|
    requires i > 0 ==> Transitions(w, service)[i - 1].timeMs <= a
    requires forall k :: i <= k < |Transitions(w, service)| ==> b < Transitions(w, service)[k].timeMs
    ensures forall ms :: a < ms <= b ==> !Recovered(w, service, ms)
  {
    var evs := Transitions(w, service);
    TransitionsSorted(w, service);
    TransitionsMembers(w, service);
    forall e | e in evs ensures e.timeMs <= a || b < e.timeMs {
      var k :| 0 <= k < |evs| && evs[k] == e;
      assert k < i - 1 ==> EarlierEvent(evs[k], evs[i - 1]);
    }
  }

  lemma StartIsTrue(w: Slice, service: string, actual: int -> Availability)
    requires Explains(w, service, actual) && Millis(w.start) <= Millis(w.end)
    ensures SlotStartState(w, service, Transitions(w, service)) == Some(actual(Millis(w.start) - 1))
  {
    var evs, lo, hi := Transitions(w, service), Millis(w.start), Millis(w.end);
    TransitionsSorted(w, service);
    TransitionsMembers(w, service);
    if evs == [] {
      Quiet(w, service, 0, lo - 1, hi - 1);
      Constant(w, service, actual, lo - 1, hi - 1);
      assert forall ms :: !Recovered(w, service, ms);
    } else {
      var t := evs[0].timeMs;
      assert evs[0] in evs && Recovered(w, service, t) && ChangesIffRecovered(w, service, actual, t);
      forall k | 0 <= k < |evs| ensures t - 1 < evs[k].timeMs {
        assert k > 0 ==> EarlierEvent(evs[0], evs[k]);
      }
      Quiet(w, service, 0, lo - 1, t - 1);
      Constant(w, service, actual, lo - 1, t - 1);
    }
  }

  lemma ReachedIsTrue(w: Slice, service: string, actual: int -> Availability, i: nat)
    requires Explains(w, service, actual) && 0 < i <= |Transitions(w, service)|
    ensures var e := Transitions(w, service)[i - 1];
      e.state == actual(e.timeMs) && Millis(w.start) <= e.timeMs < Millis(w.end)
  {
    TransitionsMembers(w, service);
    assert Transitions(w, service)[i - 1] in Transitions(w, service);
  }

  lemma TickIsTrue(w: Slice, service: string, actual: int -> Availability, first: Availability, ms: int)
    requires Explains(w, service, actual) && Millis(w.start) <= ms <= Millis(w.end)
    requires first == actual(Millis(w.start) - 1)
    ensures StateAt(first, Transitions(w, service), ms) == actual(Min(ms, Millis(w.end) - 1))
  {
    TransitionsSorted(w, service);
    var i := LatestIndex(first, Transitions(w, service), ms);
    var b := Min(ms, Millis(w.end) - 1);
    if i == 0 {
      Quiet(w, service, i, Millis(w.start) - 1, b);
      Constant(w, service, actual, Millis(w.start) - 1, b);
    } else {
      ReachedIsTrue(w, service, actual, i);
      var a := Transitions(w, service)[i - 1].timeMs;
      Quiet(w, service, i, a, b);
      Constant(w, service, actual, a, b);
    }
  }

  /** If the recovered transitions are those of the real state, every sample shows the real state at its
      timestamp (a tick in the final, cut off millisecond shows the state just before it). */
  lemma FillTellsTruth(w: Slice, services: seq<string>, x: Sample, actual: int -> Availability)
    requires Open(w) && StateFill(w, services).Filled? && x in StateFill(w, services).samples
    requires Explains(w, x.service, actual)
    ensures x.state == actual(Min(x.timestampMs, Millis(w.end) - 1))
  {
    FillHolds(w, services, x);
    var service :| service in services && Belongs(w, service, x);
    if !IsEvent(w, service, x) {
      var n: nat :| IsTick(w, service, n, x);
      DivGrows(w.start, w.end);
      TicksGrow(w, 0, n);
      DivGrows(Tick(w, n), w.end);
      StartIsTrue(w, service, actual);
      TickIsTrue(w, service, actual, actual(Millis(w.start) - 1), x.timestampMs);
    }
  }
}
