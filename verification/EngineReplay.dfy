/** What each entry point leaves of a service, field by field, and that replaying the emitted stream brings
    the engine back (internal/engine/engine.go). */
module EngineReplay {
  import opened Types
  import opened Sorting
  import opened Engine
  import opened EngineOrder

  // ------------------------------------------------------------------ the parts of a service state

  /** What was last seen of the unit itself. */
  predicate SameUnit(a: ServiceState, b: ServiceState) {
    && a.activeState == b.activeState && a.subState == b.subState
    && a.lastEnterUs == b.lastEnterUs && a.lastExitUs == b.lastExitUs
    && a.lastEnterMonoUs == b.lastEnterMonoUs && a.lastExitMonoUs == b.lastExitMonoUs
  }

  /** The state tells event x: it is the last one and decides the availability. */
  predicate Tells(st: ServiceState, x: Event) {
    && st.availability == x.state && st.bootId == x.bootId && !st.awaiting
    && st.lastEventMs == x.timeMs && st.lastSequence == x.sequence
  }

  /** Only one service differs. */
  predicate OnlyOf(a: State, b: State, service: string) {
    && b.states.Keys == a.states.Keys + {service} && b.delayUp == a.delayUp
    && forall s :: s in a.states && s != service ==> b.states[s] == a.states[s]
  }

  // ------------------------------------------------------------------ snapshots and answers

  /** A snapshot is remembered as it is, whatever it emits; the last event is the last one emitted. */
  lemma ApplyRemembers(e: State, s: Snapshot)
    ensures var (b, evs) := Apply(e, s);
      && OnlyOf(e, b, s.service) && b.counter == e.counter + |evs|
      && var was, st := Lookup(e, s.service), b.states[s.service];
         && st.service == s.service && st.activeState == s.activeState && st.subState == s.subState && st.bootId == s.bootId
         && st.lastEnterUs == s.enterUs && st.lastExitUs == s.exitUs
         && st.lastEnterMonoUs == s.enterMonoUs && st.lastExitMonoUs == s.exitMonoUs
         && (if evs == [] then st.lastEventMs == was.lastEventMs && st.lastEventMonoUs == was.lastEventMonoUs && st.lastSequence == was.lastSequence
             else var x := evs[|evs| - 1]; st.lastEventMs == x.timeMs && st.lastEventMonoUs == x.monoUs && st.lastSequence == x.sequence)
         && st.availability == (if s.activeState == "active" && !st.awaiting then Up else Down)
  {
    LoopedInOrder(e, s);
  }

  /** An awaited answer makes the service up and releases one event; nothing else of it changes. */
  lemma ReadyReleases(e: State, service: string, atMs: int, source: Source)
    ensures var (b, evs) := ConfirmReady(e, service, atMs, source);
      if !Lookup(e, service).awaiting then b == e && evs == []
      else
        && OnlyOf(e, b, service) && b.counter == e.counter + 1 && |evs| == 1
        && var was, st, x := e.states[service], b.states[service], evs[0];
           && x.sequence == e.counter + 1 && x.service == service && x.state == Up && x.source == source && x.bootId == was.bootId
           && x.timeMs >= atMs && x.timeMs > was.lastEventMs && (atMs > was.lastEventMs ==> x.timeMs == atMs)
           && Tells(st, x) && SameUnit(was, st) && st.service == was.service && st.lastEventMonoUs == was.lastEventMonoUs
  {
  }

  // ------------------------------------------------------------------ the journal

  /** A recovered event is emitted, renumbered and otherwise as it is, exactly when it is newer than the last
      event of a known service; the service then tells it, and it is not taken twice. */
  lemma RecoveryTakes(e: State, x: Event)
    requires Named(e) && x.service != ""
    ensures var (b, evs) := ApplyRecovery(e, x);
      && (if x.service in e.states && x.timeMs <= e.states[x.service].lastEventMs then b == e && evs == []
          else
            && OnlyOf(e, b, x.service) && b.counter == e.counter + 1
            && |evs| == 1 && evs[0] == x.(sequence := e.counter + 1)
            && Tells(b.states[x.service], evs[0]) && SameUnit(Lookup(e, x.service), b.states[x.service]))
      && ApplyRecovery(b, x) == (b, [])
  {
  }

  // ------------------------------------------------------------------ saved states

  /** The last state saved for a service. */
  function LastSaved(saved: seq<ServiceState>, service: string): Option<ServiceState> {
    if saved == [] then None
    else if saved[|saved| - 1].service == service then Some(saved[|saved| - 1])
    else LastSaved(saved[..|saved| - 1], service)
  }

  /** Restoring installs for each service the last state saved for it, whole, and leaves the others. */
  lemma {:induction false} RestoredIs(e: State, saved: seq<ServiceState>, service: string)
    requires service != ""
    ensures var b, last := RestoreAll(e, saved), LastSaved(saved, service);
      if last.Some? then service in b.states && b.states[service] == last.value
      else (service in b.states <==> service in e.states) && Lookup(b, service) == Lookup(e, service)
    ensures RestoreAll(e, saved).delayUp == e.delayUp
  {
    if saved != [] {
      RestoredIs(e, saved[..|saved| - 1], service);
    }
  }

  // ------------------------------------------------------------------ replaying

  /** The event at place i is the last one of the service with the highest time, and not earlier than t. */
  predicate Decides(service: string, t: int, log: seq<Event>, i: nat) {
    && i < |log| && log[i].service == service && log[i].timeMs >= t
    && (forall j :: 0 <= j < |log| && log[j].service == service ==> log[j].timeMs <= log[i].timeMs)
    && (forall j :: i < j < |log| && log[j].service == service ==> log[j].timeMs < log[i].timeMs)
  }

  lemma {:induction false} DeciderIs(service: string, t: int, log: seq<Event>) returns (i: nat)
    ensures var d := Decider(service, t, log);
      if d.Some? then Decides(service, t, log, i) && d.value == log[i] && LastAfter(service, t, log) == d.value.timeMs
      else LastAfter(service, t, log) == t && forall j :: 0 <= j < |log| && log[j].service == service ==> log[j].timeMs < t
  {
    i := 0;
    if log != [] {
      var front, x := log[..|log| - 1], log[|log| - 1];
      i := DeciderIs(service, t, front);
      assert forall j :: 0 <= j < |front| ==> log[j] == front[j];
      if x.service == service && x.timeMs >= LastAfter(service, t, front) {
        i := |log| - 1;
      }
    }
  }

  /** A replayed service tells the last event with the highest time that the log has of it, and keeps what
      was seen of its unit; without such an event it is left as it was. */
  lemma ReplayTells(e: State, log: seq<Event>, service: string) returns (i: nat)
    ensures var was, st := Lookup(e, service), Lookup(ReplayAll(e, log), service);
      if exists k :: 0 <= k < |log| && log[k].service == service && log[k].timeMs >= was.lastEventMs then
        && Decides(service, was.lastEventMs, log, i)
        && service in ReplayAll(e, log).states
        && Tells(st, log[i]) && st.lastEventMonoUs == log[i].monoUs && SameUnit(was, st)
        && st.service == (if was.service == "" then service else was.service)
      else st == was && (service in ReplayAll(e, log).states <==> service in e.states)
  {
    ReplayDecides(e, log, service);
    i := DeciderIs(service, Lookup(e, service).lastEventMs, log);
  }

  // ------------------------------------------------------------------ boots

  /** Adopting a boot changes nothing but the boot of every service. */
  lemma AdoptChanges(e: State, bootId: string)
    ensures var b := AdoptBootId(e, bootId);
      && b.counter == e.counter && b.delayUp == e.delayUp && b.states.Keys == e.states.Keys
      && forall s :: s in e.states ==>
           b.states[s].bootId == bootId && b.states[s].(bootId := e.states[s].bootId) == e.states[s]
  {
  }

  /** How a reboot leaves a service: one that was up is down since then. */
  predicate StoppedBy(was: ServiceState, st: ServiceState, bootId: string, timeMs: int) {
    && st.bootId == bootId && SameUnit(was, st) && st.service == was.service && st.awaiting == was.awaiting
    && st.lastEventMonoUs == was.lastEventMonoUs
    && (if was.availability == Up then st.availability == Down && st.lastEventMs == timeMs
        else st.availability == was.availability && st.lastEventMs == was.lastEventMs && st.lastSequence == was.lastSequence)
  }

  /** The DOWN of a service that was up. */
  predicate IsStop(e: State, b: State, x: Event, bootId: string, timeMs: int) {
    && x.service in e.states && e.states[x.service].availability == Up
    && x.state == Down && x.source == HostReboot && x.timeMs == timeMs && x.bootId == bootId
    && x.activeState == "inactive" && x.subState == "dead"
    && x.service in b.states && b.states[x.service].lastSequence == x.sequence
  }

  predicate Has(evs: seq<Event>, service: string) { exists i :: 0 <= i < |evs| && evs[i].service == service }

  ghost predicate StopsServices(e: State, b: State, order: seq<string>, bootId: string, timeMs: int) {
    && b.delayUp == e.delayUp && b.states.Keys == e.states.Keys
    && forall s :: s in e.states ==> if s in order then StoppedBy(e.states[s], b.states[s], bootId, timeMs) else b.states[s] == e.states[s]
  }

  ghost predicate EmitsStops(e: State, b: State, order: seq<string>, evs: seq<Event>, bootId: string, timeMs: int) {
    && b.counter == e.counter + |evs|
    && (forall i :: 0 <= i < |evs| ==>
          evs[i].service in order && evs[i].sequence == e.counter + 1 + i && IsStop(e, b, evs[i], bootId, timeMs))
    && (forall i, j :: 0 <= i < j < |evs| ==> evs[i].service != evs[j].service)
    && (forall s :: s in order && s in e.states && e.states[s].availability == Up ==> Has(evs, s))
  }

  ghost predicate Stops(e: State, b: State, order: seq<string>, evs: seq<Event>, bootId: string, timeMs: int) {
    StopsServices(e, b, order, bootId, timeMs) && EmitsStops(e, b, order, evs, bootId, timeMs)
  }

  /** Visiting the services in any order, a reboot emits one DOWN for each that was up and for no other one,
      numbered without a gap, and leaves every service stopped and in the new boot. */
  lemma {:induction false} RebootStops(e: State, order: seq<string>, bootId: string, timeMs: int)
    requires forall s :: s in order ==> s in e.states
    requires forall i, j :: 0 <= i < j < |order| ==> order[i] != order[j]
    ensures var (b, evs) := Reboot(e, order, bootId, timeMs); Stops(e, b, order, evs, bootId, timeMs)
    decreases order
  {
    if order != [] {
      DistinctTail(order);
      var (a, first) := RebootOne(e, order[0], bootId, timeMs);
      RebootStops(a, order[1..], bootId, timeMs);
      var (b, rest) := Reboot(a, order[1..], bootId, timeMs);
      assert order == [order[0]] + order[1..];
      StopsFirst(e, a, b, order, first, rest, bootId, timeMs);
    }
  }

  /** What the first visit does. */
  ghost predicate FirstStop(e: State, a: State, service: string, first: seq<Event>, bootId: string, timeMs: int) {
    && service in e.states && a.states.Keys == e.states.Keys && a.delayUp == e.delayUp
    && (forall s :: s in e.states && s != service ==> a.states[s] == e.states[s])
    && StoppedBy(e.states[service], a.states[service], bootId, timeMs)
    && |first| == (if e.states[service].availability == Up then 1 else 0) && a.counter == e.counter + |first|
    && (first != [] ==> first[0].service == service && first[0].sequence == e.counter + 1 && IsStop(e, a, first[0], bootId, timeMs))
  }

  lemma StopsFirst(e: State, a: State, b: State, order: seq<string>, first: seq<Event>, rest: seq<Event>, bootId: string, timeMs: int)
    requires order != [] && (forall s :: s in order ==> s in e.states) && order == [order[0]] + order[1..]
    requires forall s :: s in order[1..] ==> s in order && s != order[0]
    requires FirstStop(e, a, order[0], first, bootId, timeMs) && Stops(a, b, order[1..], rest, bootId, timeMs)
    ensures Stops(e, b, order, first + rest, bootId, timeMs)
  {
    var evs := first + rest;
    assert order[0] !in order[1..];
    assert b.states[order[0]] == a.states[order[0]];
    forall i | 0 <= i < |evs|
      ensures evs[i].service in order && evs[i].sequence == e.counter + 1 + i && IsStop(e, b, evs[i], bootId, timeMs)
    {
      if i >= |first| {
        LaterStop(e, a, b, order, rest[i - |first|], bootId, timeMs);
      }
    }
    StopsOnce(order, first, rest);
    forall s | s in order && s in e.states && e.states[s].availability == Up ensures Has(evs, s) {
      HasEither(first, rest, s);
    }
  }

  lemma LaterStop(e: State, a: State, b: State, order: seq<string>, x: Event, bootId: string, timeMs: int)
    requires order != [] && x.service in order[1..] && x.service != order[0] && x.service in e.states
    requires x.service in a.states && a.states[x.service] == e.states[x.service] && IsStop(a, b, x, bootId, timeMs)
    ensures IsStop(e, b, x, bootId, timeMs)
  {
  }

  lemma HasEither(first: seq<Event>, rest: seq<Event>, service: string)
    requires Has(first, service) || Has(rest, service)
    ensures Has(first + rest, service)
  {
    if Has(first, service) {
      var k :| 0 <= k < |first| && first[k].service == service;
      assert (first + rest)[k].service == service;
    } else {
      var k :| 0 <= k < |rest| && rest[k].service == service;
      assert (first + rest)[|first| + k].service == service;
    }
  }

  lemma StopsOnce(order: seq<string>, first: seq<Event>, rest: seq<Event>)
    requires order != [] && |first| <= 1 && (forall i :: 0 <= i < |first| ==> first[i].service == order[0])
    requires forall s :: s in order[1..] ==> s != order[0]
    requires forall i :: 0 <= i < |rest| ==> rest[i].service in order[1..]
    requires forall i, j :: 0 <= i < j < |rest| ==> rest[i].service != rest[j].service
    ensures var evs := first + rest; forall i, j :: 0 <= i < j < |evs| ==> evs[i].service != evs[j].service
  {
  }

  // ------------------------------------------------------------------ the whole stream again

  /** The last event of a service in a stream. */
  function LastOf(evs: seq<Event>, service: string): Option<Event> {
    if evs == [] then None
    else if evs[|evs| - 1].service == service then Some(evs[|evs| - 1])
    else LastOf(evs[..|evs| - 1], service)
  }

  /** From a to b a service moved on to the last event of it in evs. */
  predicate MovesOn(a: State, b: State, evs: seq<Event>, service: string) {
    var was, st, last := Lookup(a, service), Lookup(b, service), LastOf(evs, service);
    if last.None? then st.lastEventMs == was.lastEventMs && st.lastSequence == was.lastSequence
    else st.lastEventMs == last.value.timeMs && st.lastSequence == last.value.sequence
  }

  lemma {:induction false} LastOfIs(evs: seq<Event>, service: string) returns (i: nat)
    ensures var x := LastOf(evs, service);
      if x.Some? then
        && i < |evs| && evs[i] == x.value && evs[i].service == service
        && forall j :: i < j < |evs| ==> evs[j].service != service
      else forall j :: 0 <= j < |evs| ==> evs[j].service != service
  {
    i := 0;
    if evs != [] {
      if evs[|evs| - 1].service == service {
        i := |evs| - 1;
      } else {
        i := LastOfIs(evs[..|evs| - 1], service);
      }
    }
  }

  lemma {:induction false} LastOfConcat(a: seq<Event>, b: seq<Event>, service: string)
    ensures LastOf(a + b, service) == if LastOf(b, service).Some? then LastOf(b, service) else LastOf(a, service)
    decreases |b|
  {
    if b == [] {
      assert a + b == a;
    } else {
      assert (a + b)[..|a + b| - 1] == a + b[..|b| - 1];
      LastOfConcat(a, b[..|b| - 1], service);
    }
  }

  lemma MovesOnTwice(a: State, b: State, c: State, x: seq<Event>, y: seq<Event>, service: string)
    requires MovesOn(a, b, x, service) && MovesOn(b, c, y, service)
    ensures MovesOn(a, c, x + y, service)
  {
    LastOfConcat(x, y, service);
  }

  /** Everything but restoring and replaying; the journal speaks of times from 1970 on. */
  predicate Live(step: Step) {
    !step.Restored? && !step.Replayed? && (step.Recovered? ==> step.event.timeMs >= 0)
  }

  lemma LastOfSame(evs: seq<Event>, service: string, other: string)
    requires forall i :: 0 <= i < |evs| ==> evs[i].service == service
    ensures LastOf(evs, other) == if evs == [] || other != service then None else Some(evs[|evs| - 1])
  {
    var i := LastOfIs(evs, other);
  }

  lemma SnapMovesOn(e: State, s: Snapshot, service: string)
    ensures var (b, evs) := Apply(e, s); MovesOn(e, b, evs, service)
  {
    var (b, evs) := Apply(e, s);
    ApplyRemembers(e, s);
    LoopedInOrder(e, s);
    LastOfSame(evs, s.service, service);
  }

  lemma RebootMovesOn(e: State, order: seq<string>, bootId: string, timeMs: int, service: string)
    requires Enumerates(order, e.states.Keys)
    ensures var (b, evs) := Reboot(e, order, bootId, timeMs); MovesOn(e, b, evs, service)
  {
    var (b, evs) := Reboot(e, order, bootId, timeMs);
    RebootStops(e, order, bootId, timeMs);
    var i := LastOfIs(evs, service);
    if LastOf(evs, service).Some? {
      assert IsStop(e, b, evs[i], bootId, timeMs);
    }
    if service in e.states {
      assert StoppedBy(e.states[service], b.states[service], bootId, timeMs);
      assert e.states[service].availability == Up ==> Has(evs, service);
    }
  }

  lemma StepMovesOn(e: State, step: Step, service: string)
    requires Named(e) && Allowed(e, step) && Live(step)
    ensures var (b, evs) := Take(e, step); MovesOn(e, b, evs, service)
  {
    match step
    case Snap(s) => SnapMovesOn(e, s, service);
    case Ready(name, atMs, source) =>
      ReadyReleases(e, name, atMs, source);
      LastOfSame(Take(e, step).1, name, service);
    case Recovered(x) =>
      RecoveryTakes(e, x);
      LastOfSame(Take(e, step).1, x.service, service);
    case Rebooted(order, bootId, timeMs) => RebootMovesOn(e, order, bootId, timeMs, service);
    case Adopted(bootId) => AdoptChanges(e, bootId);
  }

  /** The events are numbered on from the counter without a gap. */
  predicate NumberedOn(a: State, b: State, evs: seq<Event>) {
    b.counter == a.counter + |evs| && forall i :: 0 <= i < |evs| ==> evs[i].sequence == a.counter + 1 + i
  }

  /** The events of a service are not before t and their times do not go back. */
  predicate Rising(t: int, evs: seq<Event>, service: string) {
    && (forall i :: 0 <= i < |evs| && evs[i].service == service ==> evs[i].timeMs >= t)
    && (forall i, j :: 0 <= i < j < |evs| && evs[i].service == evs[j].service == service ==> evs[i].timeMs <= evs[j].timeMs)
  }

  lemma StepNumbersOn(e: State, step: Step)
    requires Named(e) && Allowed(e, step) && Live(step)
    ensures var (b, evs) := Take(e, step); NumberedOn(e, b, evs)
  {
    match step
    case Snap(s) =>
      ApplyRemembers(e, s);
      LoopedInOrder(e, s);
    case Ready(name, atMs, source) => ReadyReleases(e, name, atMs, source);
    case Recovered(x) => RecoveryTakes(e, x);
    case Rebooted(order, bootId, timeMs) => RebootStops(e, order, bootId, timeMs);
    case Adopted(bootId) =>
  }

  /** Only the journal speaks of a service not known yet. */
  lemma EmitsKnown(e: State, step: Step, i: nat)
    requires Named(e) && Allowed(e, step) && Live(step) && i < |Take(e, step).1|
    ensures Take(e, step).1[i].service in e.states || (step.Recovered? && Take(e, step).1[i].timeMs >= 0)
  {
    match step
    case Snap(s) => LoopedInOrder(e, s);
    case Rebooted(order, bootId, timeMs) =>
      RebootStops(e, order, bootId, timeMs);
      assert IsStop(e, Take(e, step).0, Take(e, step).1[i], bootId, timeMs);
    case _ =>
  }

  lemma StepRises(e: State, step: Step, service: string)
    requires Named(e) && Allowed(e, step) && Live(step)
    ensures Rising(Lookup(e, service).lastEventMs, Take(e, step).1, service)
  {
    var (b, evs) := Take(e, step);
    StepOrderly(e, step);
    forall i | 0 <= i < |evs| && evs[i].service == service ensures evs[i].timeMs >= Lookup(e, service).lastEventMs {
      assert Fits(e, b, evs[i]);
      EmitsKnown(e, step, i);
    }
  }

  lemma RisesOn(t: int, t': int, x: seq<Event>, y: seq<Event>, service: string)
    requires Rising(t, x, service) && Rising(t', y, service)
    requires t' == if LastOf(x, service).Some? then LastOf(x, service).value.timeMs else t
    ensures Rising(t, x + y, service)
  {
    var k := LastOfIs(x, service);
    forall i | 0 <= i < |x| && x[i].service == service ensures x[i].timeMs <= t' {
    }
  }

  /** Where a run of live steps ends, and what it emits. */
  ghost function After(e: State, steps: seq<Step>): State
    requires Legal(e, steps)
    decreases steps
  {
    if steps == [] then e else After(Take(e, steps[0]).0, steps[1..])
  }

  ghost function Stream(e: State, steps: seq<Step>): seq<Event>
    requires Legal(e, steps)
    decreases steps
  {
    if steps == [] then [] else Take(e, steps[0]).1 + Stream(Take(e, steps[0]).0, steps[1..])
  }

  lemma {:induction false} RunMovesOn(e: State, steps: seq<Step>, service: string)
    requires Named(e) && Legal(e, steps) && forall i :: 0 <= i < |steps| ==> Live(steps[i])
    ensures var b, evs := After(e, steps), Stream(e, steps);
      NumberedOn(e, b, evs) && MovesOn(e, b, evs, service) && Rising(Lookup(e, service).lastEventMs, evs, service)
    decreases steps
  {
    if steps != [] {
      var (a, evs) := Take(e, steps[0]);
      var b, rest := After(a, steps[1..]), Stream(a, steps[1..]);
      StepNamed(e, steps[0]);
      StepNumbersOn(e, steps[0]);
      StepMovesOn(e, steps[0], service);
      StepRises(e, steps[0], service);
      RunMovesOn(a, steps[1..], service);
      MovesOnTwice(e, a, b, evs, rest, service);
      RisesOn(Lookup(e, service).lastEventMs, Lookup(a, service).lastEventMs, evs, rest, service);
    }
  }

  lemma ReplayMovesOn(e: State, evs: seq<Event>, service: string)
    requires Rising(Lookup(e, service).lastEventMs, evs, service)
    ensures var r, last := ReplayAll(e, evs), LastOf(evs, service);
      MovesOn(e, r, evs, service) && (last.Some? ==> Tells(Lookup(r, service), last.value))
  {
    var i := ReplayTells(e, evs, service);
    var k := LastOfIs(evs, service);
  }

  lemma {:induction false} HighestOfRow(start: nat, evs: seq<Event>)
    requires forall i :: 0 <= i < |evs| ==> evs[i].sequence == start + 1 + i
    ensures Highest(start, evs) == start + |evs|
  {
    if evs != [] {
      HighestOfRow(start, evs[..|evs| - 1]);
    }
  }

  /** Replaying what a run emitted, over the state it began in, brings back its counter and for every service
      the time and number of its last event; each service that had events tells its last one. */
  lemma ReplayRebuilds(e: State, steps: seq<Step>, service: string)
    requires Named(e) && Legal(e, steps) && forall i :: 0 <= i < |steps| ==> Live(steps[i])
    ensures var live, replayed, last := After(e, steps), ReplayAll(e, Stream(e, steps)), LastOf(Stream(e, steps), service);
      && replayed.counter == live.counter
      && Lookup(replayed, service).lastEventMs == Lookup(live, service).lastEventMs
      && Lookup(replayed, service).lastSequence == Lookup(live, service).lastSequence
      && (last.Some? ==> Tells(Lookup(replayed, service), last.value))
  {
    RunMovesOn(e, steps, service);
    ReplayMovesOn(e, Stream(e, steps), service);
    ReplayedCounter(e, Stream(e, steps));
    HighestOfRow(e.counter, Stream(e, steps));
  }
}
