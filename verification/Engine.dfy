/** The transition engine: snapshots, probe answers, journal recovery, replay and reboots become one
    ordered event stream (internal/engine/engine.go). */
module Engine {
  import opened Types
  import opened Sorting

  datatype State = State(states: map<string, ServiceState>, counter: nat, delayUp: set<string>)

  /** The zero value a lookup of an unknown service yields. */
  const NO_STATE := ServiceState("", Unknown, "", "", "", 0, 0, 0, 0, 0, 0, 0, false)

  function Lookup(e: State, service: string): ServiceState {
    if service in e.states then e.states[service] else NO_STATE
  }

  function Observed(activeState: string): Availability { if activeState == "active" then Up else Down }

  // ------------------------------------------------------------------ snapshots

  /** Milliseconds of a systemd timestamp. */
  function Ms(us: nat): nat { us / 1000 }

  datatype Candidate = Candidate(state: Availability, us: nat, monoUs: nat)

  predicate ByTime(a: Candidate, b: Candidate) { a.us <= b.us }

  predicate NewExit(was: ServiceState, s: Snapshot) {
    s.exitUs > was.lastExitUs && Ms(s.exitUs) > was.lastEventMs
  }

  predicate NewEnter(was: ServiceState, s: Snapshot) {
    s.enterUs > was.lastEnterUs && Ms(s.enterUs) > was.lastEventMs
  }

  /** The transitions a snapshot shows that are newer than anything known, in time order. */
  function Candidates(was: ServiceState, s: Snapshot): seq<Candidate> { Sort(ByTime, Found(was, s)) }

  function Found(was: ServiceState, s: Snapshot): seq<Candidate> {
    (if NewExit(was, s) then [Candidate(Down, s.exitUs, s.exitMonoUs)] else []) +
    (if NewEnter(was, s) then [Candidate(Up, s.enterUs, s.enterMonoUs)] else [])
  }

  /** Where the loop over the candidates stands. */
  datatype Progress = Progress(counter: nat, current: Availability, pending: bool, events: seq<Event>)

  function ToEvent(c: Candidate, s: Snapshot, sequence: nat): Event {
    Event(sequence, s.service, c.state, Ms(c.us), c.monoUs, s.bootId, Systemd, s.activeState, s.subState)
  }

  function Consider(p: Progress, c: Candidate, delayed: bool, s: Snapshot): Progress {
    if c.state == Up && delayed then p.(pending := true)
    else if c.state == Down && p.pending && p.current == Down then p.(pending := false)
    else
      Progress(p.counter + 1, c.state, p.pending && c.state != Down, p.events + [ToEvent(c, s, p.counter + 1)])
  }

  function ConsiderAll(p: Progress, cs: seq<Candidate>, delayed: bool, s: Snapshot): Progress
    decreases cs
  {
    if cs == [] then p else ConsiderAll(Consider(p, cs[0], delayed, s), cs[1..], delayed, s)
  }

  /** The state a snapshot leaves behind, before any event is accounted for. */
  function Seen(was: ServiceState, s: Snapshot, availability: Availability, awaiting: bool): ServiceState {
    ServiceState(s.service, availability, s.activeState, s.subState, s.bootId,
                 s.enterUs, s.exitUs, s.enterMonoUs, s.exitMonoUs,
                 was.lastEventMs, was.lastEventMonoUs, was.lastSequence, awaiting)
  }

  function Account(st: ServiceState, events: seq<Event>): ServiceState {
    if events == [] then st
    else
      var last := events[|events| - 1];
      st.(lastEventMs := last.timeMs, lastEventMonoUs := last.monoUs, lastSequence := last.sequence)
  }

  function Apply(e: State, s: Snapshot): (State, seq<Event>) {
    var was := Lookup(e, s.service);
    if s.service !in e.states || was.bootId != s.bootId then
      (e.(states := e.states[s.service := Seen(was, s, Observed(s.activeState), false)]), [])
    else
      var p := ConsiderAll(Progress(e.counter, was.availability, was.awaiting, []), Candidates(was, s),
                           s.service in e.delayUp, s);
      var st := Seen(was, s, if p.pending then Down else Observed(s.activeState), p.pending);
      (e.(states := e.states[s.service := Account(st, p.events)], counter := p.counter), p.events)
  }

  // ------------------------------------------------------------------ the other entry points

  function ConfirmReady(e: State, service: string, atMs: int, source: Source): (State, seq<Event>) {
    if service !in e.states || !e.states[service].awaiting then (e, [])
    else
      var st := e.states[service];
      var ms := if atMs <= st.lastEventMs then st.lastEventMs + 1 else atMs;
      var event := Event(e.counter + 1, service, Up, ms, 0, st.bootId, source, st.activeState, st.subState);
      (e.(counter := e.counter + 1,
          states := e.states[service := st.(awaiting := false, availability := Up, lastEventMs := ms,
                                            lastSequence := e.counter + 1)]),
       [event])
  }

  function ApplyRecovery(e: State, event: Event): (State, seq<Event>) {
    var st := Lookup(e, event.service);
    if st.service != "" && event.timeMs <= st.lastEventMs then (e, [])
    else
      (e.(counter := e.counter + 1,
          states := e.states[event.service :=
            st.(service := event.service, availability := event.state, awaiting := false, bootId := event.bootId,
                lastEventMs := event.timeMs, lastSequence := e.counter + 1)]),
       [event.(sequence := e.counter + 1)])
  }

  function RestoreState(e: State, state: ServiceState): State {
    if state.service == "" then e
    else e.(states := e.states[state.service := state], counter := Max(e.counter, state.lastSequence))
  }

  function Stamp(st: ServiceState, event: Event): ServiceState {
    st.(service := if st.service == "" then event.service else st.service,
        availability := event.state, awaiting := false, bootId := event.bootId,
        lastEventMs := event.timeMs, lastEventMonoUs := event.monoUs, lastSequence := event.sequence)
  }

  function Replay(e: State, event: Event): State {
    var st := Lookup(e, event.service);
    var e := e.(counter := Max(e.counter, event.sequence));
    if event.timeMs < st.lastEventMs then e
    else e.(states := e.states[event.service := Stamp(st, event)])
  }

  function AdoptBootId(e: State, bootId: string): State {
    e.(states := map service | service in e.states :: e.states[service].(bootId := bootId))
  }

  function RebootOne(e: State, service: string, bootId: string, timeMs: int): (State, seq<Event>)
    requires service in e.states
  {
    var st := e.states[service];
    if st.availability != Up then (e.(states := e.states[service := st.(bootId := bootId)]), [])
    else
      (e.(counter := e.counter + 1,
          states := e.states[service := st.(availability := Down, bootId := bootId, lastEventMs := timeMs,
                                            lastSequence := e.counter + 1)]),
       [Event(e.counter + 1, service, Down, timeMs, 0, bootId, HostReboot, "inactive", "dead")])
  }

  /** Services in the order the runtime happens to visit them. */
  function Reboot(e: State, order: seq<string>, bootId: string, timeMs: int): (State, seq<Event>)
    requires forall s :: s in order ==> s in e.states
    decreases order
  {
    if order == [] then (e, [])
    else
      var (a, first) := RebootOne(e, order[0], bootId, timeMs);
      assert forall s :: s in order[1..] ==> s in order;
      var (b, rest) := Reboot(a, order[1..], bootId, timeMs);
      (b, first + rest)
  }

  /** Each service once. */
  ghost predicate Enumerates(order: seq<string>, services: set<string>) {
    && (forall s :: s in services <==> s in order)
    && (forall i, j :: 0 <= i < j < |order| ==> order[i] != order[j])
  }

  // ------------------------------------------------------------------ the engine as the program has it

  class TransitionEngine {
    var states: map<string, ServiceState>
    var counter: nat
    var delayUp: set<string>

    function View(): State
      reads this
    {
      State(states, counter, delayUp)
    }

    constructor (delayed: set<string>)
      ensures View() == State(map[], 0, delayed)
    {
      states, counter, delayUp := map[], 0, delayed;
    }

    method ApplySnapshot(s: Snapshot) returns (events: seq<Event>)
      modifies this`states, this`counter
      ensures (View(), events) == Apply(old(View()), s)
    {
      var observed := Observed(s.activeState);
      var before := if s.service in states then states[s.service] else NO_STATE;
      if s.service !in states || before.bootId != s.bootId {
        states := states[s.service := Seen(before, s, observed, false)];
        return [];
      }
      var found := FindCandidates(before, s);
      var pending;
      pending, events := EmitCandidates(before, s, Sort(ByTime, found));
      var updated := Updated(before, s, pending, events);
      states := states[s.service := updated];
    }

    static method Updated(before: ServiceState, s: Snapshot, pending: bool, events: seq<Event>) returns (updated: ServiceState)
      ensures updated == Account(Seen(before, s, if pending then Down else Observed(s.activeState), pending), events)
    {
      updated := Seen(before, s, Observed(s.activeState), pending);
      if pending {
        updated := updated.(availability := Down);
      }
      if |events| > 0 {
        var last := events[|events| - 1];
        updated := updated.(lastEventMs := last.timeMs, lastEventMonoUs := last.monoUs, lastSequence := last.sequence);
      }
    }

    method FindCandidates(before: ServiceState, s: Snapshot) returns (found: seq<Candidate>)
      ensures found == Found(before, s)
    {
      found := [];
      if s.exitUs > before.lastExitUs && Ms(s.exitUs) > before.lastEventMs {
        found := found + [Candidate(Down, s.exitUs, s.exitMonoUs)];
      }
      if s.enterUs > before.lastEnterUs && Ms(s.enterUs) > before.lastEventMs {
        found := found + [Candidate(Up, s.enterUs, s.enterMonoUs)];
      }
    }

    /** The loop over the candidates. */
    method EmitCandidates(before: ServiceState, s: Snapshot, candidates: seq<Candidate>)
        returns (pending: bool, events: seq<Event>)
      modifies this`counter
      ensures var p := ConsiderAll(Progress(old(counter), before.availability, before.awaiting, []), candidates,
                                   s.service in delayUp, s);
        counter == p.counter && pending == p.pending && events == p.events
    {
      var delayed, current := s.service in delayUp, before.availability;
      pending, events := before.awaiting, [];
      var left := candidates;
      while left != []
        invariant ConsiderAll(Progress(counter, current, pending, events), left, delayed, s) ==
                  ConsiderAll(Progress(old(counter), before.availability, before.awaiting, []), candidates, delayed, s)
        decreases |left|
      {
        var c := left[0];
        left := left[1..];
        if c.state == Up && delayed {
          pending := true;
          continue;
        }
        if c.state == Down {
          var wasPending := pending;
          pending := false;
          if wasPending && current == Down {
            continue;
          }
        }
        counter := counter + 1;
        events := events + [ToEvent(c, s, counter)];
        current := c.state;
      }
    }

    method Confirm(service: string, atMs: int, source: Source) returns (events: seq<Event>)
      modifies this`states, this`counter
      ensures (View(), events) == ConfirmReady(old(View()), service, atMs, source)
    {
      if service !in states || !states[service].awaiting {
        return [];
      }
      var st, ms := states[service], atMs;
      if ms <= st.lastEventMs {
        ms := st.lastEventMs + 1;
      }
      counter := counter + 1;
      events := [Event(counter, service, Up, ms, 0, st.bootId, source, st.activeState, st.subState)];
      states := states[service := st.(awaiting := false, availability := Up, lastEventMs := ms, lastSequence := counter)];
    }

    method Recover(event: Event) returns (events: seq<Event>)
      modifies this`states, this`counter
      ensures (View(), events) == ApplyRecovery(old(View()), event)
    {
      var st := if event.service in states then states[event.service] else NO_STATE;
      if st.service != "" && event.timeMs <= st.lastEventMs {
        return [];
      }
      counter := counter + 1;
      var stamped := event.(sequence := counter);
      st := st.(service := event.service, availability := event.state, awaiting := false, bootId := event.bootId);
      states := states[event.service := st.(lastEventMs := event.timeMs, lastSequence := counter)];
      return [stamped];
    }

    method Restore(state: ServiceState)
      modifies this`states, this`counter
      ensures View() == RestoreState(old(View()), state)
    {
      if state.service == "" {
        return;
      }
      states := states[state.service := state];
      if state.lastSequence > counter {
        counter := state.lastSequence;
      }
    }

    method ReplayEvent(event: Event)
      modifies this`states, this`counter
      ensures View() == Replay(old(View()), event)
    {
      if event.sequence > counter {
        counter := event.sequence;
      }
      var st := if event.service in states then states[event.service] else NO_STATE;
      if st.service == "" {
        st := st.(service := event.service);
      }
      if event.timeMs < st.lastEventMs {
        return;
      }
      st := st.(availability := event.state, awaiting := false, bootId := event.bootId);
      st := st.(lastEventMs := event.timeMs, lastEventMonoUs := event.monoUs, lastSequence := event.sequence);
      states := states[event.service := st];
    }

    method Adopt(bootId: string)
      modifies this`states
      ensures View() == AdoptBootId(old(View()), bootId)
    {
      var left := states.Keys;
      while left != {}
        invariant left <= states.Keys == old(states.Keys)
        invariant forall s :: s in left ==> states[s] == old(states)[s]
        invariant forall s :: s in states && s !in left ==> states[s] == old(states)[s].(bootId := bootId)
        decreases |left|
      {
        var service :| service in left;
        left := left - {service};
        states := states[service := states[service].(bootId := bootId)];
      }
    }

    /** The services are visited in an order the runtime chooses. */
    method HostReboot(bootId: string, timeMs: int) returns (events: seq<Event>, ghost order: seq<string>)
      modifies this`states, this`counter
      ensures Enumerates(order, old(states.Keys))
      ensures (View(), events) == Reboot(old(View()), order, bootId, timeMs)
    {
      var left := states.Keys;
      events, order := [], [];
      while left != {}
        invariant left <= states.Keys == old(states.Keys) && delayUp == old(delayUp)
        invariant Enumerates(order, states.Keys - left)
        invariant (View(), events) == Reboot(old(View()), order, bootId, timeMs)
        decreases |left|
      {
        var service :| service in left;
        RebootSnoc(old(View()), order, service, bootId, timeMs);
        left := left - {service};
        order := order + [service];
        var st := states[service];
        if st.availability != Up {
          states := states[service := st.(bootId := bootId)];
          assert events + [] == events;
          continue;
        }
        counter := counter + 1;
        events := events + [Event(counter, service, Down, timeMs, 0, bootId, Source.HostReboot, "inactive", "dead")];
        states := states[service := st.(availability := Down, bootId := bootId, lastEventMs := timeMs, lastSequence := counter)];
      }
    }
  }

  lemma {:induction false} RebootSnoc(e: State, order: seq<string>, service: string, bootId: string, timeMs: int)
    requires (forall s :: s in order ==> s in e.states) && service in e.states
    ensures var (a, first) := Reboot(e, order, bootId, timeMs);
      && a.states.Keys == e.states.Keys && a.delayUp == e.delayUp
      && Reboot(e, order + [service], bootId, timeMs) ==
         (RebootOne(a, service, bootId, timeMs).0, first + RebootOne(a, service, bootId, timeMs).1)
    decreases order
  {
    if order == [] {
      var one := order + [service];
      assert one[0] == service && one[1..] == [];
      var (a, first) := RebootOne(e, service, bootId, timeMs);
      assert Reboot(a, [], bootId, timeMs) == (a, []);
      assert first + [] == first == [] + first;
    } else {
      var (a, first) := RebootOne(e, order[0], bootId, timeMs);
      assert forall s :: s in order[1..] ==> s in order;
      RebootSnoc(a, order[1..], service, bootId, timeMs);
      assert (order + [service])[1..] == order[1..] + [service];
      var (b, rest) := Reboot(a, order[1..], bootId, timeMs);
      assert first + (rest + RebootOne(b, service, bootId, timeMs).1) == (first + rest) + RebootOne(b, service, bootId, timeMs).1;
    }
  }
}
