/** The order of the event stream over every entry point of the engine, and what replaying a log
    restores (internal/engine/engine.go). */
module EngineOrder {
  import opened Types
  import opened Sorting
  import opened Engine

  datatype Step =
    | Snap(snapshot: Snapshot)
    | Ready(service: string, atMs: int, source: Source)
    | Recovered(event: Event)
    | Restored(state: ServiceState)
    | Replayed(event: Event)
    | Rebooted(order: seq<string>, bootId: string, timeMs: int)
    | Adopted(bootId: string)

  /** The journal names its services, a restored state is not older than what is known of its service (at
      startup nothing is), and a reboot is not earlier than the last event of a service it stops. */
  ghost predicate Allowed(e: State, step: Step) {
    match step
    case Recovered(event) => event.service != ""
    case Restored(state) => state.service in e.states ==> e.states[state.service].lastEventMs <= state.lastEventMs
    case Rebooted(order, _, timeMs) =>
      && Enumerates(order, e.states.Keys)
      && forall s :: s in e.states && e.states[s].availability == Up ==> e.states[s].lastEventMs <= timeMs
    case _ => true
  }

  function Take(e: State, step: Step): (State, seq<Event>)
    requires step.Rebooted? ==> forall s :: s in step.order ==> s in e.states
  {
    match step
    case Snap(s) => Apply(e, s)
    case Ready(service, atMs, source) => ConfirmReady(e, service, atMs, source)
    case Recovered(event) => ApplyRecovery(e, event)
    case Restored(state) => (RestoreState(e, state), [])
    case Replayed(event) => (Replay(e, event), [])
    case Rebooted(order, bootId, timeMs) => Reboot(e, order, bootId, timeMs)
    case Adopted(bootId) => (AdoptBootId(e, bootId), [])
  }

  /** Every service is filed under its own name. */
  ghost predicate Named(e: State) {
    forall s :: s in e.states ==> e.states[s].service == s
  }

  /** From a to b nothing known is forgotten and no clock runs backwards. */
  ghost predicate Onward(a: State, b: State) {
    && a.counter <= b.counter
    && forall s :: s in a.states ==> s in b.states && a.states[s].lastEventMs <= b.states[s].lastEventMs
  }

  /** An event emitted on the way from a to b: numbered above everything before, and later than the
      last event of its service; only a reboot may coincide with it. */
  ghost predicate Fits(a: State, b: State, x: Event) {
    && a.counter < x.sequence <= b.counter
    && x.service in b.states && x.timeMs <= b.states[x.service].lastEventMs
    && (x.service in a.states ==>
          if x.source == HostReboot then a.states[x.service].lastEventMs <= x.timeMs
          else a.states[x.service].lastEventMs < x.timeMs)
  }

  ghost predicate InOrder(evs: seq<Event>) {
    forall i, j :: 0 <= i < j < |evs| ==>
      evs[i].sequence < evs[j].sequence && (evs[i].service == evs[j].service ==> evs[i].timeMs <= evs[j].timeMs)
  }

  /** What one call does to the order. */
  ghost predicate Orderly(a: State, b: State, evs: seq<Event>) {
    && Onward(a, b) && InOrder(evs) && forall i :: 0 <= i < |evs| ==> Fits(a, b, evs[i])
  }

  // ------------------------------------------------------------------ each call

  /** What the loop over candidates keeps: events numbered in order, times from the candidates. */
  ghost predicate Emitted(start: nat, s: Snapshot, last: int, p: Progress) {
    && |p.events| + start == p.counter
    && forall i :: 0 <= i < |p.events| ==>
         && p.events[i].sequence == start + 1 + i && p.events[i].service == s.service
         && p.events[i].source == Systemd && last < p.events[i].timeMs
         && forall j :: 0 <= j < i ==> p.events[j].timeMs <= p.events[i].timeMs
  }

  ghost predicate Ascending(cs: seq<Candidate>, last: int) {
    && (forall i :: 0 <= i < |cs| ==> Ms(cs[i].us) > last)
    && forall i, j :: 0 <= i < j < |cs| ==> cs[i].us <= cs[j].us
  }

  lemma {:induction false} ConsiderKeepsOrder(p: Progress, cs: seq<Candidate>, delayed: bool, s: Snapshot, start: nat, last: int)
    requires Emitted(start, s, last, p) && Ascending(cs, last)
    requires forall i, j :: 0 <= i < |p.events| && 0 <= j < |cs| ==> p.events[i].timeMs <= Ms(cs[j].us)
    ensures Emitted(start, s, last, ConsiderAll(p, cs, delayed, s))
    decreases cs
  {
    if cs != [] {
      var c, q := cs[0], Consider(p, cs[0], delayed, s);
      forall i, j | 0 <= i < |q.events| && 0 <= j < |cs| - 1 ensures q.events[i].timeMs <= Ms(cs[1..][j].us) {
        if i < |p.events| {
          assert p.events[i].timeMs <= Ms(cs[j + 1].us);
        } else {
          assert cs[0].us <= cs[j + 1].us;
        }
      }
      ConsiderKeepsOrder(q, cs[1..], delayed, s, start, last);
    }
  }

  lemma FoundIsNew(was: ServiceState, s: Snapshot)
    ensures forall c :: c in Found(was, s) ==> Ms(c.us) > was.lastEventMs
  {
  }

  lemma SortedAscends(found: seq<Candidate>, last: int)
    requires forall c :: c in found ==> Ms(c.us) > last
    ensures Ascending(Sort(ByTime, found), last)
  {
    var cs := Sort(ByTime, found);
    TimeIsOrder();
    SortSorts(ByTime, found);
    SortMembers(ByTime, found);
    forall i, j | 0 <= i < j < |cs| ensures cs[i].us <= cs[j].us {
      assert ByTime(cs[i], cs[j]);
    }
  }

  lemma CandidatesAscend(was: ServiceState, s: Snapshot)
    ensures Ascending(Candidates(was, s), was.lastEventMs)
  {
    FoundIsNew(was, s);
    SortedAscends(Found(was, s), was.lastEventMs);
  }

  lemma TimeIsOrder()
    ensures TotalPreorder(ByTime)
  {
  }

  /** The loop of Apply, from its start to its end. */
  function Looped(e: State, s: Snapshot): Progress {
    var was := Lookup(e, s.service);
    ConsiderAll(Progress(e.counter, was.availability, was.awaiting, []), Candidates(was, s), s.service in e.delayUp, s)
  }

  lemma LoopedInOrder(e: State, s: Snapshot)
    ensures Emitted(e.counter, s, Lookup(e, s.service).lastEventMs, Looped(e, s))
  {
    var was := Lookup(e, s.service);
    CandidatesAscend(was, s);
    ConsiderKeepsOrder(Progress(e.counter, was.availability, was.awaiting, []), Candidates(was, s),
                       s.service in e.delayUp, s, e.counter, was.lastEventMs);
  }

  lemma ApplyOrderly(e: State, s: Snapshot)
    ensures var (b, evs) := Apply(e, s); Orderly(e, b, evs)
  {
    var was := Lookup(e, s.service);
    if s.service in e.states && was.bootId == s.bootId {
      LoopedInOrder(e, s);
      var (b, evs) := Apply(e, s);
      assert evs == Looped(e, s).events && b.counter == Looped(e, s).counter;
      forall i | 0 <= i < |evs| ensures Fits(e, b, evs[i]) {
        assert evs[i].timeMs <= evs[|evs| - 1].timeMs;
      }
    }
  }

  /** An event is emitted once: whatever becomes of it, the same snapshot does not emit it again, and the
      journal's record of it is not taken either. */
  lemma EmittedOnce(e: State, s: Snapshot, i: nat, x: Event)
    requires s.service != "" && i < |Apply(e, s).1|
    requires x.service == s.service && x.timeMs <= Apply(e, s).1[i].timeMs
    ensures var b := Apply(e, s).0; Apply(b, s) == (b, []) && ApplyRecovery(b, x) == (b, [])
  {
    var (b, evs) := Apply(e, s);
    ApplyOrderly(e, s);
    assert Fits(e, b, evs[i]);
    LoopedInOrder(e, s);
    SameSnapshot(e, s);
  }

  lemma SameSnapshot(e: State, s: Snapshot)
    requires s.service in e.states && e.states[s.service].bootId == s.bootId
    ensures var b := Apply(e, s).0; Apply(b, s) == (b, [])
  {
    var b := Apply(e, s).0;
    var st := b.states[s.service];
    assert Found(st, s) == [] + [];
    assert Candidates(st, s) == [];
    assert b.states[s.service := st] == b.states;
  }

  lemma DistinctTail(order: seq<string>)
    requires order != [] && forall i, j :: 0 <= i < j < |order| ==> order[i] != order[j]
    ensures forall i, j :: 0 <= i < j < |order[1..]| ==> order[1..][i] != order[1..][j]
    ensures forall s :: s in order[1..] ==> s in order && s != order[0]
  {
    forall s | s in order[1..] ensures s in order && s != order[0] {
      var i :| 0 <= i < |order| - 1 && order[i + 1] == s;
    }
  }

  lemma RebootOneOrderly(e: State, service: string, bootId: string, timeMs: int)
    requires service in e.states
    requires e.states[service].availability == Up ==> e.states[service].lastEventMs <= timeMs
    ensures var (a, evs) := RebootOne(e, service, bootId, timeMs);
      && Orderly(e, a, evs)
      && (forall i :: 0 <= i < |evs| ==> evs[i].source == HostReboot && evs[i].timeMs == timeMs)
      && a.states.Keys == e.states.Keys && forall s :: s in e.states && s != service ==> a.states[s] == e.states[s]
  {
  }

  /** Orderly calls one after the other are orderly together. */
  lemma OrderlyConcat(e: State, a: State, b: State, first: seq<Event>, more: seq<Event>)
    requires Orderly(e, a, first) && Orderly(a, b, more)
    ensures Orderly(e, b, first + more)
  {
    var evs := first + more;
    forall i | 0 <= i < |evs| ensures Fits(e, b, evs[i]) {
      if i < |first| {
        assert Fits(e, a, first[i]);
      } else {
        assert Fits(a, b, more[i - |first|]);
      }
    }
    forall i, j | 0 <= i < j < |evs|
      ensures evs[i].sequence < evs[j].sequence && (evs[i].service == evs[j].service ==> evs[i].timeMs <= evs[j].timeMs)
    {
      if i < |first| <= j {
        assert Fits(e, a, first[i]) && Fits(a, b, more[j - |first|]);
      }
    }
  }

  lemma {:induction false} RebootOrderly(e: State, order: seq<string>, bootId: string, timeMs: int)
    requires forall s :: s in order ==> s in e.states
    requires forall i, j :: 0 <= i < j < |order| ==> order[i] != order[j]
    requires forall s :: s in order && e.states[s].availability == Up ==> e.states[s].lastEventMs <= timeMs
    ensures var (b, evs) := Reboot(e, order, bootId, timeMs);
      && Orderly(e, b, evs)
      && (forall i :: 0 <= i < |evs| ==> evs[i].source == HostReboot && evs[i].timeMs == timeMs)
    decreases order
  {
    if order != [] {
      var (a, first) := RebootOne(e, order[0], bootId, timeMs);
      var rest := order[1..];
      DistinctTail(order);
      RebootOneOrderly(e, order[0], bootId, timeMs);
      RebootOrderly(a, rest, bootId, timeMs);
      var (b, more) := Reboot(a, rest, bootId, timeMs);
      OrderlyConcat(e, a, b, first, more);
    }
  }

  /** Every service that was up yields an event at the time of the reboot. */
  lemma {:induction false} RebootEmits(e: State, order: seq<string>, bootId: string, timeMs: int, s: string) returns (i: nat)
    requires (forall s :: s in order ==> s in e.states) && s in order && e.states[s].availability == Up
    requires forall i, j :: 0 <= i < j < |order| ==> order[i] != order[j]
    ensures var evs := Reboot(e, order, bootId, timeMs).1;
      i < |evs| && evs[i].service == s && evs[i].timeMs == timeMs && evs[i].source == HostReboot
    decreases order
  {
    DistinctTail(order);
    if order[0] == s {
      i := 0;
    } else {
      var (a, first) := RebootOne(e, order[0], bootId, timeMs);
      assert order == [order[0]] + order[1..];
      var k := RebootEmits(a, order[1..], bootId, timeMs, s);
      i := |first| + k;
    }
  }

  /** A reboot keeps the order of the stream if and only if it is not earlier than the last event of any
      service it stops. */
  lemma RebootOrderlyIff(e: State, order: seq<string>, bootId: string, timeMs: int)
    requires Enumerates(order, e.states.Keys)
    ensures var (b, evs) := Reboot(e, order, bootId, timeMs);
      Orderly(e, b, evs)
      <==> forall s :: s in e.states && e.states[s].availability == Up ==> e.states[s].lastEventMs <= timeMs
  {
    var (b, evs) := Reboot(e, order, bootId, timeMs);
    if Orderly(e, b, evs) {
      forall s | s in e.states && e.states[s].availability == Up ensures e.states[s].lastEventMs <= timeMs {
        var i := RebootEmits(e, order, bootId, timeMs, s);
        assert Fits(e, b, evs[i]);
      }
    } else if forall s :: s in e.states && e.states[s].availability == Up ==> e.states[s].lastEventMs <= timeMs {
      RebootOrderly(e, order, bootId, timeMs);
    }
  }

  lemma StepOrderly(e: State, step: Step)
    requires Named(e) && Allowed(e, step)
    ensures var (b, evs) := Take(e, step); Orderly(e, b, evs)
  {
    match step
    case Snap(s) => ApplyOrderly(e, s);
    case Rebooted(order, bootId, timeMs) => RebootOrderly(e, order, bootId, timeMs);
    case _ =>
  }

  lemma {:induction false} RebootNamed(e: State, order: seq<string>, bootId: string, timeMs: int)
    requires Named(e) && forall s :: s in order ==> s in e.states
    ensures Named(Reboot(e, order, bootId, timeMs).0)
    decreases order
  {
    if order != [] {
      assert forall s :: s in order[1..] ==> s in order;
      RebootNamed(RebootOne(e, order[0], bootId, timeMs).0, order[1..], bootId, timeMs);
    }
  }

  lemma StepNamed(e: State, step: Step)
    requires Named(e) && Allowed(e, step)
    ensures Named(Take(e, step).0)
  {
    match step
    case Rebooted(order, bootId, timeMs) => RebootNamed(e, order, bootId, timeMs);
    case _ =>
  }

  // ------------------------------------------------------------------ every run

  ghost predicate Legal(e: State, steps: seq<Step>)
    decreases steps
  {
    steps != [] ==>
      && Allowed(e, steps[0])
      && Legal(Take(e, steps[0]).0, steps[1..])
  }

  /** The events of a run, one batch for each call. */
  ghost function Batches(e: State, steps: seq<Step>): (bs: seq<seq<Event>>)
    requires Legal(e, steps)
    ensures |bs| == |steps|
    decreases steps
  {
    if steps == [] then []
    else var (b, evs) := Take(e, steps[0]); [evs] + Batches(b, steps[1..])
  }

  /** x comes behind everything e has seen. */
  ghost predicate Behind(e: State, x: Event) {
    && e.counter < x.sequence
    && (x.service in e.states ==>
          if x.source == HostReboot then e.states[x.service].lastEventMs <= x.timeMs
          else e.states[x.service].lastEventMs < x.timeMs)
  }

  lemma {:induction false} AllBehind(e: State, steps: seq<Step>, k: nat, i: nat)
    requires Named(e) && Legal(e, steps) && k < |steps| && i < |Batches(e, steps)[k]|
    ensures Behind(e, Batches(e, steps)[k][i])
    decreases steps
  {
    var (b, evs) := Take(e, steps[0]);
    StepOrderly(e, steps[0]);
    if k == 0 {
      assert Fits(e, b, evs[i]);
    } else {
      StepNamed(e, steps[0]);
      AllBehind(b, steps[1..], k - 1, i);
    }
  }

  /** y may follow x in the stream, the two coming from different calls. */
  ghost predicate Follows(x: Event, y: Event) {
    && x.sequence < y.sequence
    && (x.service == y.service ==> if y.source == HostReboot then x.timeMs <= y.timeMs else x.timeMs < y.timeMs)
  }

  /** The stream of any run is in order: sequences strictly increase, and the times of one service
      never go back. Two events of a service coincide only within one call, or when the later one
      is a reboot. */
  lemma {:induction false} EventOrder(e: State, steps: seq<Step>, k: nat, i: nat, m: nat, j: nat)
    requires Named(e) && Legal(e, steps)
    requires k <= m < |steps| && i < |Batches(e, steps)[k]| && j < |Batches(e, steps)[m]|
    ensures k < m ==> Follows(Batches(e, steps)[k][i], Batches(e, steps)[m][j])
    ensures InOrder(Batches(e, steps)[k])
    decreases steps
  {
    var (b, evs) := Take(e, steps[0]);
    StepOrderly(e, steps[0]);
    StepNamed(e, steps[0]);
    if k > 0 {
      EventOrder(b, steps[1..], k - 1, i, m - 1, j);
    } else if m > 0 {
      assert Fits(e, b, evs[i]);
      AllBehind(b, steps[1..], m - 1, j);
    }
  }

  // ------------------------------------------------------------------ restoring and replaying

  function ReplayAll(e: State, log: seq<Event>): State {
    if log == [] then e else Replay(ReplayAll(e, log[..|log| - 1]), log[|log| - 1])
  }

  function RestoreAll(e: State, saved: seq<ServiceState>): State {
    if saved == [] then e else RestoreState(RestoreAll(e, saved[..|saved| - 1]), saved[|saved| - 1])
  }

  /** After replaying, the counter is exactly the highest sequence known before or in the log. */
  lemma {:induction false} ReplayedCounter(e: State, log: seq<Event>)
    ensures ReplayAll(e, log).counter == Highest(e.counter, log)
    ensures forall x :: x in log ==> x.sequence <= ReplayAll(e, log).counter
  {
    if log != [] {
      ReplayedCounter(e, log[..|log| - 1]);
      assert log == log[..|log| - 1] + [log[|log| - 1]];
    }
  }

  /** After restoring saved states the counter is exactly the highest of their sequences and the one
      known before. */
  lemma {:induction false} RestoredCounter(e: State, saved: seq<ServiceState>)
    ensures e.counter <= RestoreAll(e, saved).counter
    ensures forall i :: 0 <= i < |saved| && saved[i].service != "" ==> saved[i].lastSequence <= RestoreAll(e, saved).counter
    ensures RestoreAll(e, saved).counter == e.counter ||
            exists i :: 0 <= i < |saved| && saved[i].service != "" && saved[i].lastSequence == RestoreAll(e, saved).counter
  {
    if saved != [] {
      RestoredCounter(e, saved[..|saved| - 1]);
    }
  }

  /** The time of the last event known of a service after replaying, from t on. */
  function LastAfter(service: string, t: int, log: seq<Event>): int {
    if log == [] then t
    else
      var x, before := log[|log| - 1], LastAfter(service, t, log[..|log| - 1]);
      if x.service == service && x.timeMs >= before then x.timeMs else before
  }

  /** The event of the log that decides a service's state, if any. */
  function Decider(service: string, t: int, log: seq<Event>): Option<Event> {
    if log == [] then None
    else
      var x := log[|log| - 1];
      if x.service == service && x.timeMs >= LastAfter(service, t, log[..|log| - 1]) then Some(x)
      else Decider(service, t, log[..|log| - 1])
  }

  function Decided(st: ServiceState, d: Option<Event>): ServiceState {
    if d.None? then st else Stamp(st, d.value)
  }

  /** Replaying stamps on each service the one event of the log that decides it. */
  lemma {:induction false} ReplayDecides(e: State, log: seq<Event>, service: string)
    ensures var t := Lookup(e, service).lastEventMs;
      && Lookup(ReplayAll(e, log), service) == Decided(Lookup(e, service), Decider(service, t, log))
      && Lookup(ReplayAll(e, log), service).lastEventMs == LastAfter(service, t, log)
      && (service in ReplayAll(e, log).states <==> service in e.states || Decider(service, t, log).Some?)
      && (Decider(service, t, log).Some? ==> Decider(service, t, log).value.service == service)
  {
    if log != [] {
      ReplayDecides(e, log[..|log| - 1], service);
    }
  }

  /** Starting from the last time reached, the same event decides again. */
  lemma {:induction false} DeciderAgain(service: string, t: int, log: seq<Event>)
    ensures var last := LastAfter(service, t, log);
      && t <= last && LastAfter(service, last, log) == last
      && (Decider(service, t, log).Some? ==> Decider(service, last, log) == Decider(service, t, log))
      && (Decider(service, t, log).None? ==> last == t)
      && forall x :: x in log && x.service == service && x.timeMs >= t ==> x.timeMs <= last
  {
    if log != [] {
      var front, x := log[..|log| - 1], log[|log| - 1];
      DeciderAgain(service, t, front);
      assert log == front + [x];
      var last := LastAfter(service, t, log);
      LastUnchanged(service, last, front);
    }
  }

  lemma {:induction false} LastUnchanged(service: string, t: int, log: seq<Event>)
    requires forall x :: x in log && x.service == service ==> x.timeMs <= t
    ensures LastAfter(service, t, log) == t
  {
    if log != [] {
      LastUnchanged(service, t, log[..|log| - 1]);
    }
  }

  /** Replaying a log a second time changes nothing. */
  lemma ReplayIsIdempotent(e: State, log: seq<Event>)
    ensures ReplayAll(ReplayAll(e, log), log) == ReplayAll(e, log)
  {
    var once := ReplayAll(e, log);
    var twice := ReplayAll(once, log);
    ReplayedCounter(e, log);
    ReplayedCounter(once, log);
    HighestCapped(once.counter, log);
    ReplayKeepsDelay(e, log);
    ReplayKeepsDelay(once, log);
    forall s ensures s in twice.states <==> s in once.states {
      ReplayDecides(e, log, s);
      ReplayDecides(once, log, s);
      DeciderAgain(s, Lookup(e, s).lastEventMs, log);
    }
    forall s | s in once.states ensures twice.states[s] == once.states[s] {
      ReplayDecides(e, log, s);
      ReplayDecides(once, log, s);
      DeciderAgain(s, Lookup(e, s).lastEventMs, log);
    }
  }

  lemma {:induction false} HighestCapped(start: nat, log: seq<Event>)
    requires forall x :: x in log ==> x.sequence <= start
    ensures Highest(start, log) == start
  {
    if log != [] {
      HighestCapped(start, log[..|log| - 1]);
    }
  }

  lemma {:induction false} ReplayKeepsDelay(e: State, log: seq<Event>)
    ensures ReplayAll(e, log).delayUp == e.delayUp
  {
    if log != [] {
      ReplayKeepsDelay(e, log[..|log| - 1]);
    }
  }

  // ------------------------------------------------------------------ across a restart

  /** A new engine. */
  function Fresh(delayed: set<string>): State { State(map[], 0, delayed) }

  /** The engine of a restarted process: saved states restored, then the recovered log replayed. */
  function Restarted(delayed: set<string>, saved: seq<ServiceState>, log: seq<Event>): State {
    ReplayAll(RestoreAll(Fresh(delayed), saved), log)
  }

  lemma {:induction false} RestoredNamed(delayed: set<string>, saved: seq<ServiceState>)
    ensures Named(RestoreAll(Fresh(delayed), saved))
  {
    if saved != [] {
      RestoredNamed(delayed, saved[..|saved| - 1]);
    }
  }

  lemma {:induction false} ReplayedNamed(e: State, log: seq<Event>)
    requires Named(e)
    ensures Named(ReplayAll(e, log))
  {
    if log != [] {
      ReplayedNamed(e, log[..|log| - 1]);
    }
  }

  /** Nothing in the log is later than what a replay leaves known. */
  lemma ReplayCatchesUp(e: State, log: seq<Event>, x: Event)
    requires x in log && x.timeMs >= 0
    ensures var b := ReplayAll(e, log);
      x.sequence <= b.counter && x.service in b.states && x.timeMs <= b.states[x.service].lastEventMs
  {
    var t := Lookup(e, x.service).lastEventMs;
    ReplayedCounter(e, log);
    ReplayDecides(e, log, x.service);
    DeciderAgain(x.service, t, log);
    if x.service !in e.states {
      assert t == 0;
      DecidedIfTaken(x.service, t, log, x);
    }
  }

  lemma {:induction false} DecidedIfTaken(service: string, t: int, log: seq<Event>, x: Event)
    requires x in log && x.service == service && x.timeMs >= t
    ensures Decider(service, t, log).Some?
  {
    var front, last := log[..|log| - 1], log[|log| - 1];
    assert log == front + [last];
    if x in front {
      DecidedIfTaken(service, t, front, x);
    } else if LastAfter(service, t, front) > t {
      NoneDecides(service, t, front);
    }
  }

  lemma {:induction false} NoneDecides(service: string, t: int, log: seq<Event>)
    ensures Decider(service, t, log).None? ==> LastAfter(service, t, log) == t
  {
    if log != [] {
      NoneDecides(service, t, log[..|log| - 1]);
    }
  }

  /** The stream goes on across a restart: whatever states were saved and whatever log is recovered, each
      event the restarted engine emits in any run follows every event of that log. */
  lemma StreamGoesOn(delayed: set<string>, saved: seq<ServiceState>, log: seq<Event>, steps: seq<Step>, k: nat, i: nat, x: Event)
    requires var e := Restarted(delayed, saved, log); Legal(e, steps) && k < |steps| && i < |Batches(e, steps)[k]|
    requires x in log && x.timeMs >= 0
    ensures Follows(x, Batches(Restarted(delayed, saved, log), steps)[k][i])
  {
    var restored := RestoreAll(Fresh(delayed), saved);
    RestoredNamed(delayed, saved);
    ReplayedNamed(restored, log);
    ReplayCatchesUp(restored, log, x);
    AllBehind(Restarted(delayed, saved, log), steps, k, i);
  }
}
