/** The UP transition of a probed unit is withheld until its probe answers
    (internal/engine/engine.go, Apply and ConfirmReady). */
module ProbeGating {
  import opened Types
  import opened Sorting
  import opened Engine
  import opened EngineHistory

  /** The engine has seen the probed unit after i transitions. While it awaits an answer the unit is up
      and reported down; otherwise it is reported as it is. */
  ghost predicate Gates(e: State, u: Unit, i: nat)
    requires i <= |u.history|
  {
    && Knows(e, u, i) && u.service in e.delayUp
    && var st := e.states[u.service];
       if st.awaiting
       then i >= 1 && StateAfter(u, i) == Up && st.availability == Down && st.lastEventMs < Ms(u.history[i - 1].us)
       else st.availability == StateAfter(u, i)
  }

  /** s shows the unit after j transitions, its state included. */
  predicate ShowsState(u: Unit, j: nat, s: Snapshot)
    requires j <= |u.history|
  {
    Shows(u, j, s) && (s.activeState == "active" <==> StateAfter(u, j) == Up)
  }

  /** Snapshots i and j are so far apart that an activation of a unit that was down came and went unseen,
      and the next one is under way: only the stop in between is seen. */
  predicate Missed(u: Unit, i: nat, j: nat)
    requires i <= j <= |u.history|
  {
    StateAfter(u, i) == Down && i + 2 <= j && StateAfter(u, j) == Up
  }

  /** The stop a snapshot reports, if it reports one. */
  function Stop(st: ServiceState, u: Unit, i: nat, j: nat): Option<nat>
    requires i <= j <= |u.history|
  {
    if i == j || st.awaiting then None
    else if st.availability == Up then Some(if u.history[j - 1].state == Down then j - 1 else Max(j - 2, 0))
    else if Missed(u, i, j) then Some(j - 2)
    else None
  }

  function StopEvent(d: Option<nat>, u: Unit, s: Snapshot, counter: nat): seq<Event>
    requires d.Some? ==> d.value < |u.history|
  {
    if d.None? then [] else [ToEvent(ToCandidate(u.history[d.value]), s, counter + 1)]
  }

  lemma ConsiderOneOrTwo(p: Progress, a: Candidate, b: Candidate, delayed: bool, s: Snapshot)
    ensures ConsiderAll(p, [], delayed, s) == p
    ensures ConsiderAll(p, [a], delayed, s) == Consider(p, a, delayed, s)
    ensures ConsiderAll(p, [a, b], delayed, s) == Consider(Consider(p, a, delayed, s), b, delayed, s)
  {
    var q := Consider(p, a, delayed, s);
    assert [a][1..] == [] && [a, b][1..] == [b] && [b][1..] == [];
    assert ConsiderAll(q, [b], delayed, s) == ConsiderAll(Consider(q, b, delayed, s), [], delayed, s);
  }

  /** What the loop of Apply makes of the fresh transitions of a probed unit. */
  ghost predicate LoopIs(st: ServiceState, counter: nat, u: Unit, i: nat, j: nat, s: Snapshot, p: Progress)
    requires i <= j <= |u.history|
  {
    var d := Stop(st, u, i, j);
    && (d.Some? ==> i <= d.value < j && u.history[d.value].state == Down)
    && p.events == StopEvent(d, u, s, counter) && p.counter == counter + |p.events|
    && p.pending == (StateAfter(u, j) == Up && (i < j || st.awaiting))
  }

  lemma LoopOverOne(e: State, u: Unit, i: nat, s: Snapshot)
    requires Real(u) && i < |u.history| && Gates(e, u, i)
    ensures var st := e.states[u.service];
      LoopIs(st, e.counter, u, i, i + 1, s,
             Consider(Progress(e.counter, st.availability, st.awaiting, []), ToCandidate(u.history[i]), true, s))
  {
    assert Flips(u, i);
  }

  lemma LoopOverTwo(e: State, u: Unit, i: nat, j: nat, s: Snapshot)
    requires Real(u) && i + 2 <= j <= |u.history| && Gates(e, u, i)
    ensures var st := e.states[u.service];
      var q := Consider(Progress(e.counter, st.availability, st.awaiting, []), ToCandidate(u.history[j - 2]), true, s);
      LoopIs(st, e.counter, u, i, j, s, Consider(q, ToCandidate(u.history[j - 1]), true, s))
  {
    LatestLastTwo(u, j);
  }

  lemma GatedLoop(e: State, u: Unit, i: nat, j: nat, s: Snapshot)
    requires Real(u) && i <= j <= |u.history| && Gates(e, u, i) && ShowsState(u, j, s)
    ensures var st := e.states[u.service];
      LoopIs(st, e.counter, u, i, j, s,
             ConsiderAll(Progress(e.counter, st.availability, st.awaiting, []), Candidates(st, s), true, s))
  {
    CandidatesAre(e, u, i, j, s);
    FreshLoop(e, u, i, j, s);
  }

  lemma FreshLoop(e: State, u: Unit, i: nat, j: nat, s: Snapshot)
    requires Real(u) && i <= j <= |u.history| && Gates(e, u, i)
    ensures var st := e.states[u.service];
      LoopIs(st, e.counter, u, i, j, s,
             ConsiderAll(Progress(e.counter, st.availability, st.awaiting, []), Fresh(u, i, j), true, s))
  {
    var st := e.states[u.service];
    var start := Progress(e.counter, st.availability, st.awaiting, []);
    FreshIs(u, i, j);
    if i == j {
      assert ConsiderAll(start, [], true, s) == start;
    } else if i + 1 == j {
      var c := ToCandidate(u.history[i]);
      ConsiderOneOrTwo(start, c, c, true, s);
      LoopOverOne(e, u, i, s);
    } else {
      ConsiderOneOrTwo(start, ToCandidate(u.history[j - 2]), ToCandidate(u.history[j - 1]), true, s);
      LoopOverTwo(e, u, i, j, s);
    }
  }

  /** A snapshot of a probed unit: it never emits UP, at most one DOWN, and nothing at all while an
      answer is awaited. */
  lemma GatedApply(e: State, u: Unit, i: nat, j: nat, s: Snapshot)
    requires Real(u) && i <= j <= |u.history| && Gates(e, u, i) && ShowsState(u, j, s)
    ensures var (b, evs) := Apply(e, s);
      var st, d := e.states[u.service], Stop(e.states[u.service], u, i, j);
      && Gates(b, u, j)
      && (d.Some? ==> i <= d.value < j && u.history[d.value].state == Down)
      && evs == StopEvent(d, u, s, e.counter)
      && (b.states[u.service].awaiting <==> StateAfter(u, j) == Up && (i < j || st.awaiting))
      && (st.awaiting ==> evs == [])
  {
    GatedLoop(e, u, i, j, s);
  }

  /** An answer stamped no earlier than a stop that no look has shown yet. */
  predicate Late(u: Unit, i: nat, atMs: int) { i < |u.history| && Ms(u.history[i].us) <= atMs }

  /** When the UP that an answer releases is stamped: at the answer, but behind the last event. */
  function Released(st: ServiceState, atMs: int): int { if atMs <= st.lastEventMs then st.lastEventMs + 1 else atMs }

  /** An answer releases exactly the awaited UP; it is discarded when no answer is awaited. The engine goes
      on tracking the unit if and only if an awaited answer is not late. */
  lemma GatedAnswer(e: State, u: Unit, i: nat, atMs: int, source: Source)
    requires Real(u) && i <= |u.history| && Gates(e, u, i)
    ensures var (b, evs) := ConfirmReady(e, u.service, atMs, source);
      var st := e.states[u.service];
      && u.service in b.states && !b.states[u.service].awaiting
      && (Gates(b, u, i) <==> !(st.awaiting && Late(u, i, atMs)))
      && (if st.awaiting
          then evs == [Event(e.counter + 1, u.service, Up, Released(st, atMs), 0, u.bootId, source, st.activeState, st.subState)]
          else evs == [] && b == e)
  {
    var st, b := e.states[u.service], ConfirmReady(e, u.service, atMs, source).0;
    if st.awaiting && i < |u.history| {
      assert Ms(u.history[i - 1].us) < Ms(u.history[i].us);
      if !Late(u, i, atMs) {
        forall k | i <= k < |u.history| ensures b.states[u.service].lastEventMs < Ms(u.history[k].us) {
          assert Ms(u.history[i].us) <= Ms(u.history[k].us);
        }
      }
    }
  }

  // ------------------------------------------------------------------ every run

  datatype Step = Seen(look: Look) | Answer(atMs: int, source: Source)

  function Take(e: State, u: Unit, step: Step): (State, seq<Event>) {
    match step
    case Seen(look) => Engine.Apply(e, look.snapshot)
    case Answer(atMs, source) => ConfirmReady(e, u.service, atMs, source)
  }

  function After(i: nat, step: Step): nat { if step.Seen? then step.look.after else i }

  /** Looks in history order, with answers at any time. */
  predicate Legal(u: Unit, i: nat, steps: seq<Step>)
    decreases steps
  {
    steps != [] ==>
      && i <= After(i, steps[0]) <= |u.history|
      && (steps[0].Seen? ==> ShowsState(u, steps[0].look.after, steps[0].look.snapshot))
      && Legal(u, After(i, steps[0]), steps[1..])
  }

  /** The step is not an awaited answer that comes late. */
  predicate StepOnTime(e: State, u: Unit, i: nat, step: Step) {
    !(step.Answer? && Lookup(e, u.service).awaiting && Late(u, i, step.atMs))
  }

  predicate OnTime(e: State, u: Unit, i: nat, steps: seq<Step>)
    decreases steps
  {
    steps != [] ==> StepOnTime(e, u, i, steps[0]) && OnTime(Take(e, u, steps[0]).0, u, After(i, steps[0]), steps[1..])
  }

  function Stream(e: State, u: Unit, steps: seq<Step>): seq<Event>
    decreases steps
  {
    if steps == [] then []
    else var (b, evs) := Take(e, u, steps[0]); evs + Stream(b, u, steps[1..])
  }

  /** Each event leaves the state of the one before it, the first one state a. */
  predicate Alternates(a: Availability, evs: seq<Event>)
    decreases evs
  {
    evs != [] ==> evs[0].state != a && Alternates(evs[0].state, evs[1..])
  }

  function LastState(a: Availability, evs: seq<Event>): Availability {
    if evs == [] then a else evs[|evs| - 1].state
  }

  lemma {:induction false} AlternatesConcat(a: Availability, x: seq<Event>, y: seq<Event>)
    ensures Alternates(a, x + y) <==> Alternates(a, x) && Alternates(LastState(a, x), y)
    decreases x
  {
    if x == [] {
      assert x + y == y;
    } else {
      assert (x + y)[1..] == x[1..] + y;
      AlternatesConcat(x[0].state, x[1..], y);
    }
  }

  /** No look misses a whole activation of the unit while the next one is under way. */
  predicate NoneMissed(u: Unit, i: nat, steps: seq<Step>)
    requires Legal(u, i, steps) && i <= |u.history|
    decreases steps
  {
    steps != [] ==> !Missed(u, i, After(i, steps[0])) && NoneMissed(u, After(i, steps[0]), steps[1..])
  }

  lemma StepAlternates(e: State, u: Unit, i: nat, step: Step)
    requires Real(u) && i <= |u.history| && Gates(e, u, i) && Legal(u, i, [step]) && StepOnTime(e, u, i, step)
    ensures var (b, evs) := Take(e, u, step);
      var a := e.states[u.service].availability;
      && Gates(b, u, After(i, step))
      && b.states[u.service].availability == LastState(a, evs)
      && (Alternates(a, evs) <==> !Missed(u, i, After(i, step)))
  {
    match step
    case Seen(look) => GatedApply(e, u, i, look.after, look.snapshot);
    case Answer(atMs, source) => GatedAnswer(e, u, i, atMs, source);
  }

  /** The stream of a probed unit whose answers are not late strictly alternates between UP and DOWN
      exactly when no look misses a whole activation. */
  lemma {:induction false} GatedAlternatesIff(e: State, u: Unit, i: nat, steps: seq<Step>)
    requires Real(u) && i <= |u.history| && Gates(e, u, i) && Legal(u, i, steps) && OnTime(e, u, i, steps)
    ensures Alternates(e.states[u.service].availability, Stream(e, u, steps)) <==> NoneMissed(u, i, steps)
    decreases steps
  {
    if steps != [] {
      var (b, evs) := Take(e, u, steps[0]);
      StepAlternates(e, u, i, steps[0]);
      GatedAlternatesIff(b, u, After(i, steps[0]), steps[1..]);
      AlternatesConcat(e.states[u.service].availability, evs, Stream(b, u, steps[1..]));
    }
  }

  /** After every step the engine tracks the unit. */
  ghost predicate Tracks(e: State, u: Unit, i: nat, steps: seq<Step>)
    decreases steps
  {
    && i <= |u.history| && Gates(e, u, i)
    && (steps != [] ==> Tracks(Take(e, u, steps[0]).0, u, After(i, steps[0]), steps[1..]))
  }

  /** The engine tracks the unit through a run if and only if no awaited answer in it is late. */
  lemma {:induction false} TracksIff(e: State, u: Unit, i: nat, steps: seq<Step>)
    requires Real(u) && i <= |u.history| && Gates(e, u, i) && Legal(u, i, steps)
    ensures Tracks(e, u, i, steps) <==> OnTime(e, u, i, steps)
    decreases steps
  {
    if steps != [] {
      if StepOnTime(e, u, i, steps[0]) {
        StepAlternates(e, u, i, steps[0]);
        TracksIff(Take(e, u, steps[0]).0, u, After(i, steps[0]), steps[1..]);
      } else {
        GatedAnswer(e, u, i, steps[0].atMs, steps[0].source);
      }
    }
  }

  // ------------------------------------------------------------------ late answers

  /** A probe answers while the engine awaits it: the look that then shows the stop reports it if and only
      if the answer came before the stop. A late answer is not discarded; it swallows the stop. */
  lemma StopReportedIff(e: State, u: Unit, i: nat, atMs: int, source: Source, s: Snapshot)
    requires Real(u) && i < |u.history| && Gates(e, u, i) && e.states[u.service].awaiting && ShowsState(u, i + 1, s)
    ensures var (a, up) := ConfirmReady(e, u.service, atMs, source);
      var (b, evs) := Engine.Apply(a, s);
      && |up| == 1 && up[0].state == Up && u.service in b.states
      && b.states[u.service].availability == Down && !b.states[u.service].awaiting
      && (if atMs < Ms(u.history[i].us) then |evs| == 1 && evs[0].state == Down && evs[0].timeMs == Ms(u.history[i].us)
          else evs == [])
  {
    GatedAnswer(e, u, i, atMs, source);
    var a := ConfirmReady(e, u.service, atMs, source).0;
    assert Flips(u, i);
    if atMs < Ms(u.history[i].us) {
      GatedApply(a, u, i, i + 1, s);
    } else {
      Swallowed(a, u, i, s);
    }
  }

  /** A stop no later than the last event is not reported. */
  lemma Swallowed(a: State, u: Unit, i: nat, s: Snapshot)
    requires Real(u) && 1 <= i < |u.history| && StateAfter(u, i) == Up && u.history[i].state == Down && ShowsState(u, i + 1, s)
    requires u.service in a.states && u.service in a.delayUp
    requires var st := a.states[u.service];
      && st.bootId == u.bootId && st.availability == Up && !st.awaiting
      && st.lastEnterUs == Latest(u, i, Up).0 && Ms(u.history[i].us) <= st.lastEventMs
    ensures var (b, evs) := Engine.Apply(a, s);
      && evs == [] && u.service in b.states
      && b.states[u.service] == Engine.Seen(a.states[u.service], s, Down, false)
      && b.counter == a.counter && b.delayUp == a.delayUp
  {
    var st := a.states[u.service];
    assert Found(st, s) == [] + [];
    assert Candidates(st, s) == [];
  }

  /** And then the next activation repeats UP: the stream has two in a row. */
  lemma LateAnswerRepeatsUp(e: State, u: Unit, i: nat, atMs: int, source: Source, s: Snapshot, s': Snapshot, laterMs: int)
    requires Real(u) && i + 1 < |u.history| && Gates(e, u, i) && e.states[u.service].awaiting
    requires ShowsState(u, i + 1, s) && ShowsState(u, i + 2, s') && Ms(u.history[i].us) <= atMs < Ms(u.history[i + 1].us)
    ensures var steps := [Answer(atMs, source), Seen(Look(i + 1, s)), Seen(Look(i + 2, s')), Answer(laterMs, source)];
      var evs := Stream(e, u, steps);
      |evs| == 2 && evs[0].state == evs[1].state == Up
  {
    GatedAnswer(e, u, i, atMs, source);
    var (a, up) := ConfirmReady(e, u.service, atMs, source);
    assert Flips(u, i) && Flips(u, i + 1);
    Swallowed(a, u, i, s);
    var b := Engine.Apply(a, s).0;
    BackOnTrack(a, b, u, i, s, atMs);
    GatedApply(b, u, i + 1, i + 2, s');
    var c := Engine.Apply(b, s').0;
    GatedAnswer(c, u, i + 2, laterMs, source);
    var steps := [Answer(atMs, source), Seen(Look(i + 1, s)), Seen(Look(i + 2, s')), Answer(laterMs, source)];
    FourSteps(e, a, b, c, u, steps);
  }

  /** Once a look has shown the swallowed stop, the engine tracks the unit again. */
  lemma BackOnTrack(a: State, b: State, u: Unit, i: nat, s: Snapshot, atMs: int)
    requires Real(u) && i + 1 < |u.history| && ShowsState(u, i + 1, s) && u.history[i].state == Down
    requires u.service in a.states && u.service in a.delayUp && a.states[u.service].lastEventMs == atMs < Ms(u.history[i + 1].us)
    requires u.service in b.states && b.states[u.service] == Engine.Seen(a.states[u.service], s, Down, false) && b.delayUp == a.delayUp
    ensures Gates(b, u, i + 1)
  {
    forall k | i + 1 <= k < |u.history| ensures b.states[u.service].lastEventMs < Ms(u.history[k].us) {
      assert Ms(u.history[i + 1].us) <= Ms(u.history[k].us);
    }
  }

  lemma FourSteps(e: State, a: State, b: State, c: State, u: Unit, steps: seq<Step>)
    requires |steps| == 4 && a == Take(e, u, steps[0]).0 && b == Take(a, u, steps[1]).0 && c == Take(b, u, steps[2]).0
    ensures Stream(e, u, steps) ==
            Take(e, u, steps[0]).1 + (Take(a, u, steps[1]).1 + (Take(b, u, steps[2]).1 + Take(c, u, steps[3]).1))
  {
    assert steps[1..][0] == steps[1] && steps[1..][1..] == steps[2..] && steps[2..][0] == steps[2] && steps[2..][1..] == steps[3..];
    assert steps[3..][0] == steps[3] && steps[3..][1..] == [];
    var d := Take(c, u, steps[3]);
    assert Stream(c, u, steps[3..]) == d.1 + Stream(d.0, u, []) == d.1 + [] == d.1;
    assert Stream(b, u, steps[2..]) == Take(b, u, steps[2]).1 + Stream(c, u, steps[3..]);
    assert Stream(a, u, steps[1..]) == Take(a, u, steps[1]).1 + Stream(b, u, steps[2..]);
  }

  /** The first look at a boot: an active unit counts as up and no answer is awaited. From there on the engine
      tracks the unit exactly if no answer is late, and then the stream alternates exactly if no look misses
      an activation. */
  lemma FirstLookGates(e: State, u: Unit, i: nat, s: Snapshot, steps: seq<Step>)
    requires Real(u) && i <= |u.history| && ShowsState(u, i, s) && u.service in e.delayUp && Legal(u, i, steps)
    requires u.service in e.states ==> e.states[u.service].bootId != u.bootId
    requires forall k :: i <= k < |u.history| ==> Lookup(e, u.service).lastEventMs < Ms(u.history[k].us)
    ensures var (b, evs) := Engine.Apply(e, s);
      && evs == [] && Gates(b, u, i) && !b.states[u.service].awaiting
      && (Tracks(b, u, i, steps) <==> OnTime(b, u, i, steps))
      && (OnTime(b, u, i, steps) ==> (Alternates(StateAfter(u, i), Stream(b, u, steps)) <==> NoneMissed(u, i, steps)))
  {
    FirstLook(e, u, i, s);
    assert StateAfter(u, i) != Unknown;
    TracksIff(Engine.Apply(e, s).0, u, i, steps);
    if OnTime(Engine.Apply(e, s).0, u, i, steps) {
      GatedAlternatesIff(Engine.Apply(e, s).0, u, i, steps);
    }
  }

  /** A concrete miss: a unit seen down, started, stopped and started again before the next look. The
      stop is reported although the unit was reported down already. */
  lemma MissedActivationRepeatsDown(e: State, u: Unit, s: Snapshot)
    requires Real(u) && |u.history| == 3 && u.state == Down && Gates(e, u, 0) && !e.states[u.service].awaiting
    requires ShowsState(u, 3, s) && u.history[1].state == Down && u.history[2].state == Up
    ensures var evs := Engine.Apply(e, s).1;
      |evs| == 1 && evs[0].state == Down == e.states[u.service].availability
  {
    GatedApply(e, u, 0, 3, s);
  }
}
