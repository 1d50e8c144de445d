/** Exactly when the stream of a probed unit alternates, whenever its answers come
    (internal/engine/engine.go, Apply and ConfirmReady). */
module ProbeLate {
  import opened Types
  import opened Sorting
  import opened Engine
  import opened EngineHistory
  import opened ProbeGating

  // ------------------------------------------------------------------ what the stream tells, from history alone

  /** The first transition from i on in a millisecond after floor. */
  function Clear(u: Unit, i: nat, floor: int): (r: nat)
    requires i <= |u.history|
    ensures i <= r <= |u.history|
    ensures forall k :: i <= k < r ==> Ms(u.history[k].us) <= floor
    ensures r < |u.history| ==> Ms(u.history[r].us) > floor
    decreases |u.history| - i
  {
    if i == |u.history| || Ms(u.history[i].us) > floor then i else Clear(u, i + 1, floor)
  }

  /** How far the engine has seen the unit, when its last event was stamped, and whether it awaits an
      answer. */
  datatype View = View(seen: nat, floor: int, waiting: bool)

  /** Where the transitions that a look after j shows anew begin. */
  function Begins(u: Unit, v: View, j: nat): nat
    requires v.seen <= j <= |u.history|
  {
    Min(j, Clear(u, v.seen, v.floor))
  }

  /** The stop a look after j tells, if any. */
  function Told(u: Unit, v: View, j: nat): Option<nat>
    requires v.seen <= j <= |u.history|
  {
    var f := Begins(u, v, j);
    if v.waiting || f == j then None
    else if u.history[j - 1].state == Down
    then (if f + 1 == j || StateAfter(u, v.seen) == Up then Some(j - 1) else None)
    else (if f + 2 <= j then Some(j - 2) else None)
  }

  function AfterLook(u: Unit, v: View, j: nat): View
    requires v.seen <= j <= |u.history|
  {
    if v.waiting then View(j, v.floor, StateAfter(u, j) == Up)
    else
      var d := Told(u, v, j);
      View(j, if d.Some? then Ms(u.history[d.value].us) else v.floor, Begins(u, v, j) < j && StateAfter(u, j) == Up)
  }

  function AfterAnswer(v: View, atMs: int): View {
    if v.waiting then View(v.seen, if atMs <= v.floor then v.floor + 1 else atMs, false) else v
  }

  /** The looks and answers make sense to a stream that last said said: a look tells a stop only to one that
      said UP, and an awaited answer comes only to one that did not. */
  predicate Regular(u: Unit, v: View, said: Availability, steps: seq<Step>)
    requires v.seen <= |u.history| && Legal(u, v.seen, steps)
    decreases steps
  {
    steps != [] ==>
      match steps[0]
      case Seen(look) =>
        var d := Told(u, v, look.after);
        && (d.Some? ==> said == Up)
        && Regular(u, AfterLook(u, v, look.after), if d.Some? then Down else said, steps[1..])
      case Answer(atMs, _) =>
        && (v.waiting ==> said != Up)
        && Regular(u, AfterAnswer(v, atMs), if v.waiting then Up else said, steps[1..])
  }

  // ------------------------------------------------------------------ the engine behind the view

  ghost predicate SeenAs(st: ServiceState, u: Unit, v: View) {
    && v.seen <= |u.history|
    && st.bootId == u.bootId && st.lastEventMs == v.floor && st.awaiting == v.waiting
    && st.lastEnterUs == Latest(u, v.seen, Up).0 && st.lastExitUs == Latest(u, v.seen, Down).0
    && if v.waiting
       then v.seen >= 1 && StateAfter(u, v.seen) == Up && st.availability == Down && v.floor < Ms(u.history[v.seen - 1].us)
       else st.availability == StateAfter(u, v.seen)
  }

  /** Gates without the promise that the next transition is later than the last event. */
  ghost predicate Sees(e: State, u: Unit, v: View) {
    u.service in e.delayUp && u.service in e.states && SeenAs(e.states[u.service], u, v)
  }

  /** While an answer is awaited the engine tracks the unit. */
  lemma WaitingGates(e: State, u: Unit, v: View)
    requires Real(u) && Sees(e, u, v) && v.waiting
    ensures Gates(e, u, v.seen)
  {
  }

  /** The number of the latest transition into a state among the first i, 0 when there is none. */
  function LastOf(u: Unit, i: nat, state: Availability): (k: nat)
    requires i <= |u.history|
    ensures k <= i
    ensures k > 0 ==> Latest(u, i, state).0 == u.history[k - 1].us
  {
    if i == 0 then 0 else if u.history[i - 1].state == state then i else LastOf(u, i - 1, state)
  }

  /** Between two looks the latest one stays, or is one of those in between. */
  lemma {:induction false} LatestMoves(u: Unit, i: nat, j: nat, state: Availability)
    requires i <= j <= |u.history|
    ensures Latest(u, j, state) == Latest(u, i, state) || LastOf(u, j, state) > i
    decreases j
  {
    if i < j && u.history[j - 1].state != state {
      LatestMoves(u, i, j - 1, state);
    }
  }

  /** The latest transition of those up to f is remembered already, or no later than the floor. */
  lemma Remembered(u: Unit, i: nat, f: nat, floor: int, state: Availability)
    requires i <= f <= |u.history| && forall k :: i <= k < f ==> Ms(u.history[k].us) <= floor
    ensures Latest(u, f, state) == Latest(u, i, state) || Ms(Latest(u, f, state).0) <= floor
  {
    LatestMoves(u, i, f, state);
    var k := LastOf(u, f, state);
    if k > i {
      assert Ms(u.history[k - 1].us) <= floor;
    }
  }

  /** A transition after f is later than anything remembered before it. */
  lemma LaterThanBoth(u: Unit, i: nat, f: nat, j: nat, state: Availability)
    requires Real(u) && i <= f <= j <= |u.history| && LastOf(u, j, state) > f
    ensures Latest(u, j, state).0 > Latest(u, f, state).0 && Latest(u, j, state).0 > Latest(u, i, state).0
  {
    var k := LastOf(u, j, state) - 1;
    LatestIsEarlier(u, f, state, k);
    LatestIsEarlier(u, i, state, k);
  }

  /** What a look shows anew does not depend on how far the swallowed transitions were seen. */
  lemma SameAnew(u: Unit, i: nat, f: nat, j: nat, floor: int, state: Availability)
    requires Real(u) && i <= f <= j <= |u.history| && forall k :: i <= k < f ==> Ms(u.history[k].us) <= floor
    ensures var last := Latest(u, j, state).0;
      Ms(last) > floor ==> (last > Latest(u, i, state).0 <==> last > Latest(u, f, state).0)
  {
    LatestMoves(u, f, j, state);
    if LastOf(u, j, state) > f {
      LaterThanBoth(u, i, f, j, state);
    } else {
      Remembered(u, i, f, floor, state);
    }
  }

  lemma CandidatesClear(e: State, u: Unit, v: View, j: nat, s: Snapshot)
    requires Real(u) && Sees(e, u, v) && v.seen <= j <= |u.history| && ShowsState(u, j, s)
    ensures Candidates(e.states[u.service], s) == Fresh(u, Begins(u, v, j), j)
  {
    var st, f := e.states[u.service], Begins(u, v, j);
    SameAnew(u, v.seen, f, j, v.floor, Up);
    SameAnew(u, v.seen, f, j, v.floor, Down);
    var moved := st.(lastEnterUs := Latest(u, f, Up).0, lastExitUs := Latest(u, f, Down).0);
    assert Found(st, s) == Found(moved, s);
    if f == j {
      assert Found(moved, s) == [] + [];
      assert Candidates(moved, s) == [];
      assert Fresh(u, j, j) == [];
    } else {
      var a := e.(states := e.states[u.service := moved]);
      forall k | f <= k < |u.history| ensures moved.lastEventMs < Ms(u.history[k].us) {
        assert Ms(u.history[f].us) <= Ms(u.history[k].us);
      }
      CandidatesAre(a, u, f, j, s);
    }
  }

  /** What the loop of Apply makes of the transitions shown anew when no answer is awaited. */
  lemma ClearLoop(u: Unit, v: View, j: nat, s: Snapshot, counter: nat)
    requires Real(u) && v.seen <= j <= |u.history| && !v.waiting
    ensures var f, d := Begins(u, v, j), Told(u, v, j);
      var p := ConsiderAll(Progress(counter, StateAfter(u, v.seen), false, []), Fresh(u, f, j), true, s);
      && (d.Some? ==> d.value < |u.history|)
      && p.events == StopEvent(d, u, s, counter) && p.pending == (f < j && StateAfter(u, j) == Up)
  {
    var f := Begins(u, v, j);
    var start := Progress(counter, StateAfter(u, v.seen), false, []);
    FreshIs(u, f, j);
    if f == j {
      assert ConsiderAll(start, [], true, s) == start;
    } else if f + 1 == j {
      var c := ToCandidate(u.history[j - 1]);
      ConsiderOneOrTwo(start, c, c, true, s);
    } else {
      LatestLastTwo(u, j);
      ConsiderOneOrTwo(start, ToCandidate(u.history[j - 2]), ToCandidate(u.history[j - 1]), true, s);
    }
  }

  /** The stop told lies before the look; the start then awaited is later. */
  lemma ToldIs(u: Unit, v: View, j: nat)
    requires Real(u) && v.seen <= j <= |u.history|
    ensures var d := Told(u, v, j);
      && (d.Some? ==> d.value < j && u.history[d.value].state == Down)
      && (AfterLook(u, v, j).waiting && !v.waiting ==> j >= 1 && AfterLook(u, v, j).floor < Ms(u.history[j - 1].us))
  {
    LatestLastTwo(u, j);
    var f := Begins(u, v, j);
    if f < j - 1 {
      assert Ms(u.history[f].us) < Ms(u.history[j - 1].us);
    }
  }

  /** The state a look leaves behind, from what its loop comes to. */
  lemma SeenAfter(was: ServiceState, u: Unit, v: View, j: nat, s: Snapshot, events: seq<Event>, counter: nat)
    requires Real(u) && SeenAs(was, u, v) && !v.waiting && v.seen <= j <= |u.history| && ShowsState(u, j, s)
    requires var d := Told(u, v, j); (d.Some? ==> d.value < |u.history|) && events == StopEvent(d, u, s, counter)
    ensures var w := AfterLook(u, v, j);
      SeenAs(Account(Engine.Seen(was, s, if w.waiting then Down else Observed(s.activeState), w.waiting), events), u, w)
  {
    ToldIs(u, v, j);
    assert StateAfter(u, j) != Unknown;
  }

  lemma ApplyIs(e: State, u: Unit, s: Snapshot, p: Progress)
    requires u.service in e.states && u.service in e.delayUp && s.service == u.service && s.bootId == e.states[u.service].bootId
    requires var st := e.states[u.service];
      p == ConsiderAll(Progress(e.counter, st.availability, st.awaiting, []), Candidates(st, s), true, s)
    ensures var (b, evs) := Engine.Apply(e, s);
      && evs == p.events && u.service in b.delayUp && u.service in b.states
      && b.states[u.service] ==
         Account(Engine.Seen(e.states[u.service], s, if p.pending then Down else Observed(s.activeState), p.pending), p.events)
  {
  }

  lemma LookSees(e: State, u: Unit, v: View, j: nat, s: Snapshot)
    requires Real(u) && Sees(e, u, v) && v.seen <= j <= |u.history| && ShowsState(u, j, s)
    ensures var (b, evs) := Engine.Apply(e, s);
      var d := Told(u, v, j);
      && Sees(b, u, AfterLook(u, v, j))
      && (d.Some? ==> d.value < |u.history| && u.history[d.value].state == Down)
      && evs == StopEvent(d, u, s, e.counter)
  {
    if v.waiting {
      WaitingLook(e, u, v, j, s);
    } else {
      var st := e.states[u.service];
      CandidatesClear(e, u, v, j, s);
      ClearLoop(u, v, j, s, e.counter);
      ToldIs(u, v, j);
      var p := ConsiderAll(Progress(e.counter, st.availability, st.awaiting, []), Candidates(st, s), true, s);
      ApplyIs(e, u, s, p);
      SeenAfter(st, u, v, j, s, p.events, e.counter);
    }
  }

  lemma WaitingLook(e: State, u: Unit, v: View, j: nat, s: Snapshot)
    requires Real(u) && Sees(e, u, v) && v.waiting && v.seen <= j <= |u.history| && ShowsState(u, j, s)
    ensures var (b, evs) := Engine.Apply(e, s);
      Sees(b, u, AfterLook(u, v, j)) && evs == []
  {
    WaitingGates(e, u, v);
    GatedApply(e, u, v.seen, j, s);
  }

  lemma AnswerSees(e: State, u: Unit, v: View, atMs: int, source: Source)
    requires Real(u) && Sees(e, u, v)
    ensures var (b, evs) := ConfirmReady(e, u.service, atMs, source);
      && Sees(b, u, AfterAnswer(v, atMs))
      && (if v.waiting then |evs| == 1 && evs[0].state == Up else evs == [])
  {
  }

  /** For any answers at any time: the stream alternates, starting behind what was said last, if and only if
      the looks and answers are regular. */
  lemma {:induction false} AlternatesIff(e: State, u: Unit, v: View, said: Availability, steps: seq<Step>)
    requires Real(u) && Sees(e, u, v) && Legal(u, v.seen, steps) && said != Unknown
    ensures Alternates(said, ProbeGating.Stream(e, u, steps)) <==> Regular(u, v, said, steps)
    decreases steps
  {
    if steps != [] {
      var (b, evs) := Take(e, u, steps[0]);
      var rest := ProbeGating.Stream(b, u, steps[1..]);
      AlternatesConcat(said, evs, rest);
      match steps[0]
      case Seen(look) =>
        LookSees(e, u, v, look.after, look.snapshot);
        var d := Told(u, v, look.after);
        AlternatesIff(b, u, AfterLook(u, v, look.after), if d.Some? then Down else said, steps[1..]);
      case Answer(atMs, source) =>
        AnswerSees(e, u, v, atMs, source);
        AlternatesIff(b, u, AfterAnswer(v, atMs), if v.waiting then Up else said, steps[1..]);
    }
  }

  /** So from the first look at a boot on, whatever the engine emitted in an earlier one. */
  lemma FirstLookAlternatesIff(e: State, u: Unit, i: nat, s: Snapshot, steps: seq<Step>)
    requires Real(u) && i <= |u.history| && ShowsState(u, i, s) && u.service in e.delayUp && Legal(u, i, steps)
    requires u.service in e.states ==> e.states[u.service].bootId != u.bootId
    ensures var (b, evs) := Engine.Apply(e, s);
      var start := View(i, Lookup(e, u.service).lastEventMs, false);
      && evs == []
      && (Alternates(StateAfter(u, i), ProbeGating.Stream(b, u, steps)) <==> Regular(u, start, StateAfter(u, i), steps))
  {
    var b := Engine.Apply(e, s).0;
    assert StateAfter(u, i) != Unknown;
    AlternatesIff(b, u, View(i, Lookup(e, u.service).lastEventMs, false), StateAfter(u, i), steps);
  }
}
