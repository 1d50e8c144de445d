/** What the stream of a probed unit tells in every run, late answers included
    (internal/engine/engine.go, Apply and ConfirmReady). */
module ProbeRuns {
  import opened Types
  import opened Sorting
  import opened Engine
  import opened EngineHistory
  import opened ProbeGating

  // ------------------------------------------------------------------ the loop of Apply for a probed unit

  /** Where an event comes from. */
  ghost predicate FromDown(cs: seq<Candidate>, s: Snapshot, x: Event) {
    exists c :: c in cs && c.state != Up && x.state == c.state && x.timeMs == Ms(c.us)
  }

  /** The loop emits only candidates other than UP, and begins to await an answer only at an UP. */
  lemma {:induction false} LoopWithholds(p: Progress, cs: seq<Candidate>, s: Snapshot, all: seq<Candidate>)
    requires forall c :: c in cs ==> c in all
    requires forall k :: 0 <= k < |p.events| ==> FromDown(all, s, p.events[k])
    ensures var q := ConsiderAll(p, cs, true, s);
      && (forall k :: 0 <= k < |q.events| ==> FromDown(all, s, q.events[k]))
      && (q.pending && !p.pending ==> exists c :: c in all && c.state == Up)
    decreases cs
  {
    if cs != [] {
      var q := Consider(p, cs[0], true, s);
      assert cs[0] in all;
      forall k | 0 <= k < |q.events| ensures FromDown(all, s, q.events[k]) {
        if k < |p.events| {
          assert FromDown(all, s, p.events[k]);
        }
      }
      LoopWithholds(q, cs[1..], s, all);
    }
  }

  /** A candidate is the stop or the start that the snapshot shows anew. */
  ghost predicate IsNew(was: ServiceState, s: Snapshot, c: Candidate) {
    || (c == Candidate(Down, s.exitUs, s.exitMonoUs) && NewExit(was, s))
    || (c == Candidate(Up, s.enterUs, s.enterMonoUs) && NewEnter(was, s))
  }

  lemma FoundKinds(was: ServiceState, s: Snapshot, c: Candidate)
    requires c in Found(was, s)
    ensures IsNew(was, s, c)
  {
    var a := if NewExit(was, s) then [Candidate(Down, s.exitUs, s.exitMonoUs)] else [];
    var b := if NewEnter(was, s) then [Candidate(Up, s.enterUs, s.enterMonoUs)] else [];
    assert Found(was, s) == a + b;
    assert c in a || c in b;
  }

  lemma CandidateKinds(was: ServiceState, s: Snapshot, c: Candidate)
    requires c in Candidates(was, s)
    ensures IsNew(was, s, c)
  {
    var found := Found(was, s);
    SortMembers(ByTime, found);
    assert c in found;
    FoundKinds(was, s, c);
  }

  // ------------------------------------------------------------------ every DOWN is a real stop

  ghost predicate RealStop(u: Unit, x: Event) {
    exists k :: 0 <= k < |u.history| && u.history[k].state == Down && x.timeMs == Ms(u.history[k].us)
  }

  /** Or the last stop before the history began. */
  ghost predicate WasStop(u: Unit, x: Event) { RealStop(u, x) || x.timeMs == Ms(u.exitUs) }

  lemma {:induction false} LatestIsReal(u: Unit, i: nat, x: Event)
    requires i <= |u.history| && x.timeMs == Ms(Latest(u, i, Down).0)
    ensures WasStop(u, x)
  {
    if i > 0 && u.history[i - 1].state != Down {
      LatestIsReal(u, i - 1, x);
    }
  }

  lemma ApplyTellsStops(e: State, u: Unit, j: nat, s: Snapshot, k: nat)
    requires j <= |u.history| && Shows(u, j, s) && u.service in e.delayUp && k < |Engine.Apply(e, s).1|
    ensures var x := Engine.Apply(e, s).1[k]; x.state == Down && WasStop(u, x)
  {
    var was := Lookup(e, s.service);
    var cs := Candidates(was, s);
    LoopWithholds(Progress(e.counter, was.availability, was.awaiting, []), cs, s, cs);
    var x := Engine.Apply(e, s).1[k];
    var c :| c in cs && c.state != Up && x.state == c.state && x.timeMs == Ms(c.us);
    CandidateKinds(was, s, c);
    LatestIsReal(u, j, x);
  }

  /** The unit stays one of those whose UP is withheld. */
  lemma DelayStays(e: State, u: Unit, step: Step)
    ensures Take(e, u, step).0.delayUp == e.delayUp
  {
  }

  /** The m-th event of the run is emitted by an answer. */
  predicate ByAnswer(e: State, u: Unit, steps: seq<Step>, m: nat)
    decreases steps
  {
    steps != [] &&
    var (b, evs) := Take(e, u, steps[0]);
    if m < |evs| then steps[0].Answer? else ByAnswer(b, u, steps[1..], m - |evs|)
  }

  /** In every run from any state of the engine, only answers emit UP, and everything else in the stream is
      the DOWN of a real stop. */
  lemma {:induction false} DownIsReal(e: State, u: Unit, i: nat, steps: seq<Step>, m: nat)
    requires i <= |u.history| && Legal(u, i, steps) && u.service in e.delayUp
    requires m < |ProbeGating.Stream(e, u, steps)|
    ensures var x := ProbeGating.Stream(e, u, steps)[m];
      if ByAnswer(e, u, steps, m) then x.state == Up else x.state == Down && WasStop(u, x)
    decreases steps
  {
    Cut(e, u, steps, m);
    var (b, evs) := Take(e, u, steps[0]);
    if m < |evs| {
      if steps[0].Seen? {
        ApplyTellsStops(e, u, steps[0].look.after, steps[0].look.snapshot, m);
      }
    } else {
      DelayStays(e, u, steps[0]);
      DownIsReal(b, u, After(i, steps[0]), steps[1..], m - |evs|);
    }
  }

  /** The m-th event of a run is emitted by its first step or by the run that follows it. */
  lemma Cut(e: State, u: Unit, steps: seq<Step>, m: nat)
    requires m < |ProbeGating.Stream(e, u, steps)|
    ensures steps != []
    ensures var (b, evs) := Take(e, u, steps[0]);
      if m < |evs| then ProbeGating.Stream(e, u, steps)[m] == evs[m]
      else m - |evs| < |ProbeGating.Stream(b, u, steps[1..])| && ProbeGating.Stream(e, u, steps)[m] == ProbeGating.Stream(b, u, steps[1..])[m - |evs|]
  {
  }

  // ------------------------------------------------------------------ one UP for each activation

  /** The number of the latest start among the first i transitions, 0 when there is none. */
  function LastStart(u: Unit, i: nat): (k: nat)
    requires i <= |u.history|
    ensures k <= i && (k > 0 ==> u.history[k - 1].state == Up)
    ensures Latest(u, i, Up).0 == if k == 0 then u.enterUs else u.history[k - 1].us
  {
    if i == 0 then 0 else if u.history[i - 1].state == Up then i else LastStart(u, i - 1)
  }

  lemma {:induction false} StartsGrow(u: Unit, i: nat, j: nat)
    requires i <= j <= |u.history|
    ensures LastStart(u, i) <= LastStart(u, j)
    decreases j
  {
    if i < j {
      StartsGrow(u, i, j - 1);
    }
  }

  /** The engine has seen the unit after i transitions; an answer is awaited only for a start it has seen. */
  ghost predicate Watches(e: State, u: Unit, i: nat)
    requires i <= |u.history|
  {
    && u.service in e.delayUp && u.service in e.states
    && var st := e.states[u.service];
       st.bootId == u.bootId && st.lastEnterUs == Latest(u, i, Up).0 && (st.awaiting ==> LastStart(u, i) > 0)
  }

  /** So it is after the first look at a boot. */
  lemma FirstLookWatches(e: State, u: Unit, i: nat, s: Snapshot)
    requires i <= |u.history| && Shows(u, i, s) && u.service in e.delayUp
    requires u.service in e.states ==> e.states[u.service].bootId != u.bootId
    ensures Watches(Engine.Apply(e, s).0, u, i)
  {
  }

  /** What one step did: the latest start before and after it, whether an answer was awaited before and after
      it, and what it emitted. */
  datatype Piece = Piece(start: nat, end: nat, awaited: bool, awaiting: bool, events: seq<Event>)

  function PieceOf(e: State, u: Unit, i: nat, step: Step): Piece
    requires i <= |u.history| && After(i, step) <= |u.history|
  {
    var (b, evs) := Take(e, u, step);
    Piece(LastStart(u, i), LastStart(u, After(i, step)), Lookup(e, u.service).awaiting, Lookup(b, u.service).awaiting, evs)
  }

  function Pieces(e: State, u: Unit, i: nat, steps: seq<Step>): seq<Piece>
    requires i <= |u.history| && Legal(u, i, steps)
    decreases steps
  {
    if steps == [] then []
    else [PieceOf(e, u, i, steps[0])] + Pieces(Take(e, u, steps[0]).0, u, After(i, steps[0]), steps[1..])
  }

  function Emitted(ps: seq<Piece>): seq<Event> {
    if ps == [] then [] else ps[0].events + Emitted(ps[1..])
  }

  /** An UP is emitted alone, for the start an answer was awaited for, and ends the wait; a wait begins with
      a new start. */
  ghost predicate Gated(p: Piece) {
    && p.start <= p.end
    && (p.awaited ==> p.start > 0)
    && (p.awaiting && !p.awaited ==> p.start < p.end)
    && (forall k :: 0 <= k < |p.events| && p.events[k].state == Up ==>
          |p.events| == 1 && p.awaited && p.end == p.start && !p.awaiting)
  }

  ghost predicate GatedRun(k: nat, awaited: bool, ps: seq<Piece>)
    decreases ps
  {
    ps != [] ==>
      && ps[0].start == k && ps[0].awaited == awaited && Gated(ps[0])
      && GatedRun(ps[0].end, ps[0].awaiting, ps[1..])
  }

  lemma LookGated(e: State, u: Unit, i: nat, j: nat, s: Snapshot)
    requires i <= j <= |u.history| && Watches(e, u, i) && Shows(u, j, s)
    ensures var (b, evs) := Engine.Apply(e, s);
      && Watches(b, u, j) && LastStart(u, i) <= LastStart(u, j)
      && (b.states[u.service].awaiting && !e.states[u.service].awaiting ==> LastStart(u, i) < LastStart(u, j))
  {
    var was := e.states[u.service];
    var cs := Candidates(was, s);
    LoopWithholds(Progress(e.counter, was.availability, was.awaiting, []), cs, s, cs);
    StartsGrow(u, i, j);
    if Engine.Apply(e, s).0.states[u.service].awaiting && !was.awaiting {
      var c :| c in cs && c.state == Up;
      CandidateKinds(was, s, c);
    }
  }

  lemma PieceGated(e: State, u: Unit, i: nat, step: Step)
    requires i <= |u.history| && Watches(e, u, i) && Legal(u, i, [step])
    ensures Gated(PieceOf(e, u, i, step)) && Watches(Take(e, u, step).0, u, After(i, step))
    ensures PieceOf(e, u, i, step).awaited == e.states[u.service].awaiting
    ensures PieceOf(e, u, i, step).awaiting == Take(e, u, step).0.states[u.service].awaiting
  {
    if step.Seen? {
      var (b, evs) := Take(e, u, step);
      LookGated(e, u, i, step.look.after, step.look.snapshot);
      forall k | 0 <= k < |evs| ensures evs[k].state != Up {
        ApplyTellsStops(e, u, step.look.after, step.look.snapshot, k);
      }
    }
  }

  lemma {:induction false} PiecesGated(e: State, u: Unit, i: nat, steps: seq<Step>)
    requires i <= |u.history| && Watches(e, u, i) && Legal(u, i, steps)
    ensures GatedRun(LastStart(u, i), e.states[u.service].awaiting, Pieces(e, u, i, steps))
    ensures Emitted(Pieces(e, u, i, steps)) == ProbeGating.Stream(e, u, steps)
    decreases steps
  {
    if steps != [] {
      var p, ps := PieceOf(e, u, i, steps[0]), Pieces(Take(e, u, steps[0]).0, u, After(i, steps[0]), steps[1..]);
      PieceGated(e, u, i, steps[0]);
      PiecesGated(Take(e, u, steps[0]).0, u, After(i, steps[0]), steps[1..]);
      assert Pieces(e, u, i, steps)[1..] == ps && Pieces(e, u, i, steps)[0] == p;
    }
  }

  /** The number of the start the m-th event of a run of pieces answers. */
  ghost predicate Answers(k: nat, ps: seq<Piece>, m: nat, l: nat)
    decreases ps
  {
    ps != [] && (if m < |ps[0].events| then l == ps[0].start else Answers(ps[0].end, ps[1..], m - |ps[0].events|, l))
  }

  lemma {:induction false} UpAnswers(k: nat, awaited: bool, ps: seq<Piece>, m: nat) returns (l: nat)
    requires GatedRun(k, awaited, ps) && m < |Emitted(ps)| && Emitted(ps)[m].state == Up
    ensures Answers(k, ps, m, l) && l > 0 && (if awaited then k <= l else k < l)
    decreases ps
  {
    var evs := ps[0].events;
    if m < |evs| {
      assert Emitted(ps)[m] == evs[m];
      l := k;
    } else {
      l := UpAnswers(ps[0].end, ps[0].awaiting, ps[1..], m - |evs|);
    }
  }

  lemma {:induction false} UpsApart(k: nat, awaited: bool, ps: seq<Piece>, m: nat, n: nat) returns (l: nat, l': nat)
    requires GatedRun(k, awaited, ps) && m < n < |Emitted(ps)|
    requires Emitted(ps)[m].state == Emitted(ps)[n].state == Up
    ensures Answers(k, ps, m, l) && Answers(k, ps, n, l') && 0 < l < l'
    decreases ps
  {
    var evs := ps[0].events;
    if m < |evs| {
      assert Emitted(ps)[m] == evs[m];
      l := k;
      l' := UpAnswers(ps[0].end, ps[0].awaiting, ps[1..], n - |evs|);
    } else {
      l, l' := UpsApart(ps[0].end, ps[0].awaiting, ps[1..], m - |evs|, n - |evs|);
    }
  }

  /** Each activation yields one UP at most, late answers included: the latest starts the engine had seen
      when it emitted two of them differ, and are in order. */
  lemma OneUpPerActivation(e: State, u: Unit, i: nat, steps: seq<Step>, m: nat, n: nat) returns (l: nat, l': nat)
    requires i <= |u.history| && Watches(e, u, i) && Legal(u, i, steps)
    requires m < n < |ProbeGating.Stream(e, u, steps)| && ProbeGating.Stream(e, u, steps)[m].state == ProbeGating.Stream(e, u, steps)[n].state == Up
    ensures Answers(LastStart(u, i), Pieces(e, u, i, steps), m, l) && Answers(LastStart(u, i), Pieces(e, u, i, steps), n, l')
    ensures 0 < l < l'
  {
    PiecesGated(e, u, i, steps);
    l, l' := UpsApart(LastStart(u, i), e.states[u.service].awaiting, Pieces(e, u, i, steps), m, n);
  }

  // ------------------------------------------------------------------ when UP is stamped

  /** x happened while the unit was up after its k-th transition. */
  predicate During(u: Unit, k: nat, x: Event) {
    && 1 <= k <= |u.history| && StateAfter(u, k) == Up
    && Ms(u.history[k - 1].us) <= x.timeMs && (k < |u.history| ==> x.timeMs < Ms(u.history[k].us))
  }

  /** No awaited answer is stamped before the activation the engine has seen. */
  predicate NotEarly(e: State, u: Unit, i: nat, steps: seq<Step>)
    requires i <= |u.history| && Legal(u, i, steps)
    decreases steps
  {
    steps != [] ==>
      && (steps[0].Answer? && Lookup(e, u.service).awaiting && i >= 1 ==> Ms(u.history[i - 1].us) <= steps[0].atMs)
      && NotEarly(Take(e, u, steps[0]).0, u, After(i, steps[0]), steps[1..])
  }

  /** With answers neither early nor late, every UP falls into an activation of the unit. */
  lemma {:induction false} UpIsDuring(e: State, u: Unit, i: nat, steps: seq<Step>, m: nat) returns (k: nat)
    requires Real(u) && i <= |u.history| && Gates(e, u, i) && Legal(u, i, steps)
    requires OnTime(e, u, i, steps) && NotEarly(e, u, i, steps)
    requires m < |ProbeGating.Stream(e, u, steps)| && ProbeGating.Stream(e, u, steps)[m].state == Up
    ensures During(u, k, ProbeGating.Stream(e, u, steps)[m])
    decreases steps
  {
    Cut(e, u, steps, m);
    var (b, evs) := Take(e, u, steps[0]);
    StepAlternates(e, u, i, steps[0]);
    if m < |evs| {
      k := i;
      if steps[0].Seen? {
        ApplyTellsStops(e, u, steps[0].look.after, steps[0].look.snapshot, m);
      } else {
        GatedAnswer(e, u, i, steps[0].atMs, steps[0].source);
      }
    } else {
      k := UpIsDuring(b, u, After(i, steps[0]), steps[1..], m - |evs|);
    }
  }
}
