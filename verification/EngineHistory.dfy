/** What the engine reports of a unit's real history, when it only ever sees snapshots holding the
    latest enter and exit times (internal/engine/engine.go, Apply). */
module EngineHistory {
  import opened Types
  import opened Sorting
  import opened Engine

  /** One real transition of the unit. */
  datatype Transition = Transition(state: Availability, us: nat, monoUs: nat)

  /** A unit during one boot: how it stood before the history, and then the history. */
  datatype Unit = Unit(service: string, bootId: string, state: Availability,
                       enterUs: nat, enterMonoUs: nat, exitUs: nat, exitMonoUs: nat, history: seq<Transition>)

  /** Enters and exits alternate, each in a later millisecond than the one before. */
  ghost predicate Real(u: Unit) {
    && u.state != Unknown
    && (forall i :: 0 <= i < |u.history| ==> u.history[i].state != Unknown)
    && (forall i :: 0 <= i < |u.history| ==> Flips(u, i))
    && (forall i, j :: 0 <= i < j < |u.history| ==> Ms(u.history[i].us) < Ms(u.history[j].us))
    && (forall i :: 0 <= i < |u.history| ==> u.enterUs < u.history[i].us && u.exitUs < u.history[i].us)
  }

  /** The unit's state after the first i transitions. */
  function StateAfter(u: Unit, i: nat): Availability
    requires i <= |u.history|
  {
    if i == 0 then u.state else u.history[i - 1].state
  }

  /** Transition i leaves the state the unit was in. */
  predicate Flips(u: Unit, i: nat)
    requires i < |u.history|
  {
    StateAfter(u, i) != u.history[i].state
  }

  /** The latest transition into a state among the first i, as systemd remembers it. */
  function Latest(u: Unit, i: nat, state: Availability): (nat, nat)
    requires i <= |u.history|
  {
    if i == 0 then (if state == Up then (u.enterUs, u.enterMonoUs) else (u.exitUs, u.exitMonoUs))
    else if u.history[i - 1].state == state then (u.history[i - 1].us, u.history[i - 1].monoUs)
    else Latest(u, i - 1, state)
  }

  /** s is what systemd reports once the first i transitions have happened. */
  predicate Shows(u: Unit, i: nat, s: Snapshot)
    requires i <= |u.history|
  {
    && s.service == u.service && s.bootId == u.bootId
    && (s.enterUs, s.enterMonoUs) == Latest(u, i, Up)
    && (s.exitUs, s.exitMonoUs) == Latest(u, i, Down)
  }

  /** The engine has seen the unit after i transitions, and no event of it is as late as the next. */
  ghost predicate Knows(e: State, u: Unit, i: nat)
    requires i <= |u.history|
  {
    && u.service in e.states
    && var st := e.states[u.service];
       && st.bootId == u.bootId
       && st.lastEnterUs == Latest(u, i, Up).0 && st.lastExitUs == Latest(u, i, Down).0
       && forall k :: i <= k < |u.history| ==> st.lastEventMs < Ms(u.history[k].us)
  }

  /** The events for the transitions from i up to j, numbered from counter + 1. */
  function Report(u: Unit, i: nat, j: nat, s: Snapshot, counter: nat): seq<Event>
    requires i <= j <= |u.history|
  {
    seq(j - i, k requires 0 <= k < j - i =>
      var t := u.history[i + k];
      Event(counter + 1 + k, s.service, t.state, Ms(t.us), t.monoUs, s.bootId, Systemd, s.activeState, s.subState))
  }

  // ------------------------------------------------------------------ what systemd remembers

  lemma LatestLastTwo(u: Unit, i: nat)
    requires Real(u) && i <= |u.history|
    ensures i >= 1 ==> Latest(u, i, u.history[i - 1].state) == (u.history[i - 1].us, u.history[i - 1].monoUs)
    ensures i >= 2 ==> Latest(u, i, u.history[i - 2].state) == (u.history[i - 2].us, u.history[i - 2].monoUs)
    ensures i >= 2 ==> u.history[i - 1].state != u.history[i - 2].state
  {
    if i >= 2 {
      assert Flips(u, i - 1);
    }
  }

  lemma EarlierMs(a: nat, b: nat)
    requires Ms(a) < Ms(b)
    ensures a < b
  {
  }

  /** Before a transition happens nothing remembered is as late. */
  lemma {:induction false} LatestIsEarlier(u: Unit, i: nat, state: Availability, k: nat)
    requires Real(u) && i <= k < |u.history|
    ensures Latest(u, i, state).0 < u.history[k].us
  {
    if i == 0 {
      assert u.enterUs < u.history[k].us && u.exitUs < u.history[k].us;
    } else if u.history[i - 1].state == state {
      EarlierMs(u.history[i - 1].us, u.history[k].us);
    } else {
      LatestIsEarlier(u, i - 1, state, k);
    }
  }

  function ToCandidate(t: Transition): Candidate { Candidate(t.state, t.us, t.monoUs) }

  /** The transitions a snapshot after j reports to an engine that saw the unit after i start here: they
      are the last two at most. */
  function From(i: nat, j: nat): nat
    requires i <= j
  {
    Max(i, j - 2)
  }

  function Fresh(u: Unit, i: nat, j: nat): seq<Candidate>
    requires i <= j <= |u.history|
  {
    seq(j - From(i, j), k requires 0 <= k < j - From(i, j) => ToCandidate(u.history[From(i, j) + k]))
  }

  lemma FreshIs(u: Unit, i: nat, j: nat)
    requires i <= j <= |u.history|
    ensures i == j ==> Fresh(u, i, j) == []
    ensures i + 1 == j ==> Fresh(u, i, j) == [ToCandidate(u.history[j - 1])]
    ensures i + 2 <= j ==> Fresh(u, i, j) == [ToCandidate(u.history[j - 2]), ToCandidate(u.history[j - 1])]
  {
  }

  lemma NothingNew(e: State, u: Unit, i: nat, s: Snapshot)
    requires i <= |u.history| && Knows(e, u, i) && Shows(u, i, s)
    ensures Candidates(e.states[u.service], s) == []
  {
  }

  lemma OneNew(e: State, u: Unit, i: nat, s: Snapshot)
    requires Real(u) && i < |u.history| && Knows(e, u, i) && Shows(u, i + 1, s)
    ensures Candidates(e.states[u.service], s) == [ToCandidate(u.history[i])]
  {
    var was, c := e.states[u.service], ToCandidate(u.history[i]);
    LatestIsEarlier(u, i, c.state, i);
    OtherUnchanged(u, i);
    if c.state == Down {
      assert Found(was, s) == [c] + [];
    } else {
      assert Found(was, s) == [] + [c];
    }
    assert [c] + [] == [] + [c] == [c];
    SortOfSorted(ByTime, [c]);
  }

  lemma TwoNew(e: State, u: Unit, i: nat, j: nat, s: Snapshot)
    requires Real(u) && i + 2 <= j <= |u.history| && Knows(e, u, i) && Shows(u, j, s)
    ensures Candidates(e.states[u.service], s) == [ToCandidate(u.history[j - 2]), ToCandidate(u.history[j - 1])]
  {
    var was, a, b := e.states[u.service], ToCandidate(u.history[j - 2]), ToCandidate(u.history[j - 1]);
    LatestLastTwo(u, j);
    LatestIsEarlier(u, i, a.state, j - 2);
    LatestIsEarlier(u, i, b.state, j - 1);
    EarlierMs(a.us, b.us);
    if a.state == Down {
      assert Found(was, s) == [a] + [b];
    } else {
      assert Found(was, s) == [b] + [a];
    }
    SortTwo(a, b);
  }

  lemma OtherUnchanged(u: Unit, i: nat)
    requires Real(u) && i < |u.history|
    ensures forall state :: state != u.history[i].state ==> Latest(u, i + 1, state) == Latest(u, i, state)
  {
  }

  lemma SortTwo(a: Candidate, b: Candidate)
    requires a.us < b.us
    ensures Sort(ByTime, [a] + [b]) == [a, b] && Sort(ByTime, [b] + [a]) == [a, b]
  {
    assert ([a] + [b])[..1] == [a] && ([b] + [a])[..1] == [b] && [a][..0] == [] && [b][..0] == [];
    assert Sort(ByTime, [a]) == [a] && Sort(ByTime, [b]) == [b];
    assert Insert(ByTime, [b], a) == [a] + [b] && Insert(ByTime, [a], b) == [a] + [b];
  }

  // ------------------------------------------------------------------ one snapshot

  /** Candidates as events, numbered from counter + 1. */
  function EventsOf(cs: seq<Candidate>, s: Snapshot, counter: nat): seq<Event> {
    seq(|cs|, k requires 0 <= k < |cs| => ToEvent(cs[k], s, counter + 1 + k))
  }

  lemma {:induction false} UndelayedEmitsAll(p: Progress, cs: seq<Candidate>, s: Snapshot)
    requires !p.pending
    ensures var q := ConsiderAll(p, cs, false, s);
      && !q.pending && q.counter == p.counter + |cs|
      && q.events == p.events + EventsOf(cs, s, p.counter)
    decreases cs
  {
    if cs != [] {
      var q := Consider(p, cs[0], false, s);
      UndelayedEmitsAll(q, cs[1..], s);
      var rest, all := EventsOf(cs[1..], s, q.counter), EventsOf(cs, s, p.counter);
      assert all == [ToEvent(cs[0], s, p.counter + 1)] + rest;
      assert p.events + [ToEvent(cs[0], s, p.counter + 1)] + rest == p.events + all;
    }
  }

  lemma CandidatesAre(e: State, u: Unit, i: nat, j: nat, s: Snapshot)
    requires Real(u) && i <= j <= |u.history| && Knows(e, u, i) && Shows(u, j, s)
    ensures Candidates(e.states[u.service], s) == Fresh(u, i, j)
  {
    FreshIs(u, i, j);
    if i == j {
      NothingNew(e, u, i, s);
    } else if i + 1 == j {
      OneNew(e, u, i, s);
    } else {
      TwoNew(e, u, i, j, s);
    }
  }

  lemma ReportIs(u: Unit, i: nat, j: nat, s: Snapshot, counter: nat)
    requires i <= j <= |u.history|
    ensures [] + EventsOf(Fresh(u, i, j), s, counter) == Report(u, From(i, j), j, s, counter)
  {
    var cs := Fresh(u, i, j);
    var a, b := EventsOf(cs, s, counter), Report(u, From(i, j), j, s, counter);
    forall k | 0 <= k < |cs| ensures a[k] == b[k] {
      var t := u.history[From(i, j) + k];
      assert cs[k] == ToCandidate(t);
      assert a[k] == ToEvent(ToCandidate(t), s, counter + 1 + k);
    }
  }

  /** A snapshot of an unprobed unit emits exactly the last two transitions since the previous
      snapshot, or the last one if there was only one. */
  lemma ApplyReports(e: State, u: Unit, i: nat, j: nat, s: Snapshot)
    requires Real(u) && i <= j <= |u.history| && Knows(e, u, i) && Shows(u, j, s)
    requires u.service !in e.delayUp && !e.states[u.service].awaiting
    ensures var (b, evs) := Apply(e, s);
      && evs == Report(u, From(i, j), j, s, e.counter)
      && Knows(b, u, j) && !b.states[u.service].awaiting && b.delayUp == e.delayUp
      && b.counter == e.counter + |evs|
  {
    var was, cs := e.states[u.service], Fresh(u, i, j);
    CandidatesAre(e, u, i, j, s);
    UndelayedEmitsAll(Progress(e.counter, was.availability, was.awaiting, []), cs, s);
    ReportIs(u, i, j, s, e.counter);
    AccountLast(u, i, j, s, Seen(was, s, Observed(s.activeState), false), e.counter);
  }

  lemma AccountLast(u: Unit, i: nat, j: nat, s: Snapshot, st: ServiceState, counter: nat)
    requires Real(u) && i <= j <= |u.history|
    requires forall k :: i <= k < |u.history| ==> st.lastEventMs < Ms(u.history[k].us)
    ensures var acc := Account(st, Report(u, From(i, j), j, s, counter));
      && acc == st.(lastEventMs := acc.lastEventMs, lastEventMonoUs := acc.lastEventMonoUs, lastSequence := acc.lastSequence)
      && forall k :: j <= k < |u.history| ==> acc.lastEventMs < Ms(u.history[k].us)
  {
  }

  // ------------------------------------------------------------------ every run of snapshots

  /** A snapshot and how much history had happened when it was taken. */
  datatype Look = Look(after: nat, snapshot: Snapshot)

  /** Looks taken one after the other, the first when i transitions had happened at least. */
  predicate Taken(u: Unit, i: nat, looks: seq<Look>)
    decreases looks
  {
    looks != [] ==>
      && i <= looks[0].after <= |u.history| && Shows(u, looks[0].after, looks[0].snapshot)
      && Taken(u, looks[0].after, looks[1..])
  }

  function Stream(e: State, looks: seq<Look>): seq<Event>
    decreases looks
  {
    if looks == [] then []
    else var (b, evs) := Apply(e, looks[0].snapshot); evs + Stream(b, looks[1..])
  }

  /** The transitions reported by a run of looks, the unit known after i transitions. */
  function Reported(u: Unit, i: nat, looks: seq<Look>): seq<Transition>
    requires i <= |u.history| && Taken(u, i, looks)
    decreases looks
  {
    if looks == [] then []
    else
      var j := looks[0].after;
      u.history[From(i, j)..j] + Reported(u, j, looks[1..])
  }

  /** evs tells exactly the transitions ts of the unit, numbered from counter + 1. */
  ghost predicate Tells(u: Unit, evs: seq<Event>, ts: seq<Transition>, counter: nat) {
    && |evs| == |ts|
    && forall k :: 0 <= k < |evs| ==>
         && evs[k].sequence == counter + 1 + k && evs[k].service == u.service && evs[k].bootId == u.bootId
         && evs[k].state == ts[k].state && evs[k].timeMs == Ms(ts[k].us) && evs[k].monoUs == ts[k].monoUs
         && evs[k].source == Systemd
  }

  lemma TellsReport(u: Unit, f: nat, j: nat, s: Snapshot, counter: nat)
    requires f <= j <= |u.history| && s.service == u.service && s.bootId == u.bootId
    ensures Tells(u, Report(u, f, j, s, counter), u.history[f..j], counter)
  {
  }

  lemma TellsConcat(u: Unit, a: seq<Event>, ts: seq<Transition>, b: seq<Event>, rs: seq<Transition>, counter: nat)
    requires Tells(u, a, ts, counter) && Tells(u, b, rs, counter + |a|)
    ensures Tells(u, a + b, ts + rs, counter)
  {
  }

  /** Whatever the snapshots, the stream tells exactly the transitions that are the last two before
      some snapshot and not before the snapshot preceding it. */
  lemma {:induction false} StreamTells(e: State, u: Unit, i: nat, looks: seq<Look>)
    requires Real(u) && i <= |u.history| && Taken(u, i, looks)
    requires Knows(e, u, i) && u.service !in e.delayUp && !e.states[u.service].awaiting
    ensures Tells(u, Stream(e, looks), Reported(u, i, looks), e.counter)
    decreases looks
  {
    if looks != [] {
      var j, s := looks[0].after, looks[0].snapshot;
      ApplyReports(e, u, i, j, s);
      var (b, evs) := Apply(e, s);
      StreamTells(b, u, j, looks[1..]);
      TellsReport(u, From(i, j), j, s, e.counter);
      TellsConcat(u, evs, u.history[From(i, j)..j], Stream(b, looks[1..]), Reported(u, j, looks[1..]), e.counter);
    }
  }

  /** How much history the last look has seen. */
  function End(i: nat, looks: seq<Look>): nat { if looks == [] then i else looks[|looks| - 1].after }

  lemma {:induction false} EndIsLater(u: Unit, i: nat, looks: seq<Look>)
    requires i <= |u.history| && Taken(u, i, looks)
    ensures i <= End(i, looks) <= |u.history|
    ensures looks != [] ==> End(looks[0].after, looks[1..]) == End(i, looks)
    decreases looks
  {
    if looks != [] {
      EndIsLater(u, looks[0].after, looks[1..]);
    }
  }

  lemma {:induction false} ReportedPositions(u: Unit, i: nat, looks: seq<Look>) returns (at: seq<nat>)
    requires i <= |u.history| && Taken(u, i, looks)
    ensures var r := Reported(u, i, looks);
      && |at| == |r| && (forall k :: 0 <= k < |at| ==> i <= at[k] < End(i, looks) <= |u.history| && u.history[at[k]] == r[k])
      && (forall k, m :: 0 <= k < m < |at| ==> at[k] < at[m])
    decreases looks
  {
    EndIsLater(u, i, looks);
    if looks == [] {
      at := [];
    } else {
      var j := looks[0].after;
      var rest := ReportedPositions(u, j, looks[1..]);
      EndIsLater(u, j, looks[1..]);
      var f := From(i, j);
      at := seq(j - f, k requires 0 <= k < j - f => f + k) + rest;
    }
  }

  /** At most two transitions between consecutive looks. */
  predicate Close(i: nat, looks: seq<Look>)
    decreases looks
  {
    looks != [] ==> looks[0].after - i <= 2 && Close(looks[0].after, looks[1..])
  }

  lemma {:induction false} ReportedComplete(u: Unit, i: nat, looks: seq<Look>)
    requires i <= |u.history| && Taken(u, i, looks)
    ensures i <= End(i, looks) <= |u.history|
    ensures Close(i, looks) ==> Reported(u, i, looks) == u.history[i..End(i, looks)]
    ensures !Close(i, looks) ==> |Reported(u, i, looks)| < End(i, looks) - i
    ensures |Reported(u, i, looks)| <= End(i, looks) - i
    decreases looks
  {
    EndIsLater(u, i, looks);
    if looks != [] {
      var j := looks[0].after;
      ReportedComplete(u, j, looks[1..]);
      if Close(i, looks) {
        assert u.history[i..j] + u.history[j..End(i, looks)] == u.history[i..End(i, looks)];
      }
    }
  }

  /** The engine follows an unprobed unit. */
  ghost predicate Follows(e: State, u: Unit, i: nat, looks: seq<Look>) {
    && Real(u) && i <= |u.history| && Taken(u, i, looks)
    && Knows(e, u, i) && u.service !in e.delayUp && !e.states[u.service].awaiting
  }

  /** Nothing is invented, repeated or moved: the k-th event the engine emits tells transition at[k] of the
      real history, and at strictly increases. */
  lemma StreamIsSubsequence(e: State, u: Unit, i: nat, looks: seq<Look>) returns (at: seq<nat>)
    requires Follows(e, u, i, looks)
    ensures |at| == |Stream(e, looks)| && (forall k, m :: 0 <= k < m < |at| ==> at[k] < at[m])
    ensures forall k :: 0 <= k < |at| ==> i <= at[k] < |u.history|
    ensures Tells(u, Stream(e, looks), seq(|at|, k requires 0 <= k < |at| && at[k] < |u.history| => u.history[at[k]]), e.counter)
  {
    StreamTells(e, u, i, looks);
    at := ReportedPositions(u, i, looks);
    assert Reported(u, i, looks) == seq(|at|, k requires 0 <= k < |at| && at[k] < |u.history| => u.history[at[k]]);
  }

  /** The engine emits the whole history from the first look to the last if and only if no two consecutive
      looks are more than two transitions apart. */
  lemma CompleteIff(e: State, u: Unit, i: nat, looks: seq<Look>)
    requires Follows(e, u, i, looks)
    ensures i <= End(i, looks) <= |u.history|
    ensures Tells(u, Stream(e, looks), u.history[i..End(i, looks)], e.counter) <==> Close(i, looks)
  {
    StreamTells(e, u, i, looks);
    ReportedComplete(u, i, looks);
  }

  /** The first look at a boot emits nothing and lets the engine know the unit. */
  lemma FirstLook(e: State, u: Unit, i: nat, s: Snapshot)
    requires Real(u) && i <= |u.history| && Shows(u, i, s)
    requires u.service in e.states ==> e.states[u.service].bootId != u.bootId
    requires forall k :: i <= k < |u.history| ==> Lookup(e, u.service).lastEventMs < Ms(u.history[k].us)
    ensures var (b, evs) := Apply(e, s);
      evs == [] && Knows(b, u, i) && !b.states[u.service].awaiting && b.delayUp == e.delayUp && b.counter == e.counter
  {
  }
}
