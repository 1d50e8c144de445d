/** What a worker does with transitions, jobs and samples, read off how its requests end, in one step and
    over whole runs (internal/delivery/worker.go). */
module DeliveryAnswers {
  import opened Types
  import opened Sorting
  import opened Backlog
  import opened Delivery
  import opened DeliveryRuns

  // ------------------------------------------------------------------ single steps

  /** A request that ends like this needs no other one: accepted, or rejected for good with the worker
      not being stopped. */
  predicate Final(out: Outcome) { out.Acked? || (out.permanent && !out.cancelled) }

  /** Nothing but the transitions of the batch differs. */
  predicate SameBut(w: State, a: State) {
    && a.recovery == w.recovery && a.queue == w.queue && a.states == w.states && a.published == w.published
    && a.log == w.log.(settled := a.log.settled)
  }

  /** A flush took w to a: with a batch it made one request, and the batch is settled exactly when that was
      final; otherwise it is kept. */
  predicate FlushedBy(env: Env, w: State, a: State, ok: bool) {
    && SameBut(w, a)
    && ok == (w.batch == [] || Final(env.outcome(w.clock)))
    && a.clock == w.clock + (if w.batch == [] then 0 else 1)
    && a.batch == (if ok then [] else w.batch)
    && a.log.settled == w.log.settled + (if ok then w.batch else [])
  }

  lemma FlushAnswered(env: Env, w: State) returns (a: State, ok: bool)
    ensures (a, ok) == Flushed(env, w) && FlushedBy(env, w, a, ok)
  {
    a, ok := Flushed(env, w).0, Flushed(env, w).1;
    assert w.log.settled + [] == w.log.settled;
  }

  /** A job is settled exactly when the batch before it is, its fill is accepted or rejected for good, and
      its events are settled; up to then it stays as it is. */
  lemma RecoveryAnswered(env: Env, w: State)
    requires w.recovery.Some?
    ensures var a := RecoverySent(env, w);
      var n := w.clock + if w.batch == [] then 0 else 1;
      var flushed := w.batch == [] || Final(env.outcome(w.clock));
      var filled := flushed && (env.outcome(n).Refused? ==> env.outcome(n).permanent);
      var done := filled && Final(env.outcome(n + 1));
      && a.recovery == (if done then None else w.recovery)
      && a.log.settledJobs == (if done then Joined(w.log.settledJobs, w.recovery.value) else w.log.settledJobs)
      && a.batch == (if flushed then [] else w.batch)
      && a.log.settled == w.log.settled + (if flushed then w.batch else [])
      && a.clock == (if !flushed then n else if !filled then n + 1 else n + 2)
      && a.queue == w.queue && SameSamples(w, a)
  {
    var a, ok := FlushAnswered(env, w);
  }

  /** Commands join the queue in order, as many as bring it to 100000. */
  lemma ArriveTakes(w: State, cmds: seq<Command>)
    ensures var a := Arrive(w, cmds);
      && w.queue <= a.queue <= w.queue + cmds && w.log.enqueued <= a.log.enqueued <= w.log.enqueued + cmds
      && |a.queue| == Max(|w.queue|, Min(|w.queue| + |cmds|, 100000))
      && |a.log.enqueued| - |w.log.enqueued| == |a.queue| - |w.queue|
      && a == w.(queue := a.queue, log := w.log.(enqueued := a.log.enqueued))
  {
  }

  /** A worker starts with the transitions and the fill that startup could not send, and has sent nothing. */
  lemma StartsWith(env: Env, batch: seq<Event>, fill: seq<Sample>, now: int)
    ensures var w := Started(env, batch, fill, now);
      && w.batch == w.log.initial == batch && w.queue == [] && w.recovery == None && w.published == map[] && w.clock == 0
      && w.states == Pruned(env.zone, env.window, now, fill) && w.log.recorded == fill
      && w.log.enqueued == [] && w.log.settled == [] && w.log.requests == []
  {
    PrunedHolds(env.zone, env.window, now, fill);
    assert [] + fill == fill;
  }

  /** Exactly the samples newer than what was accepted for their service. */
  ghost predicate AreNewer(published: map<string, int>, states: seq<Sample>, samples: seq<Sample>) {
    && samples == DropStale(published, states)
    && forall x :: x in samples <==> x in states && (x.service in published ==> x.timestampMs > published[x.service])
  }

  /** What the end of the request makes of the backlog. */
  predicate AnsweredBy(w: State, a: State, ok: bool, samples: seq<Sample>, out: Outcome) {
    if out.Acked? then ok && a.states == [] && a.published == NoteSamples(w.published, samples)
    else if out.permanent then ok && a.states == [] && a.published == w.published
    else !ok && a.states == w.states && a.published == w.published
  }

  /** One more request was made, for these samples, and it ended with out. */
  predicate OneMoreRequest(w: State, a: State, samples: seq<Sample>, out: Outcome) {
    var n := |w.log.requests|;
    && |a.log.requests| == n + 1 && a.log.requests[..n] == w.log.requests
    && a.log.requests[n].samples == samples && a.log.requests[n].outcome == out
  }

  /** A delivery of the backlog took w to a, once it was free to go out. */
  ghost predicate SentBy(env: Env, w: State, a: State, ok: bool) {
    var n := w.clock + if w.batch == [] then 0 else 1;
    var flushed := w.batch == [] || Final(env.outcome(w.clock));
    var newer := DropStale(w.published, w.states);
    && a.batch == (if flushed then [] else w.batch)
    && a.log.settled == w.log.settled + (if flushed then w.batch else [])
    && if !flushed || newer == [] then
         && ok == flushed && a.log.requests == w.log.requests && a.clock == n && a.published == w.published
         && a.states == (if flushed then [] else w.states)
       else OneMoreRequest(w, a, newer, env.outcome(n)) && a.clock == n + 1 && AnsweredBy(w, a, ok, newer, env.outcome(n))
  }

  ghost predicate DeliveredBy(env: Env, w: State, arrivals: seq<Command>, a: State, ok: bool) {
    if w.states == [] then a == w && ok
    else if w.recovery.Some? || w.queue != [] then a == w && !ok
    else
      && a.recovery == None && a.queue == Arrive(w, arrivals).queue && a.log.settledJobs == w.log.settledJobs
      && SentBy(env, w, a, ok)
  }

  lemma RequestAnswered(env: Env, w: State, enqueued: seq<Command>, samples: seq<Sample>)
    ensures var (a, ok) := StatesSent(env, w, enqueued, samples);
      && OneMoreRequest(w, a, samples, env.outcome(w.clock)) && AnsweredBy(w, a, ok, samples, env.outcome(w.clock))
      && a == w.(states := a.states, published := a.published, clock := w.clock + 1, log := w.log.(requests := a.log.requests))
  {
  }

  /** With no job, an empty queue and a batch that is settled, the newer samples go out in one request: on
      success they are noted and the backlog is empty, a permanent rejection empties it too, any other end
      keeps it. With nothing newer the backlog is emptied without a request. */
  lemma DeliverAnswered(env: Env, w: State, arrivals: seq<Command>) returns (a: State, ok: bool)
    ensures (a, ok) == StatesDelivered(env, w, arrivals) && DeliveredBy(env, w, arrivals, a, ok)
    ensures AreNewer(w.published, w.states, DropStale(w.published, w.states))
  {
    FilterMembers(Newer(w.published), w.states);
    if w.states == [] || w.recovery.Some? || w.queue != [] {
      a, ok := w, w.states == [];
    } else {
      var b, flushed := FlushAnswered(env, Arrive(w, arrivals));
      var newer := DropStale(w.published, w.states);
      if !flushed || newer == [] {
        a, ok := if flushed then b.(states := []) else b, flushed;
      } else {
        RequestAnswered(env, b, w.log.enqueued, newer);
        a, ok := StatesSent(env, b, w.log.enqueued, newer).0, StatesSent(env, b, w.log.enqueued, newer).1;
      }
    }
  }

  /** Samples are recorded exactly when there are any, no job is pending and the queue is empty; the
      backlog, pruned to the slot, is then delivered. */
  lemma PublishAnswered(env: Env, w: State, samples: seq<Sample>, now: int, arrivals: seq<Command>)
      returns (mid: State, a: State, ok: bool, sent: bool)
    ensures (a, ok) == SamplesPublished(env, w, samples, now, arrivals)
    ensures ok == (samples != [] && w.recovery.None? && w.queue == [])
    ensures ok ==> mid.states == Pruned(env.zone, env.window, now, w.states + samples) && DeliveredBy(env, mid, arrivals, a, sent)
    ensures ok ==> mid == w.(states := mid.states, log := mid.log) && mid.log.requests == w.log.requests
    ensures !ok ==> a == w
  {
    mid := StatesRecorded(env, w, samples, now).0;
    var b;
    b, sent := DeliverAnswered(env, mid, arrivals);
    a, ok := SamplesPublished(env, w, samples, now, arrivals).0, SamplesPublished(env, w, samples, now, arrivals).1;
  }

  /** A command is taken from the front of the queue; a transition that fills the batch has it flushed. */
  lemma ReceiveAnswered(env: Env, w: State) returns (mid: State)
    ensures var a := Received(env, w);
      if w.queue == [] then a == w
      else if w.queue[0].Recover? then
        && a == w.(queue := w.queue[1..], recovery := a.recovery, log := a.log)
        && a.recovery == Some(Joined(Pending(w), w.queue[0].job))
      else
        && mid.queue == w.queue[1..] && mid.batch == w.batch + [w.queue[0].event]
        && mid.recovery == w.recovery && mid.clock == w.clock && SameSamples(w, mid) && mid.log.settled == w.log.settled
        && if |mid.batch| < env.batchSize then a == mid else exists ok :: FlushedBy(env, mid, a, ok)
  {
    mid := w;
    if w.queue != [] {
      mid := Moved(w);
      if w.queue[0].Recover? {
        JoinedNothing(w.queue[0].job, Nothing(), Nothing());
      } else {
        var a, ok := FlushAnswered(env, mid);
        assert |mid.batch| >= env.batchSize ==> Received(env, w) == a;
      }
    }
  }

  // ------------------------------------------------------------------ every run

  ghost predicate Answered(env: Env, from: nat, to: nat) { exists n :: from <= n < to && Final(env.outcome(n)) }

  /** From w to a nothing was settled without a final answer in between. */
  ghost predicate SettledByAnswer(env: Env, w: State, a: State) {
    && w.clock <= a.clock
    && (a.log.settled != w.log.settled || a.log.settledJobs != w.log.settledJobs ==> Answered(env, w.clock, a.clock))
  }

  lemma StepSettles(env: Env, w: State, step: Step)
    ensures SettledByAnswer(env, w, Take(env, w, step))
  {
    match step
    case Arrivals(cmds) =>
    case ReceiveOne =>
      if w.queue != [] {
        FlushSettles(env, Moved(w));
      }
    case FlushTick => FlushSettles(env, w);
    case RetryRecovery =>
      if w.recovery.Some? {
        FlushSettles(env, w);
        RecoveryAnswered(env, w);
        RecoverySettles(env, w);
      }
    case PublishSamples(samples, now, arrivals) =>
      var mid := StatesRecorded(env, w, samples, now).0;
      FlushSettles(env, Arrive(mid, arrivals));
  }

  lemma FlushSettles(env: Env, w: State)
    ensures SettledByAnswer(env, w, Flushed(env, w).0)
  {
    var a, ok := FlushAnswered(env, w);
    if ok && w.batch != [] {
      assert Final(env.outcome(w.clock));
    }
  }

  lemma RecoverySettles(env: Env, w: State)
    requires w.recovery.Some?
    ensures SettledByAnswer(env, w, RecoverySent(env, w))
  {
    var a := RecoverySent(env, w);
    RecoveryAnswered(env, w);
    if a.log.settledJobs != w.log.settledJobs {
      assert Final(env.outcome(a.clock - 1));
    } else if a.log.settled != w.log.settled {
      assert w.log.settled + [] == w.log.settled;
      assert Final(env.outcome(w.clock));
    }
  }

  /** In every run, transitions and jobs are settled only by a request that was accepted or rejected for
      good. */
  lemma {:induction false} RunSettles(env: Env, w: State, steps: seq<Step>)
    ensures SettledByAnswer(env, w, Run(env, w, steps))
    decreases steps
  {
    if steps != [] {
      var a := Take(env, w, steps[0]);
      StepSettles(env, w, steps[0]);
      RunSettles(env, a, steps[1..]);
    }
  }

  /** A flushed worker with no job and an empty queue has settled everything enqueued. */
  lemma IdleIsSettled(w: State)
    requires Conserved(w) && w.queue == [] && w.recovery == None && w.batch == []
    ensures w.log.settled == w.log.initial + EventsOf(w.log.enqueued) && w.log.settledJobs == JobsOf(w.log.enqueued)
  {
    assert w.log.taken + [] == w.log.taken && w.log.settled + [] == w.log.settled;
    JoinedNothing(w.log.settledJobs, Nothing(), Nothing());
  }

  /** An accepted request covers the whole backlog, what was stale included. */
  lemma AcceptedCovers(published: map<string, int>, states: seq<Sample>, x: Sample)
    requires x in states
    ensures Covers(NoteSamples(published, DropStale(published, states)), x)
  {
    var newer := DropStale(published, states);
    FilterMembers(Newer(published), states);
    NotedCovers(published, newer);
    if Newer(published)(x) {
      assert x in newer;
    }
  }

  /** A heartbeat of an idle worker whose receiver accepts. */
  lemma IdlePublish(env: Env, w: State, samples: seq<Sample>, now: int)
    requires w.queue == [] && w.recovery == None && w.batch == [] && samples != [] && env.outcome(w.clock).Acked?
    ensures var a := Take(env, w, PublishSamples(samples, now, []));
      && a.batch == [] && a.recovery == None && a.queue == [] && a.states == []
      && a.log.settled == w.log.settled && a.log.settledJobs == w.log.settledJobs
      && forall x :: x in Pruned(env.zone, env.window, now, w.states + samples) ==> Covers(a.published, x)
  {
    var mid, a, ok, sent := PublishAnswered(env, w, samples, now, []);
    assert mid.log.settled + [] == mid.log.settled;
    forall x | x in mid.states ensures Covers(a.published, x) {
      AcceptedCovers(mid.published, mid.states, x);
      if DropStale(mid.published, mid.states) == [] {
        assert NoteSamples(mid.published, []) == mid.published;
      }
    }
  }

  lemma ThreeSteps(env: Env, w: State, x: Step, y: Step, z: Step)
    ensures Run(env, w, [x, y, z]) == Take(env, Take(env, Take(env, w, x), y), z)
  {
    var a := Take(env, w, x);
    var b := Take(env, a, y);
    var c := Take(env, b, z);
    assert [x, y, z][1..] == [y, z] && [y, z][1..] == [z] && [z][1..] == [];
    assert Run(env, b, [z]) == Run(env, c, []) == c;
    assert Run(env, a, [y, z]) == Run(env, b, [z]);
  }

  /** After an outage of any length one flush, one retry of the job and one heartbeat bring the receiver up
      to date: everything enqueued is settled, every sample of the slot is covered, and nothing waits. */
  lemma CatchesUp(env: Env, w: State, samples: seq<Sample>, now: int)
    requires Conserved(w) && w.queue == [] && samples != []
    requires forall n :: n >= w.clock ==> env.outcome(n).Acked?
    ensures var a := Run(env, w, [FlushTick, RetryRecovery, PublishSamples(samples, now, [])]);
      && a.batch == [] && a.recovery == None && a.queue == [] && a.states == []
      && a.log.settled == w.log.initial + EventsOf(w.log.enqueued) && a.log.settledJobs == JobsOf(w.log.enqueued)
      && forall x :: x in Pruned(env.zone, env.window, now, w.states + samples) ==> Covers(a.published, x)
  {
    ThreeSteps(env, w, FlushTick, RetryRecovery, PublishSamples(samples, now, []));
    var b, _ := FlushAnswered(env, w);
    FlushedKeeps(env, w);
    var c := Take(env, b, RetryRecovery);
    if b.recovery.Some? {
      RecoveryAnswered(env, b);
      RecoverySentKeeps(env, b);
      assert c.log.enqueued == b.log.enqueued;
    }
    IdleIsSettled(c);
    IdlePublish(env, c, samples, now);
  }
}
