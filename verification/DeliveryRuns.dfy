/** What holds in every run of a worker: samples never overtake transitions, repeat or go back in
    time, leave the current slot or get lost (internal/delivery/worker.go). */
module DeliveryRuns {
  import opened Types
  import opened Sorting
  import opened Backlog
  import opened Delivery

  // ------------------------------------------------------------------ runs

  datatype Step =
    | Arrivals(cmds: seq<Command>)
    | ReceiveOne
    | FlushTick
    | RetryRecovery
    | PublishSamples(samples: seq<Sample>, now: int, arrivals: seq<Command>)

  function Take(env: Env, w: State, step: Step): State {
    match step
    case Arrivals(cmds) => Arrive(w, cmds)
    case ReceiveOne => Received(env, w)
    case FlushTick => Flushed(env, w).0
    case RetryRecovery => if w.recovery.Some? then RecoverySent(env, w) else w
    case PublishSamples(samples, now, arrivals) => SamplesPublished(env, w, samples, now, arrivals).0
  }

  function Run(env: Env, w: State, steps: seq<Step>): State
    decreases steps
  {
    if steps == [] then w else Run(env, Take(env, w, steps[0]), steps[1..])
  }

  // ------------------------------------------------------------------ transitions and jobs are conserved

  function EventsOf(cmds: seq<Command>): seq<Event> {
    if cmds == [] then []
    else
      var cmd := cmds[|cmds| - 1];
      EventsOf(cmds[..|cmds| - 1]) + if cmd.Transition? then [cmd.event] else []
  }

  /** All recovery jobs among the commands, as one. */
  function JobsOf(cmds: seq<Command>): Job {
    if cmds == [] then Nothing()
    else
      var cmd := cmds[|cmds| - 1];
      Joined(JobsOf(cmds[..|cmds| - 1]), if cmd.Recover? then cmd.job else Nothing())
  }

  function Pending(w: State): Job { if w.recovery.Some? then w.recovery.value else Nothing() }

  /** Every command enqueued waits in the queue or was taken; every transition taken is settled or in
      the batch, in order; every job taken is settled or pending. */
  ghost predicate Conserved(w: State) {
    && w.log.enqueued == w.log.taken + w.queue
    && w.log.initial + EventsOf(w.log.taken) == w.log.settled + w.batch
    && JobsOf(w.log.taken) == Joined(w.log.settledJobs, Pending(w))
  }

  /** Everything enqueued when the worker decided to send a request was settled when it was sent. */
  ghost predicate Last(initial: seq<Event>, r: Request) {
    r.settled == initial + EventsOf(r.enqueued) && r.settledJobs == JobsOf(r.enqueued)
  }

  ghost predicate NeverOvertook(w: State) {
    forall i :: 0 <= i < |w.log.requests| ==> Last(w.log.initial, w.log.requests[i])
  }

  lemma FlushedKeeps(env: Env, w: State)
    requires Conserved(w)
    ensures var (a, ok) := Flushed(env, w);
      && Conserved(a) && (ok ==> a.batch == [])
      && a == w.(batch := a.batch, clock := a.clock, log := w.log.(settled := a.log.settled))
  {
    assert w.log.settled + w.batch + [] == w.log.settled + w.batch;
  }

  lemma JoinedNothing(a: Job, b: Job, c: Job)
    ensures Joined(a, Nothing()) == a && Joined(Joined(a, b), c) == Joined(a, Joined(b, c))
    ensures Joined(Nothing(), a) == a
  {
    assert a.fill + [] == a.fill && a.events + [] == a.events;
    assert [] + a.fill == a.fill && [] + a.events == a.events;
    assert (a.fill + b.fill) + c.fill == a.fill + (b.fill + c.fill);
    assert (a.events + b.events) + c.events == a.events + (b.events + c.events);
  }

  lemma RecoverySentKeeps(env: Env, w: State)
    requires Conserved(w) && w.recovery.Some?
    ensures var a := RecoverySent(env, w);
      Conserved(a) && a.log.requests == w.log.requests && a.log.initial == w.log.initial
  {
    FlushedKeeps(env, w);
    JoinedNothing(w.log.settledJobs, Pending(w), Nothing());
    JoinedNothing(Joined(w.log.settledJobs, Pending(w)), Nothing(), Nothing());
  }

  lemma ArriveKeeps(w: State, cmds: seq<Command>)
    requires Conserved(w)
    ensures var a := Arrive(w, cmds);
      && Conserved(a)
      && a == w.(queue := a.queue, log := w.log.(enqueued := a.log.enqueued))
  {
    var n := Max(0, Min(|cmds|, QUEUE_CAPACITY - |w.queue|));
    assert w.log.taken + w.queue + cmds[..n] == w.log.taken + (w.queue + cmds[..n]);
  }

  lemma TakenOne(w: State, cmd: Command)
    ensures EventsOf(w.log.taken + [cmd]) == EventsOf(w.log.taken) + if cmd.Transition? then [cmd.event] else []
    ensures JobsOf(w.log.taken + [cmd]) == Joined(JobsOf(w.log.taken), if cmd.Recover? then cmd.job else Nothing())
  {
    assert (w.log.taken + [cmd])[..|w.log.taken|] == w.log.taken;
  }

  /** The worker once it has moved the first command out of the queue. */
  function Moved(w: State): State
    requires w.queue != []
  {
    var cmd := w.queue[0];
    var w := w.(queue := w.queue[1..], log := w.log.(taken := w.log.taken + [cmd]));
    match cmd
    case Transition(e) => w.(batch := w.batch + [e])
    case Recover(job) => w.(recovery := Some(if w.recovery.None? then job else Joined(w.recovery.value, job)))
  }

  lemma Shift<T>(a: seq<T>, b: seq<T>)
    requires b != []
    ensures a + b == (a + [b[0]]) + b[1..]
  {
  }

  lemma Snoc<T>(a: seq<T>, b: seq<T>, x: T)
    ensures a + (b + [x]) == (a + b) + [x] && a + [] == a
  {
  }

  lemma MovedKeeps(w: State)
    requires Conserved(w) && w.queue != []
    ensures Conserved(Moved(w))
  {
    var cmd := w.queue[0];
    TakenOne(w, cmd);
    Shift(w.log.taken, w.queue);
    if cmd.Transition? {
      MovedTransition(w, cmd.event);
    } else {
      MovedJob(w, cmd.job);
    }
  }

  lemma MovedTransition(w: State, e: Event)
    requires Conserved(w)
    ensures w.log.initial + (EventsOf(w.log.taken) + [e]) == w.log.settled + (w.batch + [e])
    ensures Joined(JobsOf(w.log.taken), Nothing()) == Joined(w.log.settledJobs, Pending(w))
  {
    JoinedNothing(JobsOf(w.log.taken), Nothing(), Nothing());
    Snoc(w.log.initial, EventsOf(w.log.taken), e);
    Snoc(w.log.settled, w.batch, e);
  }

  lemma MovedJob(w: State, job: Job)
    requires Conserved(w)
    ensures w.log.initial + (EventsOf(w.log.taken) + []) == w.log.settled + w.batch
    ensures Joined(JobsOf(w.log.taken), job)
            == Joined(w.log.settledJobs, if w.recovery.None? then job else Joined(w.recovery.value, job))
  {
    JoinedNothing(w.log.settledJobs, Pending(w), job);
    JoinedNothing(job, Nothing(), Nothing());
    assert EventsOf(w.log.taken) + [] == EventsOf(w.log.taken);
  }

  lemma ReceivedKeeps(env: Env, w: State)
    requires Conserved(w)
    ensures var a := Received(env, w);
      Conserved(a) && a.log.requests == w.log.requests && a.log.initial == w.log.initial
  {
    if w.queue != [] {
      MovedKeeps(w);
      FlushedKeeps(env, Moved(w));
      assert Received(env, w) == Moved(w) || Received(env, w) == Flushed(env, Moved(w)).0;
    }
  }

  lemma SentKeeps(env: Env, w: State, enqueued: seq<Command>, samples: seq<Sample>)
    requires Conserved(w) && NeverOvertook(w)
    requires w.log.settled == w.log.initial + EventsOf(enqueued) && w.log.settledJobs == JobsOf(enqueued)
    ensures var a := StatesSent(env, w, enqueued, samples).0; Conserved(a) && NeverOvertook(a)
  {
    var a, r := StatesSent(env, w, enqueued, samples).0, StateRequest(env, w, enqueued, samples);
    assert Last(w.log.initial, r);
    assert a.log == w.log.(requests := w.log.requests + [r]);
    forall i | 0 <= i < |a.log.requests| ensures Last(a.log.initial, a.log.requests[i]) {
      if i < |w.log.requests| {
        assert Last(w.log.initial, w.log.requests[i]);
      }
    }
  }

  /** With the queue empty, no job pending and the batch flushed, everything enqueued is settled. */
  lemma AllSettled(env: Env, w: State, arrivals: seq<Command>)
    requires Conserved(w) && w.recovery.None? && w.queue == []
    ensures var (b, ok) := Flushed(env, Arrive(w, arrivals));
      && Conserved(b) && b.log.requests == w.log.requests && b.log.initial == w.log.initial
      && (ok ==> b.log.settled == b.log.initial + EventsOf(w.log.enqueued) && b.log.settledJobs == JobsOf(w.log.enqueued))
  {
    ArriveKeeps(w, arrivals);
    FlushedKeeps(env, Arrive(w, arrivals));
    var b := Flushed(env, Arrive(w, arrivals)).0;
    assert w.log.taken + [] == w.log.taken && b.log.settled + [] == b.log.settled;
    JoinedNothing(w.log.settledJobs, Nothing(), Nothing());
  }

  lemma DeliveredKeeps(env: Env, w: State, arrivals: seq<Command>)
    requires Conserved(w) && NeverOvertook(w)
    ensures var a := StatesDelivered(env, w, arrivals).0; Conserved(a) && NeverOvertook(a)
  {
    if w.states != [] && w.recovery.None? && w.queue == [] {
      AllSettled(env, w, arrivals);
      var (b, ok) := Flushed(env, Arrive(w, arrivals));
      if ok {
        SentKeeps(env, b, w.log.enqueued, DropStale(b.published, b.states));
      }
    }
  }

  lemma StepNeverOvertakes(env: Env, w: State, step: Step)
    requires Conserved(w) && NeverOvertook(w)
    ensures Conserved(Take(env, w, step)) && NeverOvertook(Take(env, w, step))
  {
    match step
    case Arrivals(cmds) => ArriveKeeps(w, cmds);
    case ReceiveOne => ReceivedKeeps(env, w);
    case FlushTick => FlushedKeeps(env, w);
    case RetryRecovery =>
      if w.recovery.Some? {
        RecoverySentKeeps(env, w);
      }
    case PublishSamples(samples, now, arrivals) =>
      DeliveredKeeps(env, StatesRecorded(env, w, samples, now).0, arrivals);
  }

  /** In every run, a request of samples goes out only when every transition and every recovery job
      enqueued by the time the worker decided to send it has been settled; nothing enqueued is lost,
      repeated or reordered on its way. */
  lemma {:induction false} SamplesNeverOvertake(env: Env, w: State, steps: seq<Step>)
    requires Conserved(w) && NeverOvertook(w)
    ensures Conserved(Run(env, w, steps)) && NeverOvertook(Run(env, w, steps))
    decreases steps
  {
    if steps != [] {
      StepNeverOvertakes(env, w, steps[0]);
      SamplesNeverOvertake(env, Take(env, w, steps[0]), steps[1..]);
    }
  }

  /** So it is from startup on. */
  lemma StartedConserved(env: Env, batch: seq<Event>, fill: seq<Sample>, now: int)
    ensures var w := Started(env, batch, fill, now); Conserved(w) && NeverOvertook(w)
  {
    JoinedNothing(Nothing(), Nothing(), Nothing());
    assert [] + batch == batch + [] == batch;
  }

  // ------------------------------------------------------------------ the samples themselves

  /** Two workers that differ only in transitions, jobs and time. */
  predicate SameSamples(v: State, w: State) {
    && v.states == w.states && v.published == w.published
    && v.log.requests == w.log.requests && v.log.recorded == w.log.recorded
    && v.log.floors == w.log.floors && v.log.discarded == w.log.discarded
  }

  lemma OnlySampleSteps(env: Env, w: State, step: Step)
    requires !step.PublishSamples?
    ensures SameSamples(w, Take(env, w, step))
  {
  }

  /** How the delivery of the backlog ends: it stays as it is, it is found stale, or it is sent. */
  lemma DeliveredHow(env: Env, w: State, arrivals: seq<Command>) returns (b: State)
    ensures SameSamples(w, b)
    ensures var a := StatesDelivered(env, w, arrivals).0;
      var samples := DropStale(w.published, w.states);
      || a == b
      || (samples == [] && a == b.(states := []))
      || (samples != [] && a == StatesSent(env, b, w.log.enqueued, samples).0)
  {
    if w.states == [] || w.recovery.Some? || w.queue != [] {
      b := w;
    } else {
      b := Flushed(env, Arrive(w, arrivals)).0;
    }
  }

  lemma {:induction false} NotedCovers(published: map<string, int>, samples: seq<Sample>)
    ensures var after := NoteSamples(published, samples);
      && (forall s :: s in published ==> s in after && published[s] <= after[s])
      && (forall i :: 0 <= i < |samples| ==>
            samples[i].service in after && samples[i].timestampMs <= after[samples[i].service])
  {
    if samples != [] {
      NotedCovers(published, samples[..|samples| - 1]);
    }
  }

  /** Nothing is noted that is neither known before nor a moment of one of the samples. */
  lemma {:induction false} NotedIsReal(published: map<string, int>, samples: seq<Sample>, s: string)
    ensures var after := NoteSamples(published, samples);
      s in after && !(s in published && after[s] == published[s]) ==>
        exists i :: 0 <= i < |samples| && samples[i].service == s && samples[i].timestampMs == after[s]
  {
    if samples != [] {
      NotedIsReal(published, samples[..|samples| - 1], s);
    }
  }

  predicate Covers(published: map<string, int>, x: Sample) {
    x.service in published && x.timestampMs <= published[x.service]
  }

  /** x comes before y in the series they share. */
  predicate Before(x: Sample, y: Sample) { x.service == y.service ==> x.timestampMs < y.timestampMs }

  /** A sample of the service at that moment was accepted. */
  ghost predicate WasAccepted(rs: seq<Request>, s: string, t: int) {
    exists i, k :: 0 <= i < |rs| && rs[i].outcome == Acked && 0 <= k < |rs[i].samples|
                   && rs[i].samples[k].service == s && rs[i].samples[k].timestampMs == t
  }

  /** Each accepted request is newer, series by series, than those before it; published holds the
      newest accepted moment of every series. */
  ghost predicate Advancing(w: State) {
    var rs := w.log.requests;
    && (forall i, k :: 0 <= i < |rs| && rs[i].outcome == Acked && 0 <= k < |rs[i].samples| ==> Covers(w.published, rs[i].samples[k]))
    && (forall s :: s in w.published ==> WasAccepted(rs, s, w.published[s]))
    && (forall i, j, k, l ::
          0 <= i < j < |rs| && rs[i].outcome == rs[j].outcome == Acked && 0 <= k < |rs[i].samples| && 0 <= l < |rs[j].samples| ==>
          Before(rs[i].samples[k], rs[j].samples[l]))
  }

  /** Every request holds samples of the slot that was current when the backlog was last pruned. */
  predicate InFloor(floor: Option<int>, samples: seq<Sample>) {
    floor.Some? ==> forall k :: 0 <= k < |samples| ==> samples[k].timestampMs >= floor.value
  }

  ghost predicate InCurrentSlot(env: Env, w: State) {
    && (w.log.floors != [] ==> env.window > 0)
    && InFloor(LastFloor(w.log), w.states)
    && forall i :: 0 <= i < |w.log.requests| ==> InFloor(w.log.requests[i].floor, w.log.requests[i].samples)
  }

  /** What has become of a recorded sample: it waits, it was in a request that was accepted or
      rejected for good, a sample as new was accepted, its slot closed, or MAX_PENDING_STATES newer ones
      pushed it out. */
  ghost predicate Accounted(w: State, x: Sample) {
    || x in w.log.discarded
    || x in w.states
    || Covers(w.published, x)
    || (exists i :: 0 <= i < |w.log.floors| && x.timestampMs < w.log.floors[i])
    || (exists i :: 0 <= i < |w.log.requests| && x in w.log.requests[i].samples && w.log.requests[i].outcome.Refused?
                    && w.log.requests[i].outcome.permanent)
  }

  ghost predicate NothingLost(w: State) {
    forall i :: 0 <= i < |w.log.recorded| ==> Accounted(w, w.log.recorded[i])
  }

  // ------------------------------------------------------------------ every accepted request is newer

  lemma SentTracks(env: Env, w: State, enqueued: seq<Command>, samples: seq<Sample>, s: string)
    requires s in w.published ==> WasAccepted(w.log.requests, s, w.published[s])
    ensures var a := StatesSent(env, w, enqueued, samples).0;
      s in a.published ==> WasAccepted(a.log.requests, s, a.published[s])
  {
    var a, r := StatesSent(env, w, enqueued, samples).0, StateRequest(env, w, enqueued, samples);
    var was, rs := w.log.requests, a.log.requests;
    NotedIsReal(w.published, samples, s);
    assert rs == was + [r] && rs[|was|] == r;
    if s in a.published && s in w.published && a.published[s] == w.published[s] {
      var i, k :| 0 <= i < |was| && was[i].outcome == Acked && 0 <= k < |was[i].samples|
                  && was[i].samples[k].service == s && was[i].samples[k].timestampMs == w.published[s];
      assert rs[i] == was[i];
    } else if s in a.published {
      var k :| 0 <= k < |samples| && samples[k].service == s && samples[k].timestampMs == a.published[s];
      assert rs[|was|].samples[k] == samples[k];
    }
  }

  lemma SentAdvances(env: Env, w: State, enqueued: seq<Command>)
    requires Advancing(w)
    ensures Advancing(StatesSent(env, w, enqueued, DropStale(w.published, w.states)).0)
  {
    var samples := DropStale(w.published, w.states);
    var a, r := StatesSent(env, w, enqueued, samples).0, StateRequest(env, w, enqueued, samples);
    var was, rs := w.log.requests, a.log.requests;
    assert rs == was + [r];
    FilterMembers(Newer(w.published), w.states);
    forall l | 0 <= l < |samples| ensures Newer(w.published)(samples[l]) {
      assert samples[l] in samples;
    }
    NotedCovers(w.published, samples);
    forall s | s in a.published ensures WasAccepted(rs, s, a.published[s]) {
      SentTracks(env, w, enqueued, samples, s);
    }
    forall i, k | 0 <= i < |rs| && rs[i].outcome == Acked && 0 <= k < |rs[i].samples| ensures Covers(a.published, rs[i].samples[k]) {
      if i < |was| {
        assert Covers(w.published, was[i].samples[k]);
      }
    }
    forall i, j, k, l |
      0 <= i < j < |rs| && rs[i].outcome == rs[j].outcome == Acked && 0 <= k < |rs[i].samples| && 0 <= l < |rs[j].samples|
      ensures Before(rs[i].samples[k], rs[j].samples[l])
    {
      assert Covers(w.published, was[i].samples[k]);
      if j < |was| {
        assert Before(was[i].samples[k], was[j].samples[l]);
      }
    }
  }

  lemma StepAdvances(env: Env, w: State, step: Step)
    requires Advancing(w)
    ensures Advancing(Take(env, w, step))
  {
    if step.PublishSamples? {
      var a := StatesRecorded(env, w, step.samples, step.now).0;
      var b := DeliveredHow(env, a, step.arrivals);
      assert Advancing(b);
      SentAdvances(env, b, a.log.enqueued);
    } else {
      OnlySampleSteps(env, w, step);
    }
  }

  /** In every run, a sample accepted for a service is strictly newer than every sample of that service
      accepted by an earlier request. */
  lemma {:induction false} AcceptedSamplesAdvance(env: Env, w: State, steps: seq<Step>)
    requires Advancing(w)
    ensures Advancing(Run(env, w, steps))
    decreases steps
  {
    if steps != [] {
      StepAdvances(env, w, steps[0]);
      AcceptedSamplesAdvance(env, Take(env, w, steps[0]), steps[1..]);
    }
  }

  // ------------------------------------------------------------------ nothing from a closed slot

  lemma SentInSlot(env: Env, w: State, enqueued: seq<Command>)
    requires InCurrentSlot(env, w)
    ensures InCurrentSlot(env, StatesSent(env, w, enqueued, DropStale(w.published, w.states)).0)
  {
    var samples := DropStale(w.published, w.states);
    var a, r := StatesSent(env, w, enqueued, samples).0, StateRequest(env, w, enqueued, samples);
    assert a.log.requests == w.log.requests + [r] && a.log.floors == w.log.floors;
    FilterMembers(Newer(w.published), w.states);
    forall k | 0 <= k < |samples| && r.floor.Some? ensures samples[k].timestampMs >= r.floor.value {
      assert samples[k] in samples && samples[k] in w.states;
    }
  }

  lemma BufferedInSlot(env: Env, w: State, samples: seq<Sample>, now: int)
    requires InCurrentSlot(env, w)
    ensures InCurrentSlot(env, Buffered(env, w, samples, now))
  {
    if samples != [] {
      PrunedHolds(env.zone, env.window, now, w.states + samples);
    }
  }

  lemma StepInSlot(env: Env, w: State, step: Step)
    requires InCurrentSlot(env, w)
    ensures InCurrentSlot(env, Take(env, w, step))
  {
    if step.PublishSamples? {
      var a := StatesRecorded(env, w, step.samples, step.now).0;
      BufferedInSlot(env, w, step.samples, step.now);
      var b := DeliveredHow(env, a, step.arrivals);
      assert InCurrentSlot(env, b);
      SentInSlot(env, b, a.log.enqueued);
    } else {
      OnlySampleSteps(env, w, step);
    }
  }

  /** In every run, no request holds a sample of a slot that was closed when the backlog was last
      pruned. */
  lemma {:induction false} ClosedSlotsStayClosed(env: Env, w: State, steps: seq<Step>)
    requires InCurrentSlot(env, w)
    ensures InCurrentSlot(env, Run(env, w, steps))
    decreases steps
  {
    if steps != [] {
      StepInSlot(env, w, steps[0]);
      ClosedSlotsStayClosed(env, Take(env, w, steps[0]), steps[1..]);
    }
  }

  // ------------------------------------------------------------------ no sample is lost

  lemma SentAccounts(env: Env, w: State, enqueued: seq<Command>, x: Sample)
    requires Accounted(w, x)
    ensures Accounted(StatesSent(env, w, enqueued, DropStale(w.published, w.states)).0, x)
  {
    var samples := DropStale(w.published, w.states);
    var a, r := StatesSent(env, w, enqueued, samples).0, StateRequest(env, w, enqueued, samples);
    assert a.log.requests == w.log.requests + [r];
    NotedCovers(w.published, samples);
    FilterMembers(Newer(w.published), w.states);
    if i :| 0 <= i < |w.log.requests| && x in w.log.requests[i].samples && w.log.requests[i].outcome.Refused?
            && w.log.requests[i].outcome.permanent {
      assert a.log.requests[i] == w.log.requests[i];
    } else if x in w.states && !Covers(w.published, x) {
      assert x in samples;
      assert a.log.requests[|w.log.requests|] == r && x in r.samples;
    }
  }

  lemma StaleAccounts(w: State, x: Sample)
    requires Accounted(w, x) && DropStale(w.published, w.states) == []
    ensures Accounted(w.(states := []), x)
  {
    FilterMembers(Newer(w.published), w.states);
  }

  lemma DeliveredAccounts(env: Env, w: State, arrivals: seq<Command>, x: Sample)
    requires Accounted(w, x)
    ensures Accounted(StatesDelivered(env, w, arrivals).0, x)
  {
    var b := DeliveredHow(env, w, arrivals);
    SameAccounts(w, b, x);
    if DropStale(w.published, w.states) == [] {
      StaleAccounts(b, x);
    } else {
      SentAccounts(env, b, w.log.enqueued, x);
    }
  }

  lemma SameAccounts(v: State, w: State, x: Sample)
    requires SameSamples(v, w) && Accounted(v, x)
    ensures Accounted(w, x)
  {
  }

  lemma BufferedAccounts(env: Env, w: State, samples: seq<Sample>, now: int, x: Sample)
    requires samples != [] && (Accounted(w, x) || x in samples)
    ensures Accounted(Buffered(env, w, samples, now), x)
  {
    var a := Buffered(env, w, samples, now);
    PrunedHolds(env.zone, env.window, now, w.states + samples);
    if x in w.states + samples {
      if env.window > 0 && x.timestampMs < Floor(env.zone, env.window, now) {
        assert a.log.floors[|w.log.floors|] == Floor(env.zone, env.window, now);
      }
    } else if i :| 0 <= i < |w.log.floors| && x.timestampMs < w.log.floors[i] {
      assert a.log.floors[i] == w.log.floors[i];
    }
  }

  lemma StepLosesNothing(env: Env, w: State, step: Step)
    requires NothingLost(w)
    ensures NothingLost(Take(env, w, step))
  {
    var a := Take(env, w, step);
    if step.PublishSamples? {
      var (b, ok) := StatesRecorded(env, w, step.samples, step.now);
      if ok {
        var _ := DeliveredHow(env, b, step.arrivals);
        forall i | 0 <= i < |a.log.recorded| ensures Accounted(a, a.log.recorded[i]) {
          if i < |w.log.recorded| {
            assert Accounted(w, w.log.recorded[i]);
          }
          BufferedAccounts(env, w, step.samples, step.now, a.log.recorded[i]);
          DeliveredAccounts(env, b, step.arrivals, a.log.recorded[i]);
        }
      }
    } else {
      OnlySampleSteps(env, w, step);
      forall i | 0 <= i < |a.log.recorded| ensures Accounted(a, a.log.recorded[i]) {
        SameAccounts(w, a, w.log.recorded[i]);
      }
    }
  }

  /** In every run, each recorded sample waits in the backlog, was accepted or permanently rejected,
      was superseded by one as new, fell out of the slot, or was pushed out by MAX_PENDING_STATES newer
      ones. */
  lemma {:induction false} NoSampleIsLost(env: Env, w: State, steps: seq<Step>)
    requires NothingLost(w)
    ensures NothingLost(Run(env, w, steps))
    decreases steps
  {
    if steps != [] {
      StepLosesNothing(env, w, steps[0]);
      NoSampleIsLost(env, Take(env, w, steps[0]), steps[1..]);
    }
  }

  lemma StartedHolds(env: Env, batch: seq<Event>, fill: seq<Sample>, now: int)
    ensures var w := Started(env, batch, fill, now);
      Conserved(w) && NeverOvertook(w) && Advancing(w) && InCurrentSlot(env, w) && NothingLost(w)
  {
    StartedConserved(env, batch, fill, now);
    var empty := Started(env, batch, [], now);
    BufferedInSlot(env, empty, fill, now);
    if fill != [] {
      forall i | 0 <= i < |fill| ensures Accounted(Started(env, batch, fill, now), fill[i]) {
        BufferedAccounts(env, empty, fill, now, fill[i]);
      }
      assert [] + fill == fill;
    }
  }

  /** A worker that has started keeps all of this in every run. */
  lemma EveryRun(env: Env, batch: seq<Event>, fill: seq<Sample>, now: int, steps: seq<Step>)
    ensures var w := Run(env, Started(env, batch, fill, now), steps);
      Conserved(w) && NeverOvertook(w) && Advancing(w) && InCurrentSlot(env, w) && NothingLost(w)
  {
    var w := Started(env, batch, fill, now);
    StartedHolds(env, batch, fill, now);
    SamplesNeverOvertake(env, w, steps);
    AcceptedSamplesAdvance(env, w, steps);
    ClosedSlotsStayClosed(env, w, steps);
    NoSampleIsLost(env, w, steps);
  }
}
