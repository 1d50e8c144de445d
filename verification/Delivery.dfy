/** The per-target worker: transitions before recovery jobs before availability samples
    (internal/delivery/worker.go, Run and the closures it is made of). */
module Delivery {
  import opened Types
  import opened Sorting
  import opened Backlog

  const QUEUE_CAPACITY := 100000

  datatype Job = Job(fill: seq<Sample>, events: seq<Event>)

  datatype Command = Transition(event: Event) | Recover(job: Job)

  /** How a request ends: cancelled is an error met after the context was cancelled. */
  datatype Outcome = Acked | Refused(permanent: bool, cancelled: bool)

  /** Constants of a run. The n-th request of the run ends with outcome(n). */
  datatype Env = Env(zone: int, window: int, batchSize: nat, outcome: nat -> Outcome)

  /** A request of deliverStates: its samples, how it ended, every command enqueued when the worker
      decided to send it, and what had been settled when it was sent. */
  datatype Request = Request(
    samples: seq<Sample>,
    outcome: Outcome,
    enqueued: seq<Command>,
    settled: seq<Event>,
    settledJobs: Job,
    floor: Option<int>)

  /** What has happened so far. Transitions are settled when they are acknowledged or dropped after a
      permanent rejection; so are recovery jobs. discarded are the samples pushed out of the backlog by
      MAX_PENDING_STATES newer ones. */
  datatype Log = Log(
    initial: seq<Event>,
    enqueued: seq<Command>,
    taken: seq<Command>,
    settled: seq<Event>,
    settledJobs: Job,
    requests: seq<Request>,
    recorded: seq<Sample>,
    floors: seq<int>,
    discarded: seq<Sample>)

  datatype State = State(
    batch: seq<Event>,
    recovery: Option<Job>,
    queue: seq<Command>,
    states: seq<Sample>,
    published: map<string, int>,
    clock: nat,
    log: Log)

  // ------------------------------------------------------------------ operations as functions

  function Joined(a: Job, b: Job): Job { Job(a.fill + b.fill, a.events + b.events) }

  function Nothing(): Job { Job([], []) }

  /** Commands arrive as long as the queue has room. */
  function Arrive(w: State, cmds: seq<Command>): State {
    var n := Max(0, Min(|cmds|, QUEUE_CAPACITY - |w.queue|));
    w.(queue := w.queue + cmds[..n], log := w.log.(enqueued := w.log.enqueued + cmds[..n]))
  }

  function Flushed(env: Env, w: State): (State, bool) {
    if w.batch == [] then (w, true)
    else
      var out := env.outcome(w.clock);
      var w := w.(clock := w.clock + 1);
      if out.Acked? || (!out.cancelled && out.permanent)
      then (w.(batch := [], log := w.log.(settled := w.log.settled + w.batch)), true)
      else (w, false)
  }

  /** One attempt at the pending recovery job. */
  function RecoverySent(env: Env, w: State): State
    requires w.recovery.Some?
  {
    var (a, ok) := Flushed(env, w);
    if !ok then a
    else
      var fill := env.outcome(a.clock);
      var b := a.(clock := a.clock + 1);
      if fill.Refused? && !fill.permanent then b
      else
        var events := env.outcome(b.clock);
        var c := b.(clock := b.clock + 1);
        if events.Acked? || (!events.cancelled && events.permanent)
        then c.(recovery := None, log := c.log.(settledJobs := Joined(c.log.settledJobs, w.recovery.value)))
        else c
  }

  function Newer(published: map<string, int>): Sample -> bool {
    (x: Sample) => x.service in published ==> x.timestampMs > published[x.service]
  }

  function DropStale(published: map<string, int>, samples: seq<Sample>): seq<Sample> {
    Filter(Newer(published), samples)
  }

  function NotePublished(published: map<string, int>, x: Sample): map<string, int> {
    if x.service in published && x.timestampMs <= published[x.service] then published
    else published[x.service := x.timestampMs]
  }

  function NoteSamples(published: map<string, int>, samples: seq<Sample>): map<string, int> {
    if samples == [] then published
    else NotePublished(NoteSamples(published, samples[..|samples| - 1]), samples[|samples| - 1])
  }

  function LastFloor(log: Log): Option<int> { if log.floors == [] then None else Some(log.floors[|log.floors| - 1]) }

  function StateRequest(env: Env, w: State, enqueued: seq<Command>, samples: seq<Sample>): Request {
    Request(samples, env.outcome(w.clock), enqueued, w.log.settled, w.log.settledJobs, LastFloor(w.log))
  }

  /** The request for samples, sent when nothing else is waiting; enqueued is what the queue had
      taken in when it was found empty. */
  function StatesSent(env: Env, w: State, enqueued: seq<Command>, samples: seq<Sample>): (State, bool) {
    var out := env.outcome(w.clock);
    var request := StateRequest(env, w, enqueued, samples);
    var w := w.(clock := w.clock + 1, log := w.log.(requests := w.log.requests + [request]));
    if out.Refused? && !out.permanent then (w, false)
    else if out.Refused? then (w.(states := []), true)
    else (w.(states := [], published := NoteSamples(w.published, samples)), true)
  }

  /** Delivers the backlog; more commands may arrive once the queue has been found empty. */
  function StatesDelivered(env: Env, w: State, arrivals: seq<Command>): (State, bool) {
    if w.states == [] then (w, true)
    else if w.recovery.Some? || w.queue != [] then (w, false)
    else
      var (a, ok) := Flushed(env, Arrive(w, arrivals));
      if !ok then (a, false)
      else
        var samples := DropStale(a.published, a.states);
        if samples == [] then (a.(states := []), true) else StatesSent(env, a, w.log.enqueued, samples)
  }

  function Buffered(env: Env, w: State, samples: seq<Sample>, now: int): State {
    if samples == [] then w
    else
      var all := w.states + samples;
      w.(states := Pruned(env.zone, env.window, now, all),
         log := w.log.(
           recorded := w.log.recorded + samples,
           floors := if env.window > 0 then w.log.floors + [Floor(env.zone, env.window, now)] else w.log.floors,
           discarded := w.log.discarded + Excess(InSlot(env.zone, env.window, now, all))))
  }

  function StatesRecorded(env: Env, w: State, samples: seq<Sample>, now: int): (State, bool) {
    if samples == [] || w.recovery.Some? || w.queue != [] then (w, false)
    else (Buffered(env, w, samples, now), true)
  }

  /** A heartbeat or a slot edge: the samples are recorded, and if so the backlog is delivered. */
  function SamplesPublished(env: Env, w: State, samples: seq<Sample>, now: int, arrivals: seq<Command>): (State, bool) {
    var (a, ok) := StatesRecorded(env, w, samples, now);
    if ok then (StatesDelivered(env, a, arrivals).0, true) else (a, false)
  }

  function Received(env: Env, w: State): State {
    if w.queue == [] then w
    else
      var cmd := w.queue[0];
      var w := w.(queue := w.queue[1..], log := w.log.(taken := w.log.taken + [cmd]));
      match cmd
      case Transition(e) =>
        var w := w.(batch := w.batch + [e]);
        if |w.batch| >= env.batchSize then Flushed(env, w).0 else w
      case Recover(job) =>
        w.(recovery := Some(if w.recovery.None? then job else Joined(w.recovery.value, job)))
  }

  /** What startup leaves: transitions still to be sent, and the startup fill if its request failed for
      the time being. */
  function Started(env: Env, batch: seq<Event>, fill: seq<Sample>, now: int): State {
    Buffered(env, State(batch, None, [], [], map[], 0, Log(batch, [], [], [], Nothing(), [], [], [], [])), fill, now)
  }

  // ------------------------------------------------------------------ the worker as the program has it

  class Worker {
    const env: Env
    var batch: seq<Event>
    var recovery: Option<Job>
    var queue: seq<Command>
    var states: seq<Sample>
    var published: map<string, int>
    var clock: nat
    ghost var log: Log

    ghost function View(): State
      reads this
    {
      State(batch, recovery, queue, states, published, clock, log)
    }

    constructor (env: Env, batch: seq<Event>, fill: seq<Sample>, now: int)
      ensures this.env == env && View() == Started(env, batch, fill, now)
    {
      this.env, this.batch, recovery, queue, states, published, clock := env, batch, None, [], [], map[], 0;
      log := Log(batch, [], [], [], Nothing(), [], [], [], []);
      new;
      BufferStates(fill, now);
    }

    method Enqueue(cmds: seq<Command>)
      modifies this`queue, this`log
      ensures View() == Arrive(old(View()), cmds)
    {
      ghost var was := View();
      ghost var room := Max(0, Min(|cmds|, QUEUE_CAPACITY - |queue|));
      for i := 0 to |cmds|
        invariant queue == was.queue + cmds[..Min(i, room)]
        invariant View() == was.(queue := queue, log := was.log.(enqueued := was.log.enqueued + cmds[..Min(i, room)]))
      {
        if |queue| < QUEUE_CAPACITY {
          queue := queue + [cmds[i]];
          log := log.(enqueued := log.enqueued + [cmds[i]]);
          assert cmds[..i + 1] == cmds[..i] + [cmds[i]];
        }
      }
    }

    method Flush() returns (ok: bool)
      modifies this`batch, this`clock, this`log
      ensures (View(), ok) == Flushed(env, old(View()))
    {
      if |batch| == 0 {
        return true;
      }
      var out := env.outcome(clock);
      clock := clock + 1;
      if out.Acked? {
        log := log.(settled := log.settled + batch);
        batch := [];
        return true;
      }
      if out.cancelled {
        return false;
      }
      if out.permanent {
        log := log.(settled := log.settled + batch);
        batch := [];
        return true;
      }
      return false;
    }

    method SendRecovery()
      requires recovery.Some?
      modifies this`batch, this`recovery, this`clock, this`log
      ensures View() == RecoverySent(env, old(View()))
    {
      var ok := Flush();
      if !ok {
        return;
      }
      var fill := env.outcome(clock);
      clock := clock + 1;
      if fill.Refused? && !fill.permanent {
        return;
      }
      var events := env.outcome(clock);
      clock := clock + 1;
      if events.Refused? && (events.cancelled || !events.permanent) {
        return;
      }
      log := log.(settledJobs := Joined(log.settledJobs, recovery.value));
      recovery := None;
    }

    method FilterStale() returns (samples: seq<Sample>)
      ensures samples == DropStale(published, states)
    {
      samples := [];
      for i := 0 to |states|
        invariant samples == DropStale(published, states[..i])
      {
        assert states[..i + 1][..i] == states[..i];
        var sample := states[i];
        if sample.service in published && sample.timestampMs <= published[sample.service] {
          continue;
        }
        samples := samples + [sample];
      }
      assert states[..|states|] == states;
    }

    method Note(samples: seq<Sample>)
      modifies this`published
      ensures published == NoteSamples(old(published), samples)
    {
      for i := 0 to |samples|
        invariant published == NoteSamples(old(published), samples[..i])
      {
        assert samples[..i + 1][..i] == samples[..i];
        var sample := samples[i];
        if !(sample.service in published) || sample.timestampMs > published[sample.service] {
          published := published[sample.service := sample.timestampMs];
        }
      }
      assert samples[..|samples|] == samples;
    }

    method DeliverStates(arrivals: seq<Command>) returns (ok: bool)
      modifies this
      ensures (View(), ok) == StatesDelivered(env, old(View()), arrivals)
    {
      if |states| == 0 {
        return true;
      }
      if recovery.Some? || |queue| > 0 {
        return false;
      }
      ghost var enqueued := log.enqueued;
      Enqueue(arrivals);
      ok := Flush();
      if !ok {
        return false;
      }
      var samples := FilterStale();
      if |samples| > 0 {
        var out := env.outcome(clock);
        log := log.(requests := log.requests + [Request(samples, out, enqueued, log.settled, log.settledJobs, LastFloor(log))]);
        clock := clock + 1;
        if out.Refused? {
          if !out.permanent {
            return false;
          }
        } else {
          Note(samples);
        }
      }
      states := [];
      return true;
    }

    method BufferStates(samples: seq<Sample>, now: int)
      modifies this`states, this`log
      ensures View() == Buffered(env, old(View()), samples, now)
    {
      if |samples| == 0 {
        return;
      }
      log := Buffered(env, View(), samples, now).log;
      states := Pruned(env.zone, env.window, now, states + samples);
    }

    method RecordStates(samples: seq<Sample>, now: int) returns (ok: bool)
      modifies this`states, this`log
      ensures (View(), ok) == StatesRecorded(env, old(View()), samples, now)
    {
      if |samples| == 0 || recovery.Some? || |queue| > 0 {
        return false;
      }
      BufferStates(samples, now);
      return true;
    }

    method Publish(samples: seq<Sample>, now: int, arrivals: seq<Command>) returns (ok: bool)
      modifies this
      ensures (View(), ok) == SamplesPublished(env, old(View()), samples, now, arrivals)
    {
      ok := RecordStates(samples, now);
      if ok {
        var _ := DeliverStates(arrivals);
      }
    }

    method Receive()
      modifies this
      ensures View() == Received(env, old(View()))
    {
      if |queue| == 0 {
        return;
      }
      var cmd := queue[0];
      queue := queue[1..];
      log := log.(taken := log.taken + [cmd]);
      match cmd
      case Transition(e) =>
        batch := batch + [e];
        if |batch| >= env.batchSize {
          var _ := Flush();
        }
      case Recover(job) =>
        if recovery.None? {
          recovery := Some(job);
        } else {
          recovery := Some(Job(recovery.value.fill + job.fill, recovery.value.events + job.events));
        }
    }
  }
}
