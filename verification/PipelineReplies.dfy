/** What the workers of the protocol do with the events, read off the replies of the receivers, in one step
    and over whole runs (internal/delivery/worker.go, flush and the start of Run). */
module PipelineReplies {
  import opened Types
  import opened Sorting
  import opened Sender
  import opened SenderReplies
  import opened Pipeline
  import opened TargetProgress
  import opened PipelineRuns

  // ------------------------------------------------------------------ one worker

  /** From s to t all of work was delivered: nothing was left, or the last reply was a 2xx and its
      checkpoint was saved. */
  predicate Delivered(env: Env, s: State, t: State, work: seq<Event>) {
    work == [] || (t.requests > 0 && Accepting(env.reply(t.requests - 1)) && !SaveFailed(env, s, t))
  }

  /** The last reply was a 4xx and the worker is not being stopped. */
  predicate GivenUp(env: Env, s: State, t: State, work: seq<Event>) {
    work != [] && t.requests > 0 && Rejecting(env.reply(t.requests - 1)) && !env.stopped(t.requests)
  }

  lemma SendByReplies(env: Env, s: State, events: seq<Event>) returns (t: State, out: Outcome)
    requires env.batchSize > 0
    ensures (t, out) == Send(env, s, events)
    ensures var work := Unsent(s.lastSent, events);
      && AckedBy(env, s, t, work, out == Sent) && s.requests <= t.requests && s.saveCount <= t.saveCount
      && (if work == [] then t == s else s.requests < t.requests)
      && (out == Sent <==> Delivered(env, s, t, work))
      && (out.Permanent? <==> work != [] && t.requests > 0 && Rejecting(env.reply(t.requests - 1)))
  {
    t, out := ChunksByReplies(env, s, Unsent(s.lastSent, events));
  }

  /** A flush took t to u: the batch is gone when it was delivered, dropped when it was given up, and
      otherwise kept. */
  ghost predicate FlushedBy(env: Env, t: Target, u: Target) {
    var work := Unsent(t.sender.lastSent, t.batch);
    && u.queue == t.queue && t.sender.requests <= u.sender.requests
    && AckedBy(env, t.sender, u.sender, work, Delivered(env, t.sender, u.sender, work))
    && if Delivered(env, t.sender, u.sender, work) then u.batch == [] && u.dropped == t.dropped
       else if GivenUp(env, t.sender, u.sender, work) then u.batch == [] && u.dropped == t.dropped + t.batch
       else u.batch == t.batch && u.dropped == t.dropped
  }

  /** A batch is dropped exactly when the last reply of the call is a 4xx and the context is not cancelled;
      any other failure keeps it for the next flush. */
  lemma FlushByReplies(env: Env, t: Target)
    requires env.batchSize > 0
    ensures FlushedBy(env, t, FlushTarget(env, t))
  {
    var s, out := SendByReplies(env, t.sender, t.batch);
    assert t.batch == [] ==> Unsent(t.sender.lastSent, t.batch) == [];
  }

  /** A worker that takes an event from its queue flushes exactly when that fills the batch. */
  lemma DequeueByReplies(env: Env, t: Target)
    requires env.batchSize > 0
    ensures var u := DequeueTarget(env, t);
      if t.queue == [] then u == t
      else
        var v := t.(batch := t.batch + [t.queue[0]], queue := t.queue[1..]);
        if |t.batch| + 1 < env.batchSize then u == v else FlushedBy(env, v, u)
  {
    if t.queue != [] {
      FlushByReplies(env, t.(batch := t.batch + [t.queue[0]], queue := t.queue[1..]));
    }
  }

  /** At its start a worker sends the log above its checkpoint in two parts, the second one only when the
      first was delivered, and keeps from the first undelivered part on. The parts meet at the first event
      not before the slot. */
  lemma StartupByReplies(env: Env, sender: State, log: seq<Event>, slot: Option<int>) returns (mid: State, m: nat)
    requires env.batchSize > 0
    ensures var pending := Filter(Above(sender.lastSent), log);
      var (s, batch) := Startup(env, sender, log, slot);
      && m <= |pending| && (forall i :: 0 <= i < m ==> slot.Some? && pending[i].timeMs < slot.value)
      && (m < |pending| && slot.Some? ==> pending[m].timeMs >= slot.value)
      && var first, second := Unsent(sender.lastSent, pending[..m]), Unsent(mid.lastSent, pending[m..]);
         && AckedBy(env, sender, mid, first, Delivered(env, sender, mid, first)) && sender.requests <= mid.requests
         && if !Delivered(env, sender, mid, first) then s == mid && batch == pending
            else
              && AckedBy(env, mid, s, second, Delivered(env, mid, s, second)) && mid.requests <= s.requests
              && batch == if Delivered(env, mid, s, second) then [] else pending[m..]
  {
    var pending := Filter(Above(sender.lastSent), log);
    m := BeforeSlot(slot, pending);
    SlotBegins(slot, pending);
    var out;
    mid, out := SendByReplies(env, sender, pending[..m]);
    var s, out2 := SendByReplies(env, mid, pending[m..]);
  }

  lemma {:induction false} SlotBegins(slot: Option<int>, pending: seq<Event>)
    ensures var m := BeforeSlot(slot, pending);
      && (forall i :: 0 <= i < m ==> slot.Some? && pending[i].timeMs < slot.value)
      && (m < |pending| && slot.Some? ==> pending[m].timeMs >= slot.value)
    decreases pending
  {
    if slot.Some? && pending != [] && pending[0].timeMs < slot.value {
      SlotBegins(slot, pending[1..]);
      var m := BeforeSlot(slot, pending);
      forall i | 0 <= i < m ensures pending[i].timeMs < slot.value {
        if i > 0 {
          assert pending[1..][i - 1].timeMs < slot.value;
        }
      }
    }
  }

  lemma SendAnswered(env: Env, s: State, events: seq<Event>) returns (t: State)
    requires env.batchSize > 0 && Answering(env, s)
    ensures Send(env, s, events) == (t, Sent) && Answering(env, t)
  {
    var out;
    t, out := SendByReplies(env, s, events);
    AnsweringSends(env, s, Unsent(s.lastSent, events));
  }

  lemma StartupAnswered(env: Env, sender: State, log: seq<Event>, slot: Option<int>)
    requires env.batchSize > 0 && Answering(env, sender)
    ensures Startup(env, sender, log, slot).1 == []
  {
    var pending := Filter(Above(sender.lastSent), log);
    var m := BeforeSlot(slot, pending);
    var mid := SendAnswered(env, sender, pending[..m]);
    var s := SendAnswered(env, mid, pending[m..]);
  }

  /** When the receiver answers, a restart delivers everything found above its checkpoint. */
  lemma RestartSettles(env: Env, t: Target, log: seq<Event>, slot: Option<int>, c: nat, killed: bool)
    requires env.batchSize > 0 && Ordered(0, log) && Answering(env, t.sender)
    ensures var u := RestartTarget(env, t, log, slot, c, killed);
      u.batch == [] && u.sender.acked == t.sender.acked + Filter(Above(c), log)
  {
    var pending := Filter(Above(c), log);
    StartupAnswered(env, Reopened(t.sender, c, killed), log, slot);
    var b, r := RestartIs(env, log, t, slot, c, killed);
    AllOf(pending, b, r);
  }

  lemma AllOf(s: seq<Event>, b: nat, r: nat)
    requires b <= r <= |s| && s[b..] == []
    ensures s[..r] == s
  {
    assert |s[b..]| == |s| - b;
  }

  // ------------------------------------------------------------------ every acknowledgement is backed by a reply

  /** What was acknowledged from s to t is no more than the 2xx replies in between account for. */
  ghost predicate Backed(env: Env, s: State, t: State) {
    && s.requests <= t.requests && s.acked <= t.acked
    && |t.acked| <= |s.acked| + env.batchSize * Acks(env, s.requests, t.requests)
  }

  lemma BackedTwice(env: Env, s: State, t: State, u: State)
    requires Backed(env, s, t) && Backed(env, t, u)
    ensures Backed(env, s, u)
  {
    AcksJoin(env, s.requests, t.requests, u.requests);
    assert env.batchSize * (Acks(env, s.requests, t.requests) + Acks(env, t.requests, u.requests))
        == env.batchSize * Acks(env, s.requests, t.requests) + env.batchSize * Acks(env, t.requests, u.requests);
  }

  lemma NothingBacked(env: Env, s: State)
    ensures Backed(env, s, s)
  {
    NoAcks(env, s.requests, s.requests);
  }

  lemma AckedIsBacked(env: Env, s: State, t: State, work: seq<Event>, all: bool)
    requires AckedBy(env, s, t, work, all) && s.requests <= t.requests
    ensures Backed(env, s, t)
  {
  }

  lemma StepBacked(world: World, p: System, step: Step, i: nat)
    requires (forall k :: world(k).batchSize > 0) && |p.ledgers| == |p.targets| && Enabled(p, step) && i < |p.targets|
    ensures Backed(world(i), p.targets[i].sender, Next(world, p, step).targets[i].sender)
  {
    var t, env := p.targets[i], world(i);
    NothingBacked(env, t.sender);
    match step
    case Flush(k) =>
      if k == i { FlushBacked(env, t); }
    case Dequeue(k) =>
      if k == i { DequeueBacked(env, t); }
    case Restart(slot, cs, kept, killed) =>
      RestartBacked(env, t, Found(p, kept), slot, cs[i], killed);
    case _ =>
  }

  lemma FlushBacked(env: Env, t: Target)
    requires env.batchSize > 0
    ensures Backed(env, t.sender, FlushTarget(env, t).sender)
  {
    FlushByReplies(env, t);
    var u := FlushTarget(env, t);
    var work := Unsent(t.sender.lastSent, t.batch);
    AckedIsBacked(env, t.sender, u.sender, work, Delivered(env, t.sender, u.sender, work));
  }

  lemma DequeueBacked(env: Env, t: Target)
    requires env.batchSize > 0
    ensures Backed(env, t.sender, DequeueTarget(env, t).sender)
  {
    NothingBacked(env, t.sender);
    if t.queue != [] {
      FlushBacked(env, t.(batch := t.batch + [t.queue[0]], queue := t.queue[1..]));
    }
  }

  lemma RestartBacked(env: Env, t: Target, log: seq<Event>, slot: Option<int>, c: nat, killed: bool)
    requires env.batchSize > 0
    ensures Backed(env, t.sender, RestartTarget(env, t, log, slot, c, killed).sender)
  {
    var a := Reopened(t.sender, c, killed);
    var mid, m := StartupByReplies(env, a, log, slot);
    var pending := Filter(Above(c), log);
    var s := Startup(env, a, log, slot).0;
    var first, second := Unsent(c, pending[..m]), Unsent(mid.lastSent, pending[m..]);
    AckedIsBacked(env, a, mid, first, Delivered(env, a, mid, first));
    if Delivered(env, a, mid, first) {
      AckedIsBacked(env, mid, s, second, Delivered(env, mid, s, second));
      BackedTwice(env, a, mid, s);
    }
  }

  /** In every run, whatever crashes and fails, every event that counts as acknowledged by a target is
      accounted for by a 2xx reply of its receiver, a batch to each. */
  lemma {:induction false} AcksAreBacked(world: World, p: System, steps: seq<Step>, i: nat)
    requires (forall k :: world(k).batchSize > 0) && |p.ledgers| == |p.targets| && Possible(world, p, steps) && i < |p.targets|
    ensures Backed(world(i), p.targets[i].sender, Run(world, p, steps).targets[i].sender)
    decreases steps
  {
    if steps == [] {
      NothingBacked(world(i), p.targets[i].sender);
    } else {
      var q := Next(world, p, steps[0]);
      StepBacked(world, p, steps[0], i);
      AcksAreBacked(world, q, steps[1..], i);
      BackedTwice(world(i), p.targets[i].sender, q.targets[i].sender, Run(world, p, steps).targets[i].sender);
    }
  }

  // ------------------------------------------------------------------ every dropped event was rejected

  /** What a step makes target i send, if it makes it send its batch. */
  function Sends(env: Env, t: Target, step: Step, i: nat): seq<Event> {
    if step == Flush(i) then t.batch
    else if step == Dequeue(i) && t.queue != [] && |t.batch| + 1 >= env.batchSize then t.batch + [t.queue[0]]
    else []
  }

  /** On the way from t to u the batch with e was given up. */
  predicate RejectedBy(env: Env, t: Target, u: Target, step: Step, i: nat, e: Event) {
    e in Sends(env, t, step, i) && GivenUp(env, t.sender, u.sender, Unsent(t.sender.lastSent, Sends(env, t, step, i)))
  }

  predicate Rejected(world: World, p: System, steps: seq<Step>, i: nat, e: Event)
    requires (forall k :: world(k).batchSize > 0) && |p.ledgers| == |p.targets| && Possible(world, p, steps) && i < |p.targets|
    decreases steps
  {
    steps != [] &&
    var q := Next(world, p, steps[0]);
    RejectedBy(world(i), p.targets[i], q.targets[i], steps[0], i, e) || Rejected(world, q, steps[1..], i, e)
  }

  lemma FlushDrops(env: Env, t: Target, e: Event)
    requires env.batchSize > 0
    ensures var u := FlushTarget(env, t);
      e in u.dropped <==> e in t.dropped || (e in t.batch && GivenUp(env, t.sender, u.sender, Unsent(t.sender.lastSent, t.batch)))
  {
    FlushByReplies(env, t);
  }

  lemma DequeueDrops(env: Env, t: Target, i: nat, e: Event)
    requires env.batchSize > 0
    ensures var u := DequeueTarget(env, t); e in u.dropped <==> e in t.dropped || RejectedBy(env, t, u, Dequeue(i), i, e)
  {
    if t.queue != [] {
      FlushDrops(env, t.(batch := t.batch + [t.queue[0]], queue := t.queue[1..]), e);
    }
  }

  /** Steps other than those of the worker itself drop nothing. */
  lemma OthersDropNothing(world: World, p: System, step: Step, i: nat)
    requires (forall k :: world(k).batchSize > 0) && |p.ledgers| == |p.targets| && Enabled(p, step) && i < |p.targets|
    requires step != Flush(i) && step != Dequeue(i)
    ensures Next(world, p, step).targets[i].dropped == p.targets[i].dropped
  {
  }

  lemma WorkerSteps(world: World, p: System, i: nat)
    requires (forall k :: world(k).batchSize > 0) && |p.ledgers| == |p.targets| && i < |p.targets|
    ensures Next(world, p, Flush(i)).targets[i] == FlushTarget(world(i), p.targets[i])
    ensures Next(world, p, Dequeue(i)).targets[i] == DequeueTarget(world(i), p.targets[i])
  {
  }

  lemma StepDrops(world: World, p: System, step: Step, i: nat, e: Event)
    requires (forall k :: world(k).batchSize > 0) && |p.ledgers| == |p.targets| && Enabled(p, step) && i < |p.targets|
    ensures var t, u := p.targets[i], Next(world, p, step).targets[i];
      e in u.dropped <==> e in t.dropped || RejectedBy(world(i), t, u, step, i, e)
  {
    WorkerSteps(world, p, i);
    if step == Flush(i) {
      FlushDrops(world(i), p.targets[i], e);
    } else if step == Dequeue(i) {
      DequeueDrops(world(i), p.targets[i], i, e);
    } else {
      OthersDropNothing(world, p, step, i);
    }
  }

  /** In every run, an event counts as dropped by a target exactly when some batch with it met a 4xx as its
      last reply while the worker was not being stopped. */
  lemma {:induction false} DroppedIff(world: World, p: System, steps: seq<Step>, i: nat, e: Event)
    requires (forall k :: world(k).batchSize > 0) && |p.ledgers| == |p.targets| && Possible(world, p, steps) && i < |p.targets|
    ensures e in Run(world, p, steps).targets[i].dropped <==> e in p.targets[i].dropped || Rejected(world, p, steps, i, e)
    decreases steps
  {
    if steps != [] {
      StepDrops(world, p, steps[0], i, e);
      DroppedIff(world, Next(world, p, steps[0]), steps[1..], i, e);
    }
  }
}
