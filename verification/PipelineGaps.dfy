/** Where the delivery protocol falls short, from any state in which the target is idle
    (cmd/systemd-transition-exporter/main.go, internal/wal/wal.go, internal/remote_write/remote_write.go). */
module PipelineGaps {
  import opened Types
  import opened Sorting
  import opened Sender
  import opened Pipeline
  import opened TargetProgress
  import opened PipelineRuns

  /** A receiver that always accepts, a checkpoint that can always be saved, batches of one. */
  ghost predicate AlwaysAnswers(env: Env) {
    env.batchSize == 1 && (forall n :: Accepting(env.reply(n))) && forall n :: env.saves(n) >= SAVE_DONE
  }

  lemma SendOne(env: Env, s: State, e: Event)
    requires AlwaysAnswers(env)
    ensures var (t, out) := Send(env, s, [e]);
      && out == Sent
      && (e.sequence <= s.lastSent ==> t == s)
      && (e.sequence > s.lastSent ==>
            t.acked == s.acked + [e] && t.lastSent == e.sequence && t.onDisk == {e.sequence} && t.earlier == {})
  {
    UnsentOne(s.lastSent, e);
    if e.sequence > s.lastSent {
      ChunkOfOne(env, s, e);
    }
  }

  lemma UnsentOne(last: nat, e: Event)
    ensures Unsent(last, [e]) == if e.sequence > last then [e] else []
  {
    assert [e][..0] == [];
    var kept := Filter(Above(last), [e]);
    assert kept == if e.sequence > last then [e] else [];
    assert Sort(BySequence, kept) == kept;
  }

  lemma ChunkOfOne(env: Env, s: State, e: Event)
    requires AlwaysAnswers(env) && e.sequence > s.lastSent
    ensures SendChunks(env, s, [e]) == SendChunk(env, s, [e])
    ensures var (t, out) := SendChunk(env, s, [e]);
      && out == Sent && t.acked == s.acked + [e] && t.lastSent == e.sequence && t.onDisk == {e.sequence} && t.earlier == {}
  {
    assert Accepting(env.reply(s.requests)) && env.saves(s.saveCount) >= SAVE_DONE;
    assert [e][..1] == [e] && [e][1..] == [];
    var (t, out) := SendChunk(env, s, [e]);
    assert out == Sent;
    assert SendChunks(env, t, []) == (t, Sent);
  }

  lemma FlushOne(env: Env, s: State, e: Event)
    requires AlwaysAnswers(env)
    ensures FlushTarget(env, Target(s, [e], [], [])) == Target(Send(env, s, [e]).0, [], [], [])
  {
    SendOne(env, s, e);
    FlushIs(env, Target(s, [e], [], []), Send(env, s, [e]).0, Sent);
  }

  // ------------------------------------------------------------------ single steps with one target

  /** One target, idle, with nothing deferred. */
  ghost predicate AtRest(world: World, p: System, s: State) {
    && (forall i :: world(i).batchSize > 0) && AlwaysAnswers(world(0))
    && p.targets == Idle(s) && |p.ledgers| == 1 && p.deferred == []
  }

  function Idle(s: State): seq<Target> { [Target(s, [], [], [])] }

  function Numbering(p: System, e: Event): Event { e.(sequence := p.counter + 1) }

  lemma EmitOne(world: World, p: System, s: State, e: Event, full: bool, refused: set<nat>)
    requires AtRest(world, p, s)
    ensures var a, q := Numbering(p, e), Next(world, p, Emit(e, full, refused));
      && q.counter == p.counter + 1 && q.saved == p.saved
      && q.log == (if full then p.log else p.log + [a]) && q.deferred == (if full then [a] else [])
      && q.targets == (if 0 in refused then Idle(s) else [Target(s, [], [a], [])])
      && q.ledgers[0].refused == p.ledgers[0].refused + (if 0 in refused then [a] else [])
  {
    var a, q := Numbering(p, e), Next(world, p, Emit(e, full, refused));
    assert [] + [a] == [a];
    assert q.targets[0] == if 0 in refused then Target(s, [], [], []) else Target(s, [], [a], []);
    assert p.ledgers[0].refused + [] == p.ledgers[0].refused;
  }

  lemma DequeueOne(world: World, p: System, s: State, e: Event) returns (u: State)
    requires (forall i :: world(i).batchSize > 0) && AlwaysAnswers(world(0)) && |p.ledgers| == 1
    requires p.targets == [Target(s, [], [e], [])]
    ensures Enabled(p, Dequeue(0)) && Next(world, p, Dequeue(0)) == p.(targets := Idle(u))
    ensures e.sequence <= s.lastSent ==> u == s
    ensures e.sequence > s.lastSent ==> u.acked == s.acked + [e] && u.lastSent == e.sequence && u.onDisk == {e.sequence} && u.earlier == {}
  {
    FlushOne(world(0), s, e);
    FullBatch(world(0), s, e);
    SendOne(world(0), s, e);
    u := Send(world(0), s, [e]).0;
    WorkerStep(world, p, u);
  }

  lemma FullBatch(env: Env, s: State, e: Event)
    requires env.batchSize == 1
    ensures DequeueTarget(env, Target(s, [], [e], [])) == FlushTarget(env, Target(s, [e], [], []))
  {
    assert [] + [e] == [e] && [e][1..] == [];
  }

  lemma WorkerStep(world: World, p: System, s: State)
    requires (forall i :: world(i).batchSize > 0) && |p.targets| == |p.ledgers| == 1
    requires DequeueTarget(world(0), p.targets[0]) == Target(s, [], [], [])
    ensures Enabled(p, Dequeue(0)) && Next(world, p, Dequeue(0)) == p.(targets := Idle(s))
  {
    assert p.targets[0 := Target(s, [], [], [])] == Idle(s);
  }

  /** A restart that finds nothing above the checkpoint. */
  lemma RestartOne(world: World, p: System, s: State, c: nat)
    requires (forall i :: world(i).batchSize > 0) && p.targets == Idle(s) && |p.ledgers| == 1 && c in Revealed(s)
    requires forall k :: 0 <= k < |p.log| ==> p.log[k].sequence <= c
    ensures Enabled(p, Restart(None, [c], 0, false))
    ensures var q := Next(world, p, Restart(None, [c], 0, false));
      q.counter == Highest(p.saved, p.log) && q.deferred == [] && q.targets == Idle(Reopened(s, c, false))
  {
    var q := Next(world, p, Restart(None, [c], 0, false));
    assert p.log + p.deferred[..0] == p.log;
    FilterNone(Above(c), p.log);
    assert Unsent(c, []) == [];
    assert q.targets[0] == RestartTarget(world(0), Target(s, [], [], []), p.log, None, c, false);
  }

  lemma LogBelow(p: System, k: nat)
    requires Numbered(p) && k < |p.log|
    ensures p.log[k].sequence <= p.counter
  {
    assert Accepted(p)[k] == p.log[k];
    BelowLastMark(0, Accepted(p), p.log[k]);
  }

  // ------------------------------------------------------------------ the gaps

  /** A crash while a write is deferred: the event was sent and checkpointed but is not in the log, so
      the restarted counter is behind the checkpoint, unless a saved state covers the event. */
  lemma CrashWhileDeferredRewinds(world: World, p: System, s: State, event: Event) returns (p1: System, p2: System, p3: System)
    requires AtRest(world, p, s) && Numbered(p) && s.lastSent <= p.counter
    ensures p1 == Next(world, p, Emit(event, true, {}))
    ensures Enabled(p1, Dequeue(0)) && p2 == Next(world, p1, Dequeue(0))
    ensures Enabled(p2, Restart(None, [p.counter + 1], 0, false)) && p3 == Next(world, p2, Restart(None, [p.counter + 1], 0, false))
    ensures |p3.targets| == 1 && p3.targets == Idle(p3.targets[0].sender) && |p3.ledgers| == 1 && p3.deferred == []
    ensures p3.counter <= p.counter < p3.targets[0].sender.lastSent
    ensures p3.targets[0].sender.acked == s.acked + [Numbering(p, event)]
  {
    var a, c := Numbering(p, event), p.counter + 1;
    EmitOne(world, p, s, event, true, {});
    p1 := Next(world, p, Emit(event, true, {}));
    var s2 := DequeueOne(world, p1, s, a);
    p2 := p1.(targets := Idle(s2));
    forall k | 0 <= k < |p2.log| ensures p2.log[k].sequence <= c {
      LogBelow(p, k);
    }
    RestartOne(world, p2, s2, c);
    p3 := Next(world, p2, Restart(None, [c], 0, false));
    RestoredCounter(p);
  }

  lemma RestoredCounter(p: System)
    requires Numbered(p)
    ensures Highest(p.saved, p.log) <= p.counter
  {
    FoundIsPrefix(p, 0);
    assert p.log + p.deferred[..0] == p.log;
    OrderedPrefix(0, Accepted(p), |p.log|);
    HighestIsLast(p.saved, p.log);
  }

  /** A target whose checkpoint is ahead of the counter takes the next durable event for one already
      sent: it leaves the queue and is neither acknowledged nor reported dropped. */
  lemma CheckpointAheadSkips(world: World, p: System, s: State, next: Event) returns (p1: System, p2: System)
    requires AtRest(world, p, s) && p.counter < s.lastSent
    ensures p1 == Next(world, p, Emit(next, false, {}))
    ensures Enabled(p1, Dequeue(0)) && p2 == Next(world, p1, Dequeue(0))
    ensures Numbering(p, next) in p2.log && p2.targets == Idle(s)
  {
    var b := Numbering(p, next);
    EmitOne(world, p, s, next, false, {});
    p1 := Next(world, p, Emit(next, false, {}));
    assert p1.log[|p.log|] == b;
    var u := DequeueOne(world, p1, s, b);
    p2 := p1.(targets := Idle(u));
  }

  /** A refused enqueue, or an append that fails after its record was written: the event stays in the
      log, but the next one raises the checkpoint over it. */
  lemma RefusedEnqueueIsPassedOver(world: World, p: System, s: State, first: Event, next: Event)
      returns (p1: System, p2: System, p3: System)
    requires AtRest(world, p, s) && s.lastSent <= p.counter && Numbering(p, first) !in s.acked
    ensures p1 == Next(world, p, Emit(first, false, {0}))
    ensures p2 == Next(world, p1, Emit(next, false, {}))
    ensures Enabled(p2, Dequeue(0)) && p3 == Next(world, p2, Dequeue(0))
    ensures |p3.targets| == 1 && p3.targets == Idle(p3.targets[0].sender)
    ensures Refused(p3, 0, Numbering(p, first)) && !Settled(p3.targets[0], Numbering(p, first))
    ensures Numbering(p, first).sequence < p3.targets[0].sender.lastSent
  {
    var a := Numbering(p, first);
    EmitOne(world, p, s, first, false, {0});
    p1 := Next(world, p, Emit(first, false, {0}));
    assert p1.log[|p.log|] == a && p1.ledgers[0].refused[|p.ledgers[0].refused|] == a;
    p2, p3 := DeliverNext(world, p1, s, a, next);
  }

  lemma DeliverNext(world: World, p: System, s: State, a: Event, next: Event) returns (p1: System, p2: System)
    requires AtRest(world, p, s) && s.lastSent < p.counter == a.sequence && a !in s.acked && Refused(p, 0, a)
    ensures p1 == Next(world, p, Emit(next, false, {}))
    ensures Enabled(p1, Dequeue(0)) && p2 == Next(world, p1, Dequeue(0))
    ensures |p2.targets| == 1 && p2.targets == Idle(p2.targets[0].sender)
    ensures Refused(p2, 0, a) && !Settled(p2.targets[0], a) && a.sequence < p2.targets[0].sender.lastSent
  {
    p1 := EmitNext(world, p, s, a, next);
    var u := DequeueOne(world, p1, s, Numbering(p, next));
    p2 := p1.(targets := Idle(u));
    Untouched(s, u, a, Numbering(p, next));
  }

  lemma EmitNext(world: World, p: System, s: State, a: Event, next: Event) returns (p1: System)
    requires AtRest(world, p, s) && Refused(p, 0, a)
    ensures p1 == Next(world, p, Emit(next, false, {})) && |p1.ledgers| == 1
    ensures p1.targets == [Target(s, [], [Numbering(p, next)], [])] && Refused(p1, 0, a)
  {
    EmitOne(world, p, s, next, false, {});
    p1 := Next(world, p, Emit(next, false, {}));
    assert a in p.log ==> a in p.log + [Numbering(p, next)];
    assert p.ledgers[0].refused + [] == p.ledgers[0].refused;
  }

  lemma Untouched(s: State, u: State, a: Event, b: Event)
    requires u.acked == s.acked + [b] && a !in s.acked && a.sequence < b.sequence
    ensures !Settled(Idle(u)[0], a)
  {
  }
}
