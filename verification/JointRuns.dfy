/** Write-ahead log, workers and engine counter run together: every such run is a run of the delivery
    protocol (cmd/systemd-transition-exporter/main.go; internal/wal/wal.go; internal/delivery/worker.go). */
module JointRuns {
  import opened Types
  import LogBytes
  import Wal
  import Pipeline
  import PipelineRuns
  import DurableLog
  import EngineOrder
  import Sorting

  /** The log with the file under it, the engine's counter, the workers, and the highest sequence among the
      states in the state file. */
  datatype Process = Process(log: Wal.Log, counter: nat, targets: seq<Pipeline.Target>, saved: nat)

  /** What happens. saved is the highest sequence in the state file afterwards. */
  datatype Act =
    | Appends(event: Event, refused: set<nat>, saved: nat)
    | Saves(state: ServiceState, saved: nat)
    | Works(step: Pipeline.Step)
    | Crashes(crash: Wal.Crash, slot: Option<int>, checkpoints: seq<nat>)

  /** The event as the engine numbers it. */
  function Stamped(r: Process, event: Event): Event { event.(sequence := r.counter + 1) }

  /** h is the highest sequence among the states in the file. */
  ghost predicate HighestSaved(file: Wal.StateFile, h: nat) {
    && DurableLog.SavedIn(h, file)
    && (file.Holds? ==> forall k :: k in file.states && file.states[k].service != "" ==> file.states[k].lastSequence <= h)
  }

  /** Acts that are possible, with no torn write. No saved state is ahead of the counter. */
  ghost predicate Doable(env: Wal.Env, r: Process, act: Act) {
    match act
    case Appends(event, _, saved) => Wal.AppendClean(env, r.log, Stamped(r, event)) && saved <= r.counter + 1
    case Saves(state, saved) => Wal.SaveClean(env, r.log, state) && saved <= r.counter
    case Works(step) => (step.Dequeue? || step.Flush?) && step.target < |r.targets|
    case Crashes(crash, slot, cs) =>
      && Wal.Survives(r.log, crash) && |cs| == |r.targets|
      && forall i :: 0 <= i < |cs| ==> PipelineRuns.StartsFrom(r.targets[i].sender, cs[i], crash.Killed?)
  }

  /** One act. An append that reports an error enqueues nothing; a crash restarts everything from what is
      found in the files. */
  function After(env: Wal.Env, world: Pipeline.World, r: Process, act: Act): Process
    requires (forall i :: world(i).batchSize > 0)
    requires act.Crashes? ==> Wal.Survives(r.log, act.crash) && |act.checkpoints| == |r.targets|
    requires act.Works? ==> (act.step.Dequeue? || act.step.Flush?) && act.step.target < |r.targets|
  {
    match act
    case Appends(event, refused, saved) =>
      var e := Stamped(r, event);
      var (t, err) := Wal.Append(env, r.log, e);
      Process(t, r.counter + 1, if err == Wal.Fine then Pipeline.EnqueueAll(r.targets, e, refused) else r.targets, saved)
    case Saves(state, saved) => r.(log := Wal.SaveState(env, r.log, state).0, saved := saved)
    case Works(step) =>
      var i := step.target;
      r.(targets := r.targets[i := PipelineRuns.Worked(world(i), r.targets[i], step)])
    case Crashes(crash, slot, cs) =>
      var found := DurableLog.Recovered(env, r.log, crash);
      Process(Wal.Reopen(env, r.log, crash), Highest(r.saved, found),
              Pipeline.RestartAll(world, r.targets, found, slot, cs, crash.Killed?), r.saved)
  }

  /** saved is what it stands for. */
  ghost predicate SavedRight(r: Process) { HighestSaved(r.log.stateFile, r.saved) }

  ghost predicate AllDoable(env: Wal.Env, world: Pipeline.World, r: Process, acts: seq<Act>)
    requires forall i :: world(i).batchSize > 0
    decreases acts
  {
    && SavedRight(r)
    && (acts != [] ==> Doable(env, r, acts[0]) && AllDoable(env, world, After(env, world, r, acts[0]), acts[1..]))
  }

  ghost function Run(env: Wal.Env, world: Pipeline.World, r: Process, acts: seq<Act>): Process
    requires (forall i :: world(i).batchSize > 0) && AllDoable(env, world, r, acts)
    decreases acts
  {
    if acts == [] then r else Run(env, world, After(env, world, r, acts[0]), acts[1..])
  }

  /** The event, if the append is one that target i is not given: it has no room, or the program took the
      append for failed. */
  function MissedIf(e: Event, refused: set<nat>, fine: bool, i: nat): seq<Event> { if i in refused || !fine then [e] else [] }

  function Fine(env: Wal.Env, r: Process, event: Event): bool { Wal.Append(env, r.log, Stamped(r, event)).1 == Wal.Fine }

  function MissedBy(env: Wal.Env, r: Process, act: Act, i: nat): seq<Event> {
    if act.Appends? then MissedIf(Stamped(r, act.event), act.refused, Fine(env, r, act.event), i) else []
  }

  /** The events of a run that target i was not given when they were emitted. */
  ghost function Missed(env: Wal.Env, world: Pipeline.World, r: Process, acts: seq<Act>, i: nat): seq<Event>
    requires (forall k :: world(k).batchSize > 0) && AllDoable(env, world, r, acts)
    decreases acts
  {
    if acts == [] then []
    else MissedBy(env, r, acts[0], i) + Missed(env, world, After(env, world, r, acts[0]), acts[1..], i)
  }

  /** From p to q nothing but extra was added to the refusals of target i. */
  ghost predicate Adds(p: Pipeline.System, q: Pipeline.System, i: nat, extra: seq<Event>) {
    && i < |p.ledgers| && i < |q.ledgers|
    && forall e :: e in q.ledgers[i].refused ==> e in p.ledgers[i].refused || e in extra
  }

  lemma AddsTwice(p: Pipeline.System, a: Pipeline.System, q: Pipeline.System, i: nat, x: seq<Event>, y: seq<Event>)
    requires Adds(p, a, i, x) && Adds(a, q, i, y)
    ensures Adds(p, q, i, x + y)
  {
  }

  /** The protocol state p stands for the process. */
  ghost predicate Matches(env: Wal.Env, r: Process, p: Pipeline.System) {
    && DurableLog.Represents(env, r.log, p)
    && p.counter == r.counter && p.targets == r.targets && p.saved == r.saved
  }

  /** The act leaves target i no checkpoint ahead of the restored counter. */
  ghost predicate Harmless(env: Wal.Env, r: Process, act: Act, i: nat)
    requires Doable(env, r, act) && i < |r.targets|
  {
    act.Crashes? ==>
      forall c :: c in PipelineRuns.LeftBy(r.targets[i].sender, act.checkpoints[i], act.crash.Killed?) ==>
        c <= Highest(r.saved, DurableLog.Recovered(env, r.log, act.crash))
  }

  lemma NobodyEnqueues(targets: seq<Pipeline.Target>, e: Event, refused: set<nat>)
    requires forall i :: 0 <= i < |targets| ==> i in refused
    ensures Pipeline.EnqueueAll(targets, e, refused) == targets
  {
  }

  /** What the step of an append makes of the protocol. */
  function Appended(p: Pipeline.System, step: Pipeline.Step): Pipeline.System {
    if step.Emit? then Pipeline.EmitTo(p, PipelineRuns.EmittedBy(p, step), step.full, step.refused)
    else p.(counter := p.counter + 1)
  }

  lemma NextAppends(world: Pipeline.World, p: Pipeline.System, step: Pipeline.Step)
    requires (forall i :: world(i).batchSize > 0) && |p.ledgers| == |p.targets| && (step.Emit? || step.AppendFails?)
    ensures Pipeline.Next(world, p, step) == Appended(p, step)
  {
    if step.Emit? {
      PipelineRuns.NextEmits(world, p, step);
    } else {
      PipelineRuns.NextFails(world, p);
    }
  }

  /** What an append makes of the workers is what its step of the protocol makes of them. */
  lemma TargetsOf(p: Pipeline.System, step: Pipeline.Step, event: Event, refused: set<nat>, fine: bool)
    requires IsKind(p, step, event, refused, fine)
    ensures var e, q := event.(sequence := p.counter + 1), Appended(p, step);
      && q.saved == p.saved && q.counter == p.counter + 1
      && q.targets == if fine then Pipeline.EnqueueAll(p.targets, e, refused) else p.targets
  {
    if !fine && step.Emit? {
      NobodyEnqueues(p.targets, event.(sequence := p.counter + 1), DurableLog.AllBelow(|p.targets|));
    }
    if step.Emit? {
      EmitTargets(p, event.(sequence := p.counter + 1), step.full, step.refused);
    }
  }

  lemma EmitTargets(p: Pipeline.System, e: Event, full: bool, refused: set<nat>)
    ensures var q := Pipeline.EmitTo(p, e, full, refused);
      q.saved == p.saved && q.counter == p.counter + 1 && q.targets == Pipeline.EnqueueAll(p.targets, e, refused)
  {
  }

  /** What an append adds to the refusals is what the target is not given. */
  lemma RefusalsOf(p: Pipeline.System, step: Pipeline.Step, event: Event, refused: set<nat>, fine: bool, i: nat)
    requires |p.ledgers| == |p.targets| && i < |p.ledgers|
    requires IsKind(p, step, event, refused, fine)
    ensures Adds(p, Appended(p, step), i, MissedIf(event.(sequence := p.counter + 1), refused, fine, i))
  {
    if step.Emit? {
      PipelineRuns.EmitPartsOf(p, i, event.(sequence := p.counter + 1), step.full, step.refused);
    }
  }

  /** Some of what is deferred becomes durable, and a state is saved. */
  lemma WriteAndSave(world: Pipeline.World, p: Pipeline.System, n: nat, saved: nat) returns (steps: seq<Pipeline.Step>, q: Pipeline.System)
    requires (forall i :: world(i).batchSize > 0) && |p.ledgers| == |p.targets| && n <= |p.deferred| && saved <= p.counter
    ensures PipelineRuns.Possible(world, p, steps) && q == PipelineRuns.Run(world, p, steps)
    ensures q == Pipeline.Write(p, n).(saved := saved) && PipelineRuns.NoRestart(steps)
  {
    var write, save, a := Pipeline.WriteDeferred(n), Pipeline.SaveStates(saved), Pipeline.Write(p, n);
    PipelineRuns.NextWrites(world, p, n);
    PipelineRuns.NextSaves(world, a, saved);
    PipelineRuns.RunOne(world, p, write);
    PipelineRuns.RunOne(world, a, save);
    PipelineRuns.RunConcat(world, p, [write], [save]);
    steps, q := [write] + [save], a.(saved := saved);
  }

  lemma AppendMatches(env: Wal.Env, world: Pipeline.World, r: Process, p: Pipeline.System, act: Act)
      returns (steps: seq<Pipeline.Step>, q: Pipeline.System)
    requires (forall i :: world(i).batchSize > 0) && LogBytes.Faithful(env.codec) && Matches(env, r, p)
    requires act.Appends? && Doable(env, r, act)
    ensures PipelineRuns.Possible(world, p, steps) && q == PipelineRuns.Run(world, p, steps)
    ensures Matches(env, After(env, world, r, act), q) && PipelineRuns.NoRestart(steps)
    ensures forall i: nat :: i < |p.ledgers| ==> Adds(p, q, i, MissedBy(env, r, act, i))
  {
    var fine := Fine(env, r, act.event);
    var first, a, n := AppendFirst(env, world, r, p, act, fine);
    var rest;
    rest, q := WriteAndSave(world, a, n, act.saved);
    steps := FirstThen(world, p, first, a, rest);
    AfterAppend(env, world, r, act, a, n, fine);
    forall i: nat | i < |p.ledgers| ensures Adds(p, q, i, MissedBy(env, r, act, i)) {
      assert Adds(p, a, i, MissedIf(Stamped(r, act.event), act.refused, fine, i));
    }
  }

  lemma FirstThen(world: Pipeline.World, p: Pipeline.System, first: Pipeline.Step, a: Pipeline.System, rest: seq<Pipeline.Step>)
      returns (steps: seq<Pipeline.Step>)
    requires (forall i :: world(i).batchSize > 0) && |p.ledgers| == |p.targets| && |a.ledgers| == |a.targets|
    requires (first.Emit? || first.AppendFails?) && a == Appended(p, first)
    requires PipelineRuns.Possible(world, a, rest) && PipelineRuns.NoRestart(rest)
    ensures PipelineRuns.Possible(world, p, steps) && PipelineRuns.NoRestart(steps)
    ensures PipelineRuns.Run(world, p, steps) == PipelineRuns.Run(world, a, rest)
  {
    NextAppends(world, p, first);
    PipelineRuns.RunOne(world, p, first);
    PipelineRuns.RunConcat(world, p, [first], rest);
    steps := [first] + rest;
  }

  lemma AfterAppend(env: Wal.Env, world: Pipeline.World, r: Process, act: Act, a: Pipeline.System, n: nat, fine: bool)
    requires (forall i :: world(i).batchSize > 0) && act.Appends? && n <= |a.deferred| && fine == Fine(env, r, act.event)
    requires a.counter == r.counter + 1 && DurableLog.Represents(env, Wal.Append(env, r.log, Stamped(r, act.event)).0, Pipeline.Write(a, n))
    requires a.targets == if fine then Pipeline.EnqueueAll(r.targets, Stamped(r, act.event), act.refused) else r.targets
    ensures Matches(env, After(env, world, r, act), Pipeline.Write(a, n).(saved := act.saved))
  {
  }

  /** The step an append is, how much it makes durable, and whom it does not reach. */
  lemma AppendFirst(env: Wal.Env, world: Pipeline.World, r: Process, p: Pipeline.System, act: Act, fine: bool)
      returns (first: Pipeline.Step, a: Pipeline.System, n: nat)
    requires (forall i :: world(i).batchSize > 0) && LogBytes.Faithful(env.codec) && Matches(env, r, p)
    requires act.Appends? && Doable(env, r, act) && fine == Fine(env, r, act.event)
    ensures (first.Emit? || first.AppendFails?) && a == Appended(p, first)
    ensures n <= |a.deferred| && |a.ledgers| == |a.targets| && a.counter == r.counter + 1
    ensures a.targets == if fine then Pipeline.EnqueueAll(r.targets, Stamped(r, act.event), act.refused) else r.targets
    ensures DurableLog.Represents(env, Wal.Append(env, r.log, Stamped(r, act.event)).0, Pipeline.Write(a, n))
    ensures AddsAll(p, a, Stamped(r, act.event), act.refused, fine)
  {
    first := AppendKind(env, r, p, act, fine);
    a, n := AppendDurable(env, world, r, p, act, first);
    AppendEffect(p, first, act.event, Stamped(r, act.event), act.refused, fine, a);
  }

  /** An append that reports success is an emit with the given refusals; any other reaches no target. */
  predicate IsKind(p: Pipeline.System, step: Pipeline.Step, event: Event, refused: set<nat>, fine: bool) {
    if fine then step == Pipeline.Emit(event, true, refused)
    else step == Pipeline.AppendFails || step == Pipeline.Emit(event, true, DurableLog.AllBelow(|p.targets|))
  }

  lemma AppendKind(env: Wal.Env, r: Process, p: Pipeline.System, act: Act, fine: bool) returns (first: Pipeline.Step)
    requires act.Appends? && p.counter == r.counter && fine == Fine(env, r, act.event)
    ensures first == DurableLog.AppendStep(env, r.log, p, act.event, act.refused)
    ensures IsKind(p, first, act.event, act.refused, fine)
  {
    first := DurableLog.AppendStep(env, r.log, p, act.event, act.refused);
  }

  /** Each target misses the event exactly if it is not given it. */
  ghost predicate AddsAll(p: Pipeline.System, q: Pipeline.System, e: Event, refused: set<nat>, fine: bool) {
    forall i: nat :: i < |p.ledgers| ==> Adds(p, q, i, MissedIf(e, refused, fine, i))
  }

  lemma AppendEffect(p: Pipeline.System, step: Pipeline.Step, event: Event, e: Event, refused: set<nat>, fine: bool, q: Pipeline.System)
    requires |p.ledgers| == |p.targets| && IsKind(p, step, event, refused, fine)
    requires e == event.(sequence := p.counter + 1) && q == Appended(p, step)
    ensures q.counter == p.counter + 1 && AddsAll(p, q, e, refused, fine)
    ensures q.targets == if fine then Pipeline.EnqueueAll(p.targets, e, refused) else p.targets
  {
    TargetsOf(p, step, event, refused, fine);
    forall i: nat | i < |p.ledgers| ensures Adds(p, q, i, MissedIf(e, refused, fine, i)) {
      RefusalsOf(p, step, event, refused, fine, i);
    }
  }

  lemma AppendDurable(env: Wal.Env, world: Pipeline.World, r: Process, p: Pipeline.System, act: Act, first: Pipeline.Step)
      returns (a: Pipeline.System, n: nat)
    requires (forall i :: world(i).batchSize > 0) && LogBytes.Faithful(env.codec) && Matches(env, r, p)
    requires act.Appends? && Doable(env, r, act)
    requires first == DurableLog.AppendStep(env, r.log, p, act.event, act.refused) && (first.Emit? || first.AppendFails?)
    ensures a == Appended(p, first) && n <= |a.deferred| && |a.ledgers| == |a.targets|
    ensures DurableLog.Represents(env, Wal.Append(env, r.log, Stamped(r, act.event)).0, Pipeline.Write(a, n))
  {
    var next;
    next, n := DurableLog.AppendRefines(env, world, r.log, p, act.event, act.refused);
    NextAppends(world, p, first);
    a := Appended(p, first);
    PipelineRuns.NextWrites(world, a, n);
  }

  lemma SaveMatches(env: Wal.Env, world: Pipeline.World, r: Process, p: Pipeline.System, act: Act)
      returns (steps: seq<Pipeline.Step>, q: Pipeline.System)
    requires (forall i :: world(i).batchSize > 0) && LogBytes.Faithful(env.codec) && Matches(env, r, p)
    requires act.Saves? && Doable(env, r, act)
    ensures PipelineRuns.Possible(world, p, steps) && q == PipelineRuns.Run(world, p, steps)
    ensures Matches(env, After(env, world, r, act), q) && PipelineRuns.NoRestart(steps)
    ensures forall i: nat :: i < |p.ledgers| ==> Adds(p, q, i, [])
  {
    var n := DurableLog.SaveStateRefines(env, world, r.log, p, act.state);
    PipelineRuns.NextWrites(world, p, n);
    steps, q := WriteAndSave(world, p, n, act.saved);
  }

  lemma WorkMatches(env: Wal.Env, world: Pipeline.World, r: Process, p: Pipeline.System, act: Act)
      returns (steps: seq<Pipeline.Step>, q: Pipeline.System)
    requires (forall i :: world(i).batchSize > 0) && Matches(env, r, p)
    requires act.Works? && Doable(env, r, act)
    ensures PipelineRuns.Possible(world, p, steps) && q == PipelineRuns.Run(world, p, steps)
    ensures Matches(env, After(env, world, r, act), q) && PipelineRuns.NoRestart(steps)
    ensures forall i: nat :: i < |p.ledgers| ==> Adds(p, q, i, [])
  {
    PipelineRuns.RunOne(world, p, act.step);
    steps, q := [act.step], Pipeline.Next(world, p, act.step);
  }

  lemma CrashMatches(env: Wal.Env, world: Pipeline.World, r: Process, p: Pipeline.System, act: Act)
      returns (steps: seq<Pipeline.Step>, q: Pipeline.System)
    requires (forall i :: world(i).batchSize > 0) && LogBytes.Faithful(env.codec) && Matches(env, r, p)
    requires act.Crashes? && Doable(env, r, act)
    ensures PipelineRuns.Possible(world, p, steps) && q == PipelineRuns.Run(world, p, steps)
    ensures Matches(env, After(env, world, r, act), q)
    ensures forall i: nat :: i < |r.targets| && Harmless(env, r, act, i) ==> PipelineRuns.HarmlessFor(world, p, steps, i)
    ensures forall i: nat :: i < |p.ledgers| ==> Adds(p, q, i, [])
  {
    var a, n, kept := DurableLog.CrashRefines(env, world, r.log, p, act.crash, act.slot, act.checkpoints);
    var restart := Pipeline.Restart(act.slot, act.checkpoints, kept, act.crash.Killed?);
    PipelineRuns.RunOne(world, p, Pipeline.WriteDeferred(n));
    PipelineRuns.RunOne(world, a, restart);
    PipelineRuns.RunConcat(world, p, [Pipeline.WriteDeferred(n)], [restart]);
    steps, q := [Pipeline.WriteDeferred(n)] + [restart], Pipeline.Next(world, a, restart);
    forall i: nat | i < |r.targets| && Harmless(env, r, act, i) ensures PipelineRuns.HarmlessFor(world, p, steps, i) {
      RestartIsHarmless(world, p, Pipeline.WriteDeferred(n), restart, i);
    }
    PipelineRuns.NextWrites(world, p, n);
    forall i: nat | i < |p.ledgers| ensures Adds(p, q, i, []) {
      RestartAdds(world, a, restart, i);
    }
  }

  /** A restart refuses nothing that was not refused before. */
  lemma RestartAdds(world: Pipeline.World, a: Pipeline.System, restart: Pipeline.Step, i: nat)
    requires (forall k :: world(k).batchSize > 0) && |a.ledgers| == |a.targets| && i < |a.ledgers|
    requires restart.Restart? && Pipeline.Enabled(a, restart)
    ensures Adds(a, Pipeline.Next(world, a, restart), i, [])
  {
    var c, found := restart.checkpoints[i], Pipeline.Found(a, restart.kept);
    Sorting.FilterMembers(Pipeline.PassedOver(a.ledgers[i].refused, c), found);
    assert Pipeline.Next(world, a, restart).ledgers[i] == Pipeline.NewLedger(a.ledgers[i], found, c);
  }

  lemma RestartIsHarmless(world: Pipeline.World, p: Pipeline.System, first: Pipeline.Step, restart: Pipeline.Step, i: nat)
    requires (forall k :: world(k).batchSize > 0) && |p.ledgers| == |p.targets| && i < |p.targets|
    requires !first.Restart? && Pipeline.Enabled(p, first)
    requires Pipeline.Enabled(Pipeline.Next(world, p, first), restart)
    requires PipelineRuns.Harmless(Pipeline.Next(world, p, first), restart, i)
    ensures PipelineRuns.Possible(world, p, [first] + [restart]) && PipelineRuns.HarmlessFor(world, p, [first] + [restart], i)
  {
    var a := Pipeline.Next(world, p, first);
    PipelineRuns.RunOne(world, p, first);
    PipelineRuns.RunOne(world, a, restart);
    PipelineRuns.NoRestartIsHarmless(world, p, [first], i);
    OneIsHarmless(world, a, restart, i);
    PipelineRuns.HarmlessConcat(world, p, [first], [restart], a, i);
  }

  lemma OneIsHarmless(world: Pipeline.World, p: Pipeline.System, step: Pipeline.Step, i: nat)
    requires (forall k :: world(k).batchSize > 0) && |p.ledgers| == |p.targets| && i < |p.targets|
    requires Pipeline.Enabled(p, step) && PipelineRuns.Possible(world, p, [step]) && PipelineRuns.Harmless(p, step, i)
    ensures PipelineRuns.HarmlessFor(world, p, [step], i)
  {
    assert [step][1..] == [];
    assert PipelineRuns.HarmlessFor(world, Pipeline.Next(world, p, step), [], i);
  }

  lemma ActMatches(env: Wal.Env, world: Pipeline.World, r: Process, p: Pipeline.System, act: Act)
      returns (steps: seq<Pipeline.Step>, q: Pipeline.System)
    requires (forall i :: world(i).batchSize > 0) && LogBytes.Faithful(env.codec) && Matches(env, r, p) && Doable(env, r, act)
    ensures PipelineRuns.Possible(world, p, steps) && q == PipelineRuns.Run(world, p, steps)
    ensures Matches(env, After(env, world, r, act), q)
    ensures forall i: nat :: i < |r.targets| && Harmless(env, r, act, i) ==> PipelineRuns.HarmlessFor(world, p, steps, i)
    ensures forall i: nat :: i < |p.ledgers| ==> Adds(p, q, i, MissedBy(env, r, act, i))
  {
    if act.Crashes? {
      steps, q := CrashMatches(env, world, r, p, act);
    } else {
      match act {
        case Appends(_, _, _) => steps, q := AppendMatches(env, world, r, p, act);
        case Saves(_, _) => steps, q := SaveMatches(env, world, r, p, act);
        case Works(_) => steps, q := WorkMatches(env, world, r, p, act);
      }
      forall i: nat | i < |r.targets| ensures PipelineRuns.HarmlessFor(world, p, steps, i) {
        PipelineRuns.NoRestartIsHarmless(world, p, steps, i);
      }
    }
  }

  /** So it is at every crash of the run. */
  ghost predicate HarmlessFor(env: Wal.Env, world: Pipeline.World, r: Process, acts: seq<Act>, i: nat)
    requires (forall k :: world(k).batchSize > 0) && AllDoable(env, world, r, acts)
    decreases acts
  {
    i < |r.targets| && (acts != [] ==>
      Harmless(env, r, acts[0], i) && HarmlessFor(env, world, After(env, world, r, acts[0]), acts[1..], i))
  }

  /** Any interleaving of log calls, worker steps and crashes is a run of the protocol, as harmless for each
      target as it is itself, in which a target refuses only what it was not given. */
  lemma {:induction false} RunRefines(env: Wal.Env, world: Pipeline.World, r: Process, acts: seq<Act>, p: Pipeline.System)
      returns (steps: seq<Pipeline.Step>)
    requires (forall i :: world(i).batchSize > 0) && LogBytes.Faithful(env.codec) && Matches(env, r, p)
    requires AllDoable(env, world, r, acts)
    ensures PipelineRuns.Possible(world, p, steps)
    ensures Matches(env, Run(env, world, r, acts), PipelineRuns.Run(world, p, steps))
    ensures forall i: nat :: HarmlessFor(env, world, r, acts, i) ==> i < |p.targets| && PipelineRuns.HarmlessFor(world, p, steps, i)
    ensures forall i: nat :: i < |p.ledgers| ==> Adds(p, PipelineRuns.Run(world, p, steps), i, Missed(env, world, r, acts, i))
    decreases acts
  {
    if acts == [] {
      steps := [];
    } else {
      var first, q := ActMatches(env, world, r, p, acts[0]);
      var rest := RunRefines(env, world, After(env, world, r, acts[0]), acts[1..], q);
      PipelineRuns.RunConcat(world, p, first, rest);
      steps := first + rest;
      forall i: nat | HarmlessFor(env, world, r, acts, i) ensures i < |p.targets| && PipelineRuns.HarmlessFor(world, p, steps, i) {
        PipelineRuns.HarmlessConcat(world, p, first, rest, q, i);
      }
      var end := PipelineRuns.Run(world, q, rest);
      forall i: nat | i < |p.ledgers| ensures Adds(p, end, i, Missed(env, world, r, acts, i)) {
        AddsTwice(p, q, end, i, MissedBy(env, r, acts[0], i), Missed(env, world, After(env, world, r, acts[0]), acts[1..], i));
      }
    }
  }

  /** The counter After gives a process after a crash is the one an engine gets by restoring the states in
      the file and replaying the recovered log. */
  lemma CounterIsRestored(env: Wal.Env, s: Wal.Log, crash: Wal.Crash, delayed: set<string>, saved: seq<ServiceState>, h: nat)
    requires Wal.Survives(s, crash) && HighestSaved(s.stateFile, h) && DurableLog.Lists(saved, Wal.Reopen(env, s, crash).states)
    ensures EngineOrder.Restarted(delayed, saved, DurableLog.Recovered(env, s, crash)).counter
            == Highest(h, DurableLog.Recovered(env, s, crash))
  {
    EngineOrder.ReplayedCounter(EngineOrder.RestoreAll(EngineOrder.Fresh(delayed), saved), DurableLog.Recovered(env, s, crash));
    DurableLog.RestoresSaved(env, s, crash, delayed, saved, h);
    NothingHigher(env, s, crash, delayed, saved, h);
  }

  lemma NothingHigher(env: Wal.Env, s: Wal.Log, crash: Wal.Crash, delayed: set<string>, saved: seq<ServiceState>, h: nat)
    requires Wal.Survives(s, crash) && HighestSaved(s.stateFile, h) && DurableLog.Lists(saved, Wal.Reopen(env, s, crash).states)
    ensures DurableLog.Restored(delayed, saved) <= h
  {
    EngineOrder.RestoredCounter(EngineOrder.Fresh(delayed), saved);
    var c := DurableLog.Restored(delayed, saved);
    if c > 0 {
      var i :| 0 <= i < |saved| && saved[i].service != "" && saved[i].lastSequence == c;
      assert saved[i] in saved;
    }
  }

  /** A process on an empty disk. */
  function New(targets: nat): Process {
    Process(Wal.Log([], 0, Wal.Missing, map[], [], false, false, false, 0), 0, Pipeline.Initial(targets).targets, 0)
  }

  lemma NewMatches(env: Wal.Env, targets: nat)
    ensures Matches(env, New(targets), Pipeline.Initial(targets))
  {
  }

  /** From the bytes of the log to the receivers: in any interleaving from an empty disk that is harmless for
      target i, every event the log holds was acknowledged by i, was reported dropped, waits in its worker, or
      was not given to it when it was emitted; once a checkpoint covers it that a power loss may reveal, it
      no longer just waits. No checkpoint of i is ahead of the counter. */
  lemma HeldIsDelivered(env: Wal.Env, world: Pipeline.World, targets: nat, acts: seq<Act>, i: nat)
    requires (forall k :: world(k).batchSize > 0) && LogBytes.Faithful(env.codec)
    requires AllDoable(env, world, New(targets), acts) && HarmlessFor(env, world, New(targets), acts, i)
    ensures Delivered(env, Run(env, world, New(targets), acts), i, Missed(env, world, New(targets), acts, i))
  {
    var steps := Refined(env, world, targets, acts, i);
    var p := PipelineRuns.Run(world, Pipeline.Initial(targets), steps);
    PipelineRuns.DeliveredOrRefused(world, targets, steps, i);
    Transfers(env, Run(env, world, New(targets), acts), p, i, Missed(env, world, New(targets), acts, i));
  }

  ghost predicate Delivered(env: Wal.Env, r: Process, i: nat, missed: seq<Event>) {
    && i < |r.targets|
    && (forall e :: e in Wal.Held(env, r.log) ==>
          Pipeline.Settled(r.targets[i], e) || e in r.targets[i].batch || e in r.targets[i].queue || e in missed)
    && (forall c, e :: c in PipelineRuns.Checkpoints(r.targets[i]) && e in Wal.Held(env, r.log) && e.sequence <= c ==>
          Pipeline.Settled(r.targets[i], e) || e in missed)
    && (forall c :: c in PipelineRuns.Checkpoints(r.targets[i]) ==> c <= r.counter)
  }

  lemma Transfers(env: Wal.Env, r: Process, p: Pipeline.System, i: nat, missed: seq<Event>)
    requires Matches(env, r, p) && i < |p.targets| && PipelineRuns.DeliveredAt(p, i)
    requires forall e :: e in p.ledgers[i].refused ==> e in missed
    ensures Delivered(env, r, i, missed)
  {
  }

  lemma Refined(env: Wal.Env, world: Pipeline.World, targets: nat, acts: seq<Act>, i: nat) returns (steps: seq<Pipeline.Step>)
    requires (forall k :: world(k).batchSize > 0) && LogBytes.Faithful(env.codec)
    requires AllDoable(env, world, New(targets), acts) && HarmlessFor(env, world, New(targets), acts, i)
    ensures PipelineRuns.RunFor(world, targets, steps, i)
    ensures var p := PipelineRuns.Run(world, Pipeline.Initial(targets), steps);
      && Matches(env, Run(env, world, New(targets), acts), p) && i < |p.ledgers|
      && forall e :: e in p.ledgers[i].refused ==> e in Missed(env, world, New(targets), acts, i)
  {
    NewMatches(env, targets);
    steps := RunRefines(env, world, New(targets), acts, Pipeline.Initial(targets));
    assert |Pipeline.Initial(targets).targets| == targets;
    assert Pipeline.Initial(targets).ledgers[i].refused == [];
    assert Adds(Pipeline.Initial(targets), PipelineRuns.Run(world, Pipeline.Initial(targets), steps), i, Missed(env, world, New(targets), acts, i));
  }

  /** In every run saved is the highest sequence in the state file, so that CounterIsRestored applies to each
      of its crashes. */
  lemma {:induction false} SavedStaysRight(env: Wal.Env, world: Pipeline.World, r: Process, acts: seq<Act>)
    requires (forall k :: world(k).batchSize > 0) && AllDoable(env, world, r, acts)
    ensures SavedRight(Run(env, world, r, acts))
    decreases acts
  {
    if acts != [] {
      SavedStaysRight(env, world, After(env, world, r, acts[0]), acts[1..]);
    }
  }
}
