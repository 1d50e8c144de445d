/** The write-ahead log behind the delivery protocol: what a power loss cannot take and what it still can
    are the two parts of the log the protocol is built on
    (cmd/systemd-transition-exporter/main.go, appendEvent and persistEvent; internal/wal/wal.go). */
module DurableLog {
  import opened Types
  import LogBytes
  import Wal
  import Pipeline
  import PipelineRuns
  import EngineOrder

  /** The synced records of the file are the durable log; records written but not synced, and those
      still in memory, are deferred. */
  ghost predicate Represents(env: Wal.Env, s: Wal.Log, p: Pipeline.System) {
    && Wal.Sound(env, s) && |p.ledgers| == |p.targets|
    && p.log == Wal.Durable(env, s)
    && p.log + p.deferred == Wal.Held(env, s)
  }

  lemma DurableWithinHeld(env: Wal.Env, s: Wal.Log)
    requires Wal.Sound(env, s)
    ensures Wal.Durable(env, s) <= LogBytes.Events(env.codec, s.data) <= Wal.Held(env, s)
  {
    LogBytes.ReadPrefix(env.codec, s.data, s.synced);
    var all, file := Wal.Held(env, s), LogBytes.Events(env.codec, s.data);
    assert all[..|file|] == file;
  }

  /** A part of what is accepted, no smaller than the durable one. */
  lemma Split(log: seq<Event>, deferred: seq<Event>, part: seq<Event>) returns (n: nat)
    requires log <= part <= log + deferred
    ensures n <= |deferred| && log + deferred[..n] == part && part + deferred[n..] == log + deferred
  {
    n := |part| - |log|;
    assert part == (log + deferred)[..|part|] == log + deferred[..n];
  }

  // ------------------------------------------------------------------ appends

  function AllBelow(n: nat): (r: set<nat>)
    ensures forall i: nat :: i in r <==> i < n
  {
    if n == 0 then {} else AllBelow(n - 1) + {n - 1}
  }

  /** What an Append is to the protocol: the event is emitted, to no target when the program took the
      append for failed although the record is in the file; or only the counter moved. */
  function AppendStep(env: Wal.Env, s: Wal.Log, p: Pipeline.System, event: Event, refused: set<nat>): Pipeline.Step {
    var e := event.(sequence := p.counter + 1);
    if !Wal.Accepts(env, s, e) then Pipeline.AppendFails
    else Pipeline.Emit(event, true, if Wal.Append(env, s, e).1 == Wal.Fine then refused else AllBelow(|p.targets|))
  }

  /** Every Append, successful or not, is a step of the protocol, behind which some of what is deferred,
      the event perhaps included, becomes durable. */
  lemma AppendRefines(env: Wal.Env, world: Pipeline.World, s: Wal.Log, p: Pipeline.System, event: Event, refused: set<nat>)
      returns (a: Pipeline.System, n: nat)
    requires LogBytes.Faithful(env.codec) && Represents(env, s, p) && forall i :: world(i).batchSize > 0
    requires Wal.AppendClean(env, s, event.(sequence := p.counter + 1))
    ensures a == Pipeline.Next(world, p, AppendStep(env, s, p, event, refused)) && a.counter == p.counter + 1
    ensures Pipeline.Enabled(a, Pipeline.WriteDeferred(n))
    ensures var t := Wal.Append(env, s, event.(sequence := p.counter + 1)).0;
      Represents(env, t, Pipeline.Next(world, a, Pipeline.WriteDeferred(n)))
  {
    var e := event.(sequence := p.counter + 1);
    var t := Wal.Append(env, s, e).0;
    var added := if Wal.Accepts(env, s, e) then [e] else [];
    a := Pipeline.Next(world, p, AppendStep(env, s, p, event, refused));
    StepAdds(world, p, AppendStep(env, s, p, event, refused), event);
    var w := Wal.AppendKeeps(env, s, e, map[]);
    n := GrownLog(env, s, t, p.log, p.deferred, a.deferred, w, added);
  }

  /** An Append that fails with its record in the file counts as refused by every target. */
  lemma UnsyncedIsRefusedByAll(env: Wal.Env, world: Pipeline.World, s: Wal.Log, p: Pipeline.System, event: Event,
                               refused: set<nat>, i: nat)
    requires |p.ledgers| == |p.targets| && i < |p.targets| && forall i :: world(i).batchSize > 0
    requires Wal.WrittenButUnsynced(env, s, event.(sequence := p.counter + 1))
    ensures var e := event.(sequence := p.counter + 1);
      var a := Pipeline.Next(world, p, AppendStep(env, s, p, event, refused));
      Wal.Append(env, s, e).1 != Wal.Fine && e in a.ledgers[i].refused && a.targets[i] == p.targets[i]
  {
    UnsyncedFails(env, s, event.(sequence := p.counter + 1));
    var all := AllBelow(|p.targets|);
    assert AppendStep(env, s, p, event, refused) == Pipeline.Emit(event, true, all);
    StepAdds(world, p, Pipeline.Emit(event, true, all), event);
  }

  lemma UnsyncedFails(env: Wal.Env, s: Wal.Log, e: Event)
    requires Wal.WrittenButUnsynced(env, s, e)
    ensures Wal.Append(env, s, e).1 == Wal.Broken
  {
  }

  lemma StepAdds(world: Pipeline.World, p: Pipeline.System, step: Pipeline.Step, event: Event)
    requires |p.ledgers| == |p.targets| && forall i :: world(i).batchSize > 0
    requires step == Pipeline.AppendFails || (step.Emit? && step.event == event && step.full)
    ensures var e := event.(sequence := p.counter + 1);
      var a := Pipeline.Next(world, p, step);
      && a.log == p.log && a.counter == p.counter + 1
      && a.deferred == p.deferred + (if step.Emit? then [e] else [])
      && (step.Emit? ==> forall i :: 0 <= i < |p.targets| && i in step.refused ==> e in a.ledgers[i].refused)
  {
    assert p.deferred + [] == p.deferred;
  }

  lemma GrownLog(env: Wal.Env, s: Wal.Log, t: Wal.Log, log: seq<Event>, deferred: seq<Event>, more: seq<Event>,
                 w: seq<Event>, added: seq<Event>) returns (n: nat)
    requires LogBytes.Faithful(env.codec) && Wal.Sound(env, s) && Wal.Sound(env, t) && Wal.Moves(env, s, t, w, added)
    requires log == Wal.Durable(env, s) && log + deferred == Wal.Held(env, s) && more == deferred + added
    ensures n <= |more| && log + more[..n] == Wal.Durable(env, t) && Wal.Durable(env, t) + more[n..] == Wal.Held(env, t)
  {
    Wal.MovesConserves(env, s, t, w, added);
    Wal.DurableGrows(env, s, t, w, added);
    DurableWithinHeld(env, t);
    Wal.Assoc(log, deferred, added);
    n := Split(log, more, Wal.Durable(env, t));
  }

  /** SaveState only makes deferred events durable. */
  lemma SaveStateRefines(env: Wal.Env, world: Pipeline.World, s: Wal.Log, p: Pipeline.System, state: ServiceState)
      returns (n: nat)
    requires LogBytes.Faithful(env.codec) && Represents(env, s, p) && Wal.SaveClean(env, s, state)
    requires forall i :: world(i).batchSize > 0
    ensures Pipeline.Enabled(p, Pipeline.WriteDeferred(n))
    ensures Represents(env, Wal.SaveState(env, s, state).0, Pipeline.Next(world, p, Pipeline.WriteDeferred(n)))
  {
    var t := Wal.SaveState(env, s, state).0;
    var w := Wal.SaveStateKeeps(env, s, state, map[]);
    assert p.deferred + [] == p.deferred;
    n := GrownLog(env, s, t, p.log, p.deferred, p.deferred, w, []);
  }

  /** With fsync on, a writable log after a successful append, or after any successful call on a log that was right about
      its syncs, has nothing deferred: no crash can take anything. */
  lemma WritableIsHealthy(env: Wal.Env, s: Wal.Log, last: Wal.Op, saved: Wal.States, p: Pipeline.System)
    requires LogBytes.Faithful(env.codec) && env.fsync && Wal.Sound(env, s) && Wal.StatesKept(s, saved)
    requires !last.CrashOp? && Wal.Clean(env, s, last) && (last.AppendOp? || Wal.Tight(env, s))
    requires var r := Wal.Apply(env, s, last); r.1 == Wal.Fine && !r.0.blocked && Represents(env, r.0, p)
    ensures p.deferred == []
  {
    var t := Wal.Apply(env, s, last).0;
    Wal.WritableAfter(env, s, last, saved);
    assert LogBytes.Events(env.codec, t.data) + [] == LogBytes.Events(env.codec, t.data);
    assert |p.log + p.deferred| == |p.log| + |p.deferred|;
  }

  // ------------------------------------------------------------------ crashes

  /** The events a process finds when it starts after the crash. */
  function Recovered(env: Wal.Env, s: Wal.Log, crash: Wal.Crash): seq<Event>
    requires Wal.Survives(s, crash)
  {
    LogBytes.Events(env.codec, Wal.Reopen(env, s, crash).data)
  }

  /** Any crash is a restart of the protocol: what is found is what was durable and the first of what was
      deferred. What a power loss leaves has become durable, what a killed process leaves has not. */
  lemma CrashRefines(env: Wal.Env, world: Pipeline.World, s: Wal.Log, p: Pipeline.System, crash: Wal.Crash,
                     slot: Option<int>, cs: seq<nat>) returns (a: Pipeline.System, n: nat, kept: nat)
    requires LogBytes.Faithful(env.codec) && Represents(env, s, p) && Wal.Survives(s, crash)
    requires (forall i :: world(i).batchSize > 0) && Pipeline.Enabled(p, Pipeline.Restart(slot, cs, 0, crash.Killed?))
    ensures if crash.Killed? then n == 0 else kept == 0
    ensures Pipeline.Enabled(p, Pipeline.WriteDeferred(n)) && a == Pipeline.Next(world, p, Pipeline.WriteDeferred(n))
    ensures Pipeline.Enabled(a, Pipeline.Restart(slot, cs, kept, crash.Killed?))
    ensures Pipeline.Found(a, kept) == Recovered(env, s, crash)
    ensures Represents(env, Wal.Reopen(env, s, crash), Pipeline.Next(world, a, Pipeline.Restart(slot, cs, kept, crash.Killed?)))
  {
    var t := Wal.Reopen(env, s, crash);
    Wal.ReopenKeeps(env, s, crash);
    DurableWithinHeld(env, s);
    DurableWithinHeld(env, t);
    assert LogBytes.Events(env.codec, t.data) + [] == LogBytes.Events(env.codec, t.data);
    var k := Split(p.log, p.deferred, Recovered(env, s, crash));
    n, kept := if crash.Killed? then 0 else k, if crash.Killed? then k else 0;
    a := Pipeline.Next(world, p, Pipeline.WriteDeferred(n));
    Parts(p.log, p.deferred, k);
  }

  lemma Parts(log: seq<Event>, deferred: seq<Event>, k: nat)
    requires k <= |deferred|
    ensures log + deferred[..0] == log && deferred[0..] == deferred
    ensures log + deferred[..k] + deferred[k..][..0] == log + deferred[..k]
  {
  }

  /** From the bytes a crash leaves to the next event: at any point of any run of the protocol, if the crash
      is safe for checkpoint c, each event the restarted engine emits follows every recovered event and is
      numbered above c. */
  lemma StreamGoesOnAfterCrash(env: Wal.Env, world: Pipeline.World, targets: nat, steps: seq<Pipeline.Step>,
                               s: Wal.Log, crash: Wal.Crash, delayed: set<string>, saved: seq<ServiceState>,
                               c: nat, run: seq<EngineOrder.Step>, k: nat, j: nat)
    requires LogBytes.Faithful(env.codec) && (forall k :: world(k).batchSize > 0) && Wal.Survives(s, crash)
    requires PipelineRuns.Possible(world, Pipeline.Initial(targets), steps) && Lists(saved, Wal.Reopen(env, s, crash).states)
    requires var p := PipelineRuns.Run(world, Pipeline.Initial(targets), steps);
      && Represents(env, s, p) && SavedIn(p.saved, s.stateFile)
      && PipelineRuns.Safe(Recovered(env, s, crash), Taken(env, s, crash), p.saved, c)
    requires var e := EngineOrder.Restarted(delayed, saved, Recovered(env, s, crash));
      EngineOrder.Legal(e, run) && k < |run| && j < |EngineOrder.Batches(e, run)[k]|
    ensures var log := Recovered(env, s, crash);
      var y := EngineOrder.Batches(EngineOrder.Restarted(delayed, saved, log), run)[k][j];
      c < y.sequence && forall x :: x in log && x.timeMs >= 0 ==> EngineOrder.Follows(x, y)
  {
    var p, log := PipelineRuns.Run(world, Pipeline.Initial(targets), steps), Recovered(env, s, crash);
    var e := EngineOrder.Restarted(delayed, saved, log);
    RestartedEngineIsAhead(env, world, targets, steps, s, crash, delayed, saved, c);
    EngineOrder.RestoredNamed(delayed, saved);
    EngineOrder.ReplayedNamed(EngineOrder.RestoreAll(EngineOrder.Fresh(delayed), saved), log);
    EngineOrder.AllBehind(e, run, k, j);
    forall x | x in log && x.timeMs >= 0 ensures EngineOrder.Follows(x, EngineOrder.Batches(e, run)[k][j]) {
      EngineOrder.StreamGoesOn(delayed, saved, log, run, k, j, x);
    }
  }

  /** The counter once the saved states have been restored. */
  function Restored(delayed: set<string>, saved: seq<ServiceState>): nat {
    EngineOrder.RestoreAll(EngineOrder.Fresh(delayed), saved).counter
  }

  /** saved lists the states a reopened log has loaded, in any order. */
  ghost predicate Lists(saved: seq<ServiceState>, states: Wal.States) {
    forall st :: st in saved <==> exists k :: k in states && states[k] == st
  }

  /** Some state in the file is at least as far as sequence h. */
  ghost predicate SavedIn(h: nat, file: Wal.StateFile) {
    h > 0 ==> file.Holds? && exists k :: k in file.states && file.states[k].service != "" && h <= file.states[k].lastSequence
  }

  lemma RestoresSaved(env: Wal.Env, s: Wal.Log, crash: Wal.Crash, delayed: set<string>, saved: seq<ServiceState>, h: nat)
    requires Wal.Survives(s, crash) && SavedIn(h, s.stateFile) && Lists(saved, Wal.Reopen(env, s, crash).states)
    ensures h <= Restored(delayed, saved)
  {
    EngineOrder.RestoredCounter(EngineOrder.Fresh(delayed), saved);
    if h > 0 {
      var k :| k in s.stateFile.states && s.stateFile.states[k].service != "" && h <= s.stateFile.states[k].lastSequence;
      var states := Wal.Reopen(env, s, crash).states;
      assert k in states && states[k] == s.stateFile.states[k];
      assert states[k] in saved;
    }
  }

  /** The events held before the crash and not found after it. */
  function Taken(env: Wal.Env, s: Wal.Log, crash: Wal.Crash): seq<Event>
    requires Wal.Survives(s, crash)
  {
    var n := |Recovered(env, s, crash)|;
    if n <= |Wal.Held(env, s)| then Wal.Held(env, s)[n..] else []
  }

  /** Repair, restore and replay put the counter at or above every recovered event and every checkpoint the
      crash is safe for. */
  lemma RestartedEngineIsAhead(env: Wal.Env, world: Pipeline.World, targets: nat, steps: seq<Pipeline.Step>,
                               s: Wal.Log, crash: Wal.Crash, delayed: set<string>, saved: seq<ServiceState>, c: nat)
    requires LogBytes.Faithful(env.codec) && (forall k :: world(k).batchSize > 0) && Wal.Survives(s, crash)
    requires PipelineRuns.Possible(world, Pipeline.Initial(targets), steps) && Lists(saved, Wal.Reopen(env, s, crash).states)
    requires var p := PipelineRuns.Run(world, Pipeline.Initial(targets), steps);
      && Represents(env, s, p) && SavedIn(p.saved, s.stateFile)
      && PipelineRuns.Safe(Recovered(env, s, crash), Taken(env, s, crash), p.saved, c)
    ensures var log := Recovered(env, s, crash);
      var e := EngineOrder.Restarted(delayed, saved, log);
      c <= e.counter && forall x :: x in log ==> x.sequence <= e.counter
  {
    var p, log := PipelineRuns.Run(world, Pipeline.Initial(targets), steps), Recovered(env, s, crash);
    var kept := FoundAfter(env, s, p, crash);
    EngineOrder.ReplayedCounter(EngineOrder.RestoreAll(EngineOrder.Fresh(delayed), saved), log);
    PipelineRuns.HarmlessIff(world, targets, steps, c, kept);
    RestoresSaved(env, s, crash, delayed, saved, p.saved);
    HighestGrows(p.saved, Restored(delayed, saved), log);
  }

  lemma FoundAfter(env: Wal.Env, s: Wal.Log, p: Pipeline.System, crash: Wal.Crash) returns (kept: nat)
    requires LogBytes.Faithful(env.codec) && Represents(env, s, p) && Wal.Survives(s, crash)
    ensures kept <= |p.deferred| && Pipeline.Found(p, kept) == Recovered(env, s, crash)
    ensures Taken(env, s, crash) == p.deferred[kept..]
  {
    var t := Wal.Reopen(env, s, crash);
    Wal.ReopenKeeps(env, s, crash);
    DurableWithinHeld(env, s);
    DurableWithinHeld(env, t);
    assert LogBytes.Events(env.codec, t.data) + [] == LogBytes.Events(env.codec, t.data);
    kept := Split(p.log, p.deferred, Recovered(env, s, crash));
    assert (Recovered(env, s, crash) + p.deferred[kept..])[|Recovered(env, s, crash)|..] == p.deferred[kept..];
  }

  lemma {:induction false} HighestGrows(a: nat, b: nat, log: seq<Event>)
    requires a <= b
    ensures Highest(a, log) <= Highest(b, log)
  {
    if log != [] {
      HighestGrows(a, b, log[..|log| - 1]);
    }
  }
}
