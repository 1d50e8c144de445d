/** Every run of the delivery protocol, with refused enqueues, failing appends, deferred writes, crashes
    and restarts (cmd/systemd-transition-exporter/main.go, internal/delivery/worker.go). */
module PipelineRuns {
  import opened Types
  import opened Sorting
  import opened Sender
  import opened Pipeline
  import opened TargetProgress
  import Runs

  // ------------------------------------------------------------------ runs

  /** Every step of the run is possible when it is taken. */
  predicate Possible(world: World, p: System, steps: seq<Step>)
    requires (forall i :: world(i).batchSize > 0) && |p.ledgers| == |p.targets|
    decreases steps
  {
    steps != [] ==> Enabled(p, steps[0]) && Possible(world, Next(world, p, steps[0]), steps[1..])
  }

  function Run(world: World, p: System, steps: seq<Step>): (q: System)
    requires (forall i :: world(i).batchSize > 0) && |p.ledgers| == |p.targets| && Possible(world, p, steps)
    ensures |q.ledgers| == |q.targets| == |p.targets|
    decreases steps
  {
    if steps == [] then p else Run(world, Next(world, p, steps[0]), steps[1..])
  }

  /** A step, or nothing where it is not possible. */
  ghost function Taken(world: World, p: System, step: Step): System
  {
    if (forall i :: world(i).batchSize > 0) && |p.ledgers| == |p.targets| && Enabled(p, step) then Next(world, p, step) else p
  }

  ghost function Machine(world: World): (System, Step) -> System { (p, step) => Taken(world, p, step) }

  function May(): (System, Step) -> bool { (p, step) => Enabled(p, step) }

  lemma {:induction false} RunIterates(world: World, p: System, steps: seq<Step>)
    requires (forall i :: world(i).batchSize > 0) && |p.ledgers| == |p.targets|
    ensures Possible(world, p, steps) <==> Runs.Can(May(), Machine(world), p, steps)
    ensures Possible(world, p, steps) ==> Run(world, p, steps) == Runs.Iterate(Machine(world), p, steps)
    decreases steps
  {
    if steps != [] && Enabled(p, steps[0]) {
      RunIterates(world, Next(world, p, steps[0]), steps[1..]);
      assert Machine(world)(p, steps[0]) == Next(world, p, steps[0]);
    }
  }

  lemma RunConcat(world: World, p: System, a: seq<Step>, b: seq<Step>)
    requires (forall i :: world(i).batchSize > 0) && |p.ledgers| == |p.targets|
    requires Possible(world, p, a) && Possible(world, Run(world, p, a), b)
    ensures Possible(world, p, a + b) && Run(world, p, a + b) == Run(world, Run(world, p, a), b)
  {
    RunIterates(world, p, a);
    RunIterates(world, Run(world, p, a), b);
    RunIterates(world, p, a + b);
    Runs.Concat(May(), Machine(world), p, a, b);
  }

  /** A run of one step. */
  lemma RunOne(world: World, p: System, step: Step)
    requires (forall i :: world(i).batchSize > 0) && |p.ledgers| == |p.targets| && Enabled(p, step)
    ensures Possible(world, p, [step]) && Run(world, p, [step]) == Next(world, p, step)
  {
    var q := Next(world, p, step);
    assert [step][1..] == [];
    assert Possible(world, q, []) && Run(world, q, []) == q;
  }

  /** The checkpoint a target restarts from, and those it may later be put back to. */
  function LeftBy(s: State, c: nat, killed: bool): set<nat> { if killed then Revealed(s) else {c} }

  /** A restart leaves target i no checkpoint ahead of the restored counter. */
  ghost predicate Harmless(p: System, step: Step, i: nat)
    requires Enabled(p, step) && i < |p.targets|
  {
    step.Restart? ==>
      forall c :: c in LeftBy(p.targets[i].sender, step.checkpoints[i], step.killed) ==>
        c <= Highest(p.saved, Found(p, step.kept))
  }

  /** So it is at every restart of the run. Other targets may fare as they like. */
  ghost predicate HarmlessFor(world: World, p: System, steps: seq<Step>, i: nat)
    requires (forall k :: world(k).batchSize > 0) && |p.ledgers| == |p.targets| && Possible(world, p, steps) && i < |p.targets|
    decreases steps
  {
    steps != [] ==> Harmless(p, steps[0], i) && HarmlessFor(world, Next(world, p, steps[0]), steps[1..], i)
  }

  ghost function MayFor(i: nat): (System, Step) -> bool {
    (p, step) => Enabled(p, step) && i < |p.targets| && Harmless(p, step, i)
  }

  lemma {:induction false} HarmlessIterates(world: World, p: System, steps: seq<Step>, i: nat)
    requires (forall k :: world(k).batchSize > 0) && |p.ledgers| == |p.targets| && i < |p.targets|
    ensures Possible(world, p, steps) && HarmlessFor(world, p, steps, i) <==> Runs.Can(MayFor(i), Machine(world), p, steps)
    decreases steps
  {
    if steps != [] && Enabled(p, steps[0]) {
      HarmlessIterates(world, Next(world, p, steps[0]), steps[1..], i);
      assert Machine(world)(p, steps[0]) == Next(world, p, steps[0]);
    }
  }

  lemma HarmlessConcat(world: World, p: System, a: seq<Step>, b: seq<Step>, q: System, i: nat)
    requires (forall k :: world(k).batchSize > 0) && |p.ledgers| == |p.targets| && i < |p.targets|
    requires Possible(world, p, a) && q == Run(world, p, a) && Possible(world, q, b)
    requires HarmlessFor(world, p, a, i) && HarmlessFor(world, q, b, i)
    ensures Possible(world, p, a + b) && HarmlessFor(world, p, a + b, i)
  {
    RunIterates(world, p, a);
    HarmlessIterates(world, p, a, i);
    HarmlessIterates(world, q, b, i);
    HarmlessIterates(world, p, a + b, i);
    Runs.Concat(MayFor(i), Machine(world), p, a, b);
  }

  // ------------------------------------------------------------------ what every step keeps

  /** Accepted events are numbered upwards, and the counter has passed all of them. */
  ghost predicate Numbered(p: System) {
    && |p.ledgers| == |p.targets|
    && Ordered(0, Accepted(p))
    && Mark(0, Accepted(p), |Accepted(p)|) <= p.counter
    && p.saved <= p.counter
  }

  /** Every accepted event was given to the target, refused by it, or settled before it started. */
  ghost predicate Covers(all: seq<Event>, l: Ledger, t: Target) {
    && (forall e :: e in l.given ==> e in all)
    && (forall e :: e in l.refused ==> e in all && e !in l.given)
    && (forall e :: e in all ==> e in l.given || e in l.refused || Settled(t, e))
  }

  /** Checkpoints left by earlier processes are not ahead of the one the target started from. */
  ghost predicate EarlierOk(start: nat, s: State) {
    forall c :: c in s.earlier ==> c <= start
  }

  ghost predicate Kept(size: nat, all: seq<Event>, counter: nat, l: Ledger, t: Target) {
    && Ordered(l.start, l.given) && Mark(l.start, l.given, |l.given|) <= counter
    && TargetOk(l.start, l.given, t) && FileOk(size, l.start, l.given, t)
    && EarlierOk(l.start, t.sender) && Covers(all, l, t)
  }

  ghost predicate Keeping(world: World, p: System, i: nat) {
    && i < |p.targets| && i < |p.ledgers|
    && Kept(world(i).batchSize, Accepted(p), p.counter, p.ledgers[i], p.targets[i])
  }

  lemma OrderedSnoc(start: nat, all: seq<Event>, e: Event)
    requires Ordered(start, all) && Mark(start, all, |all|) < e.sequence
    ensures Ordered(start, all + [e]) && Mark(start, all + [e], |all| + 1) == e.sequence
  {
    assert (all + [e])[..|all|] == all;
  }

  lemma {:induction false} OrderedPrefix(start: nat, all: seq<Event>, k: nat)
    requires Ordered(start, all) && k <= |all|
    ensures Ordered(start, all[..k]) && Mark(start, all[..k], k) <= Mark(start, all, |all|)
  {
    if k < |all| {
      OrderedPrefix(start, all[..|all| - 1], k);
      assert all[..|all| - 1][..k] == all[..k];
    } else {
      assert all[..k] == all;
    }
  }

  lemma {:induction false} HighestIsLast(saved: nat, log: seq<Event>)
    requires Ordered(0, log)
    ensures Highest(saved, log) == Max(saved, Mark(0, log, |log|))
  {
    if log != [] {
      HighestIsLast(saved, log[..|log| - 1]);
    }
  }

  /** Events found again are a first part of those accepted; the others are lost. */
  lemma FoundIsPrefix(p: System, kept: nat)
    requires kept <= |p.deferred|
    ensures Found(p, kept) == Accepted(p)[..|p.log| + kept] && Accepted(p) == Found(p, kept) + p.deferred[kept..]
  {
  }

  function EmittedBy(p: System, step: Step): Event
    requires step.Emit?
  {
    step.event.(sequence := p.counter + 1)
  }

  lemma NextEmits(world: World, p: System, step: Step)
    requires (forall i :: world(i).batchSize > 0) && |p.ledgers| == |p.targets| && step.Emit?
    ensures Next(world, p, step) == EmitTo(p, EmittedBy(p, step), step.full, step.refused)
  {
  }

  lemma NextWrites(world: World, p: System, n: nat)
    requires (forall i :: world(i).batchSize > 0) && |p.ledgers| == |p.targets| && n <= |p.deferred|
    ensures Next(world, p, WriteDeferred(n)) == Write(p, n)
  {
  }

  lemma NextFails(world: World, p: System)
    requires (forall i :: world(i).batchSize > 0) && |p.ledgers| == |p.targets|
    ensures Next(world, p, AppendFails) == p.(counter := p.counter + 1)
  {
  }

  lemma NextSaves(world: World, p: System, highest: nat)
    requires (forall i :: world(i).batchSize > 0) && |p.ledgers| == |p.targets| && highest <= p.counter
    ensures Next(world, p, SaveStates(highest)) == p.(saved := highest)
  {
  }

  lemma EmitAccepted(p: System, e: Event, full: bool, refused: set<nat>)
    ensures Accepted(EmitTo(p, e, full, refused)) == Accepted(p) + [e]
  {
  }

  lemma StepNumbers(world: World, p: System, step: Step)
    requires (forall i :: world(i).batchSize > 0) && Numbered(p) && Enabled(p, step)
    ensures Numbered(Next(world, p, step))
  {
    match step
    case Emit(_, full, refused) =>
      NextEmits(world, p, step);
      EmitAccepted(p, EmittedBy(p, step), full, refused);
      OrderedSnoc(0, Accepted(p), EmittedBy(p, step));
    case WriteDeferred(count) => assert Accepted(Next(world, p, step)) == Accepted(p);
    case Restart(_, _, kept, _) =>
      FoundIsPrefix(p, kept);
      OrderedPrefix(0, Accepted(p), |p.log| + kept);
      HighestIsLast(p.saved, Found(p, kept));
    case _ => assert Accepted(Next(world, p, step)) == Accepted(p);
  }

  lemma NewIsUnseen(all: seq<Event>, counter: nat, e: Event)
    requires Ordered(0, all) && Mark(0, all, |all|) <= counter < e.sequence
    ensures e !in all
  {
    if e in all {
      BelowLastMark(0, all, e);
    }
  }

  lemma EmitKeeps(size: nat, all: seq<Event>, counter: nat, l: Ledger, t: Target, e: Event)
    requires Ordered(0, all) && Mark(0, all, |all|) <= counter && e.sequence == counter + 1
    requires Kept(size, all, counter, l, t)
    ensures Kept(size, all + [e], counter + 1, l.(given := l.given + [e]), t.(queue := t.queue + [e]))
    ensures Kept(size, all + [e], counter + 1, l.(refused := l.refused + [e]), t)
  {
    NewIsUnseen(all, counter, e);
    OrderedSnoc(l.start, l.given, e);
    ExtendTarget(l.start, l.given, t, e);
    ExtendFile(size, l.start, l.given, t, e);
    EmitCovers(all, l, t, e);
  }

  lemma EmitCovers(all: seq<Event>, l: Ledger, t: Target, e: Event)
    requires Covers(all, l, t) && e !in all
    ensures Covers(all + [e], l.(given := l.given + [e]), t.(queue := t.queue + [e]))
    ensures Covers(all + [e], l.(refused := l.refused + [e]), t)
  {
    var u := t.(queue := t.queue + [e]);
    assert forall x :: Settled(t, x) <==> Settled(u, x);
  }

  /** A target that settles events given to it keeps its place. */
  lemma HandledKeeps(size: nat, all: seq<Event>, counter: nat, l: Ledger, t: Target, u: Target)
    requires Kept(size, all, counter, l, t) && TargetOk(l.start, l.given, u) && FileOk(size, l.start, l.given, u) && Handles(t, u, l.given)
    ensures Kept(size, all, counter, l, u)
  {
  }

  /** The checkpoint a restart starts from, and those it leaves behind. */
  predicate StartsFrom(s: State, c: nat, killed: bool) {
    if killed then c == s.file else c in Revealed(s)
  }

  /** A restart that leaves no checkpoint ahead of the restored counter. */
  lemma RestartKeeps(env: Env, all: seq<Event>, lost: seq<Event>, counter: nat, saved: nat, l: Ledger, t: Target,
                     slot: Option<int>, c: nat, killed: bool)
    requires env.batchSize > 0 && Ordered(0, all + lost) && Kept(env.batchSize, all + lost, counter, l, t)
    requires StartsFrom(t.sender, c, killed)
    requires forall x :: x in LeftBy(t.sender, c, killed) ==> x <= Highest(saved, all)
    ensures Kept(env.batchSize, all, Highest(saved, all), NewLedger(l, all, c), RestartTarget(env, t, all, slot, c, killed))
  {
    assert all == (all + lost)[..|all|];
    OrderedPrefix(0, all + lost, |all|);
    FileIsLast(env.batchSize, l.start, l.given, t);
    assert c in LeftBy(t.sender, c, killed);
    StartsBehind(env, all, saved, t, slot, c, killed);
    RestartEarlier(env, all, l, t, slot, c, killed);
    RestartCovers(env, all, lost, counter, l, t, slot, c, killed);
  }

  lemma StartsBehind(env: Env, all: seq<Event>, saved: nat, t: Target, slot: Option<int>, c: nat, killed: bool)
    requires env.batchSize > 0 && Ordered(0, all) && c <= Highest(saved, all)
    ensures var u, given := RestartTarget(env, t, all, slot, c, killed), Filter(Above(c), all);
      && Ordered(c, given) && Mark(c, given, |given|) <= Highest(saved, all)
      && TargetOk(c, given, u) && FileOk(env.batchSize, c, given, u)
  {
    AboveIsOrdered(c, all);
    HighestIsLast(saved, all);
    var b, r := RestartIs(env, all, t, slot, c, killed);
  }

  lemma RestartEarlier(env: Env, all: seq<Event>, l: Ledger, t: Target, slot: Option<int>, c: nat, killed: bool)
    requires env.batchSize > 0 && Ordered(0, all) && Ordered(l.start, l.given)
    requires FileOk(env.batchSize, l.start, l.given, t) && EarlierOk(l.start, t.sender) && StartsFrom(t.sender, c, killed)
    ensures EarlierOk(c, RestartTarget(env, t, all, slot, c, killed).sender)
  {
    var u := RestartTarget(env, t, all, slot, c, killed);
    var b, r := RestartIs(env, all, t, slot, c, killed);
    FileIsLast(env.batchSize, l.start, l.given, t);
    forall x | x in u.sender.earlier ensures x <= c {
      assert x in Reopened(t.sender, c, killed).earlier;
    }
  }

  lemma CheckpointBelow(size: nat, all: seq<Event>, counter: nat, l: Ledger, t: Target, c: nat)
    requires Kept(size, all, counter, l, t) && c in Revealed(t.sender)
    ensures c <= counter
  {
    MarkOrder(l.start, l.given, 0, |l.given|);
    if c in t.sender.onDisk {
      CheckpointIsMark(l.start, l.given, t, c);
    }
  }

  lemma LostComesLater(all: seq<Event>, lost: seq<Event>, e: Event)
    requires Ordered(0, all + lost) && e in lost
    ensures Mark(0, all, |all|) < e.sequence
  {
    var k :| 0 <= k < |lost| && lost[k] == e;
    assert (all + lost)[|all| + k] == e;
    MarkGrows(0, all + lost, |all|, |all| + k + 1);
    assert Mark(0, all + lost, |all|) == Mark(0, all, |all|);
  }

  lemma GivenAbove(start: nat, given: seq<Event>, e: Event)
    requires Ordered(start, given) && e in given
    ensures start < e.sequence
  {
    var k :| 0 <= k < |given| && given[k] == e;
    MarkGrows(start, given, 0, k + 1);
  }

  /** What a checkpoint that may be revealed covers is settled or was refused. */
  lemma RevealedCovers(size: nat, all: seq<Event>, counter: nat, l: Ledger, t: Target, c: nat, e: Event)
    requires Kept(size, all, counter, l, t) && c in Revealed(t.sender) && e in all && e.sequence <= c
    ensures Settled(t, e) || e in l.refused
  {
    if e in l.given {
      if c in t.sender.onDisk {
        SettledBelow(l.start, l.given, t, c, e);
      } else {
        GivenAbove(l.start, l.given, e);
      }
    }
  }

  lemma RestartCovers(env: Env, all: seq<Event>, lost: seq<Event>, counter: nat, l: Ledger, t: Target,
                      slot: Option<int>, c: nat, killed: bool)
    requires env.batchSize > 0 && Ordered(0, all) && Kept(env.batchSize, all + lost, counter, l, t)
    requires c in Revealed(t.sender)
    ensures Covers(all, NewLedger(l, all, c), RestartTarget(env, t, all, slot, c, killed))
  {
    var k, u := NewLedger(l, all, c), RestartTarget(env, t, all, slot, c, killed);
    var b, r := RestartIs(env, all, t, slot, c, killed);
    FilterMembers(Above(c), all);
    FilterMembers(PassedOver(l.refused, c), all);
    forall e | e in all ensures e in k.given || e in k.refused || Settled(u, e) {
      assert e in all + lost;
      if e.sequence <= c {
        RevealedCovers(env.batchSize, all + lost, counter, l, t, c, e);
      }
      assert Settled(t, e) ==> Settled(u, e);
    }
  }

  /** The counter only grows between restarts. */
  lemma LaterKeeps(size: nat, all: seq<Event>, counter: nat, later: nat, l: Ledger, t: Target)
    requires Kept(size, all, counter, l, t) && counter <= later
    ensures Kept(size, all, later, l, t)
  {
  }

  lemma EmitStepKeeps(world: World, p: System, step: Step, i: nat)
    requires (forall k :: world(k).batchSize > 0) && Numbered(p) && Keeping(world, p, i) && step.Emit?
    ensures Keeping(world, Next(world, p, step), i)
  {
    NextEmits(world, p, step);
    EmitToKeeps(world(i).batchSize, p, i, EmittedBy(p, step), step.full, step.refused);
  }

  lemma EmitToKeeps(size: nat, p: System, i: nat, e: Event, full: bool, refused: set<nat>)
    requires Numbered(p) && i < |p.targets| && e.sequence == p.counter + 1
    requires Kept(size, Accepted(p), p.counter, p.ledgers[i], p.targets[i])
    ensures var q := EmitTo(p, e, full, refused);
      Kept(size, Accepted(q), q.counter, q.ledgers[i], q.targets[i])
  {
    EmitAccepted(p, e, full, refused);
    EmitPartsOf(p, i, e, full, refused);
    EmitKeeps(size, Accepted(p), p.counter, p.ledgers[i], p.targets[i], e);
  }

  lemma EmitPartsOf(p: System, i: nat, e: Event, full: bool, refused: set<nat>)
    requires |p.ledgers| == |p.targets| && i < |p.targets|
    ensures var q, l, t := EmitTo(p, e, full, refused), p.ledgers[i], p.targets[i];
      && q.counter == p.counter + 1 && q.saved == p.saved
      && q.ledgers[i] == (if i in refused then l.(refused := l.refused + [e]) else l.(given := l.given + [e]))
      && q.targets[i] == (if i in refused then t else t.(queue := t.queue + [e]))
  {
  }

  /** What a step of its own worker makes of a target. */
  function Worked(env: Env, t: Target, step: Step): Target
    requires env.batchSize > 0
  {
    if step.Dequeue? then DequeueTarget(env, t) else FlushTarget(env, t)
  }

  lemma WorkedKeeps(env: Env, start: nat, given: seq<Event>, t: Target, step: Step)
    requires env.batchSize > 0 && Ordered(start, given) && TargetOk(start, given, t) && FileOk(env.batchSize, start, given, t)
    ensures var u := Worked(env, t, step);
      TargetOk(start, given, u) && FileOk(env.batchSize, start, given, u) && Handles(t, u, given)
  {
    if step.Dequeue? {
      DequeueKeeps(env, start, given, t);
    } else {
      FlushKeeps(env, start, given, t);
    }
  }

  lemma WorkNext(world: World, p: System, step: Step, i: nat) returns (q: System)
    requires (forall k :: world(k).batchSize > 0) && |p.ledgers| == |p.targets| && i < |p.targets|
    requires (step.Dequeue? || step.Flush?) && Enabled(p, step)
    ensures q == Next(world, p, step) && q.ledgers == p.ledgers && q.counter == p.counter && Accepted(q) == Accepted(p)
    ensures |q.targets| == |p.targets| && q.targets[i] == if step.target == i then Worked(world(i), p.targets[i], step) else p.targets[i]
  {
    q := Next(world, p, step);
  }

  lemma WorkStepKeeps(world: World, p: System, step: Step, i: nat)
    requires (forall k :: world(k).batchSize > 0) && Numbered(p) && Keeping(world, p, i)
    requires (step.Dequeue? || step.Flush?) && Enabled(p, step)
    ensures Keeping(world, Next(world, p, step), i)
    ensures Handles(p.targets[i], Next(world, p, step).targets[i], p.ledgers[i].given)
  {
    var l, t := p.ledgers[i], p.targets[i];
    WorkedKeeps(world(i), l.start, l.given, t, step);
    HandledKeeps(world(i).batchSize, Accepted(p), p.counter, l, t, Worked(world(i), t, step));
    var q := WorkNext(world, p, step, i);
  }

  lemma RestartStepKeeps(world: World, p: System, step: Step, i: nat)
    requires (forall k :: world(k).batchSize > 0) && Numbered(p) && Keeping(world, p, i)
    requires step.Restart? && Enabled(p, step) && Harmless(p, step, i)
    ensures Keeping(world, Next(world, p, step), i)
  {
    FoundIsPrefix(p, step.kept);
    assert StartsFrom(p.targets[i].sender, step.checkpoints[i], step.killed);
    RestartKeeps(world(i), Found(p, step.kept), p.deferred[step.kept..], p.counter, p.saved, p.ledgers[i], p.targets[i],
                 step.slot, step.checkpoints[i], step.killed);
    assert Accepted(Next(world, p, step)) == Found(p, step.kept);
  }

  /** Every step keeps the place of target i, whatever the other targets do. */
  lemma StepKeeps(world: World, p: System, step: Step, i: nat)
    requires (forall k :: world(k).batchSize > 0) && Numbered(p) && Keeping(world, p, i) && Enabled(p, step) && Harmless(p, step, i)
    ensures Keeping(world, Next(world, p, step), i)
  {
    match step
    case Emit(_, _, _) => EmitStepKeeps(world, p, step, i);
    case Dequeue(_) => WorkStepKeeps(world, p, step, i);
    case Flush(_) => WorkStepKeeps(world, p, step, i);
    case Restart(_, _, _, _) => RestartStepKeeps(world, p, step, i);
    case _ =>
      var q := Next(world, p, step);
      assert Accepted(q) == Accepted(p);
      LaterKeeps(world(i).batchSize, Accepted(p), p.counter, q.counter, p.ledgers[i], p.targets[i]);
  }

  lemma {:induction false} RunNumbers(world: World, p: System, steps: seq<Step>)
    requires (forall k :: world(k).batchSize > 0) && Numbered(p) && Possible(world, p, steps)
    ensures Numbered(Run(world, p, steps))
    decreases steps
  {
    if steps != [] {
      StepNumbers(world, p, steps[0]);
      RunNumbers(world, Next(world, p, steps[0]), steps[1..]);
    }
  }

  lemma {:induction false} RunKeeps(world: World, p: System, steps: seq<Step>, i: nat)
    requires (forall k :: world(k).batchSize > 0) && Numbered(p) && Possible(world, p, steps)
    requires Keeping(world, p, i) && HarmlessFor(world, p, steps, i)
    ensures Keeping(world, Run(world, p, steps), i)
    decreases steps
  {
    if steps != [] {
      StepNumbers(world, p, steps[0]);
      StepKeeps(world, p, steps[0], i);
      RunKeeps(world, Next(world, p, steps[0]), steps[1..], i);
    }
  }

  lemma InitialOk(world: World, targets: nat, i: nat)
    ensures Numbered(Initial(targets)) && (i < targets ==> Keeping(world, Initial(targets), i))
  {
    var p := Initial(targets);
    if i < targets {
      assert 0 == Mark(0, [], 0);
      assert MarkBetween(0, [], 0, 0, 0);
      assert TargetAt(0, [], p.targets[i], 0, 0, 0);
      assert FileAt(world(i).batchSize, 0, [], p.targets[i], 0, 0);
    }
  }

  /** A run of a fresh system in which no restart leaves target i a checkpoint ahead of the counter. */
  ghost predicate RunFor(world: World, targets: nat, steps: seq<Step>, i: nat) {
    && (forall k :: world(k).batchSize > 0) && i < targets
    && Possible(world, Initial(targets), steps) && HarmlessFor(world, Initial(targets), steps, i)
  }

  lemma FromStart(world: World, targets: nat, steps: seq<Step>, i: nat)
    requires RunFor(world, targets, steps, i)
    ensures var p := Run(world, Initial(targets), steps); Numbered(p) && Keeping(world, p, i)
  {
    InitialOk(world, targets, i);
    RunNumbers(world, Initial(targets), steps);
    RunKeeps(world, Initial(targets), steps, i);
  }

  // ------------------------------------------------------------------ delivery

  /** Crash-safe delivery, at every point of every such run: an accepted event at or below any
      checkpoint a crash could reveal was acknowledged by target i or reported dropped, unless i itself
      refused it; any other accepted event that i did not refuse is settled or still waiting there. */
  lemma AtLeastOnce(world: World, targets: nat, steps: seq<Step>, i: nat, e: Event)
    requires RunFor(world, targets, steps, i) && e in Accepted(Run(world, Initial(targets), steps))
    ensures var p := Run(world, Initial(targets), steps);
      var t, refused := p.targets[i], e in p.ledgers[i].refused;
      && (forall c :: c in Revealed(t.sender) && e.sequence <= c ==> Settled(t, e) || refused)
      && (Settled(t, e) || e in t.batch || e in t.queue || refused)
  {
    var p := Run(world, Initial(targets), steps);
    FromStart(world, targets, steps, i);
    if e !in p.ledgers[i].refused {
      SettledUnlessRefused(world(i).batchSize, Accepted(p), p.counter, p.ledgers[i], p.targets[i], e);
    }
  }

  lemma SettledUnlessRefused(size: nat, all: seq<Event>, counter: nat, l: Ledger, t: Target, e: Event)
    requires Kept(size, all, counter, l, t) && e in all && e !in l.refused
    ensures forall c :: c in Revealed(t.sender) && e.sequence <= c ==> Settled(t, e)
    ensures Settled(t, e) || e in t.batch || e in t.queue
  {
    if e in l.given {
      SettledOrWaiting(l.start, l.given, t, e);
    }
    forall c | c in Revealed(t.sender) && e.sequence <= c ensures Settled(t, e) {
      RevealedCovers(size, all, counter, l, t, c, e);
    }
  }

  /** Every checkpoint of the target that a power loss may reveal. */
  function Checkpoints(t: Target): set<nat> { Revealed(t.sender) }

  ghost predicate DeliveredAt(p: System, i: nat) {
    && i < |p.targets| && i < |p.ledgers|
    && (forall e :: e in Accepted(p) ==>
          Settled(p.targets[i], e) || e in p.targets[i].batch || e in p.targets[i].queue || e in p.ledgers[i].refused)
    && (forall c, e :: c in Checkpoints(p.targets[i]) && e in Accepted(p) && e.sequence <= c ==>
          Settled(p.targets[i], e) || e in p.ledgers[i].refused)
    && (forall c :: c in Checkpoints(p.targets[i]) ==> c <= p.counter)
  }

  /** AtLeastOnce and NoSequenceReuse for all events and checkpoints at once. */
  lemma DeliveredOrRefused(world: World, targets: nat, steps: seq<Step>, i: nat)
    requires RunFor(world, targets, steps, i)
    ensures DeliveredAt(Run(world, Initial(targets), steps), i)
  {
    var p := Run(world, Initial(targets), steps);
    forall e | e in Accepted(p)
      ensures Settled(p.targets[i], e) || e in p.targets[i].batch || e in p.targets[i].queue || e in p.ledgers[i].refused
    {
      AtLeastOnce(world, targets, steps, i, e);
    }
    forall c, e | c in Checkpoints(p.targets[i]) && e in Accepted(p) && e.sequence <= c
      ensures Settled(p.targets[i], e) || e in p.ledgers[i].refused
    {
      AtLeastOnce(world, targets, steps, i, e);
    }
    forall c | c in Checkpoints(p.targets[i]) ensures c <= p.counter {
      NoSequenceReuse(world, targets, steps, i, c);
    }
  }

  /** A restart sends again exactly the events found that are above the checkpoint it starts from,
      refused ones included, whatever happened before it: each is acknowledged anew or waits in the
      batch, and no other event is or does. */
  lemma RestartResends(world: World, targets: nat, steps: seq<Step>, crash: Step, i: nat, e: Event)
    requires (forall k :: world(k).batchSize > 0) && Possible(world, Initial(targets), steps) && i < targets
    requires crash.Restart? && Enabled(Run(world, Initial(targets), steps), crash)
    ensures var p := Run(world, Initial(targets), steps);
      var t, u := p.targets[i], Next(world, p, crash).targets[i];
      && t.sender.acked <= u.sender.acked
      && (e in u.batch || e in u.sender.acked[|t.sender.acked|..]
          <==> e in Found(p, crash.kept) && e.sequence > crash.checkpoints[i])
  {
    var p := Run(world, Initial(targets), steps);
    InitialOk(world, targets, i);
    RunNumbers(world, Initial(targets), steps);
    FoundIsPrefix(p, crash.kept);
    OrderedPrefix(0, Accepted(p), |p.log| + crash.kept);
    SentAgain(world(i), Found(p, crash.kept), p.targets[i], crash.slot, crash.checkpoints[i], crash.killed, e);
  }

  lemma SentAgain(env: Env, log: seq<Event>, t: Target, slot: Option<int>, c: nat, killed: bool, e: Event)
    requires env.batchSize > 0 && Ordered(0, log)
    ensures var u := RestartTarget(env, t, log, slot, c, killed);
      && t.sender.acked <= u.sender.acked
      && (e in u.batch || e in u.sender.acked[|t.sender.acked|..] <==> e in log && e.sequence > c)
  {
    var given := Filter(Above(c), log);
    var b, r := RestartIs(env, log, t, slot, c, killed);
    FilterMembers(Above(c), log);
    Behind(t.sender.acked, given[..r]);
    InEither(given, b, r, e);
  }

  lemma Behind(a: seq<Event>, b: seq<Event>)
    ensures a <= a + b && (a + b)[|a|..] == b
  {
  }

  lemma InEither(s: seq<Event>, b: nat, r: nat, e: Event)
    requires b <= r <= |s|
    ensures e in s <==> e in s[b..] || e in s[..r]
  {
    if e in s {
      var k :| 0 <= k < |s| && s[k] == e;
      if k < r {
        assert s[..r][k] == e;
      } else {
        assert s[b..][k - b] == e;
      }
    }
  }

  /** From now on the receiver accepts and the checkpoint can be saved. */
  ghost predicate Answering(env: Env, s: State) {
    && (forall n :: n >= s.requests ==> Accepting(env.reply(n)))
    && (forall n :: n >= s.saveCount ==> env.saves(n) >= SAVE_DONE)
  }

  lemma {:induction false} AnsweringSends(env: Env, s: State, pending: seq<Event>)
    requires env.batchSize > 0 && Answering(env, s)
    ensures SendChunks(env, s, pending).1 == Sent
    decreases |pending|
  {
    if pending != [] {
      var n := Min(env.batchSize, |pending|);
      AnsweringSends(env, SendChunk(env, s, pending[..n]).0, pending[n..]);
    }
  }

  /** Once the receiver answers, one flush of an emptied queue settles every accepted event that the
      target did not refuse. */
  lemma FlushSettlesAll(world: World, targets: nat, steps: seq<Step>, i: nat, e: Event)
    requires RunFor(world, targets, steps, i)
    requires var p := Run(world, Initial(targets), steps);
      && p.targets[i].queue == [] && Answering(world(i), p.targets[i].sender)
      && e in Accepted(p) && e !in p.ledgers[i].refused
    ensures var t := Next(world, Run(world, Initial(targets), steps), Flush(i)).targets[i]; Settled(t, e) && t.batch == []
  {
    var p := Run(world, Initial(targets), steps);
    var t, q := p.targets[i], Next(world, p, Flush(i));
    FromStart(world, targets, steps, i);
    StepKeeps(world, p, Flush(i), i);
    AnsweringSends(world(i), t.sender, Unsent(t.sender.lastSent, t.batch));
    SettledUnlessRefused(world(i).batchSize, Accepted(q), q.counter, q.ledgers[i], q.targets[i], e);
  }

  // ------------------------------------------------------------------ sequences

  /** No sequence is used twice: at every point of such a run the counter has passed every accepted event
      and every checkpoint of target i, in memory or revealed by a power loss, so the next event is never
      taken for one already sent. */
  lemma NoSequenceReuse(world: World, targets: nat, steps: seq<Step>, i: nat, c: nat)
    requires RunFor(world, targets, steps, i) && c in Revealed(Run(world, Initial(targets), steps).targets[i].sender)
    ensures var p := Run(world, Initial(targets), steps);
      && c <= p.counter && p.targets[i].sender.lastSent <= p.counter
      && (forall e :: e in Accepted(p) ==> e.sequence <= p.counter)
  {
    var p := Run(world, Initial(targets), steps);
    FromStart(world, targets, steps, i);
    CheckpointBelow(world(i).batchSize, Accepted(p), p.counter, p.ledgers[i], p.targets[i], c);
    LastSentIsMark(p.ledgers[i].start, p.ledgers[i].given, p.targets[i]);
    forall e | e in Accepted(p) ensures e.sequence <= p.counter {
      BelowLastMark(0, Accepted(p), e);
    }
  }

  /** A sequence that a saved state or an accepted event accounts for. */
  ghost predicate Known(all: seq<Event>, saved: nat, c: nat) {
    c <= saved || exists e :: e in all && e.sequence == c
  }

  /** What a crash has to leave for checkpoint c: every lost event that c covers is covered by the saved
      states; and if neither a saved state nor an accepted event accounted for c, an event above it. */
  ghost predicate Safe(found: seq<Event>, lost: seq<Event>, saved: nat, c: nat) {
    if Known(found + lost, saved, c) then forall e :: e in lost && e.sequence <= c ==> e.sequence <= saved
    else exists e :: e in found && c < e.sequence
  }

  /** When a crash is harmless, at any point of any run: a checkpoint it leaves is not ahead of the restored
      counter if and only if the crash is safe for it. */
  lemma HarmlessIff(world: World, targets: nat, steps: seq<Step>, c: nat, kept: nat)
    requires (forall k :: world(k).batchSize > 0) && Possible(world, Initial(targets), steps)
    requires kept <= |Run(world, Initial(targets), steps).deferred|
    ensures var p := Run(world, Initial(targets), steps);
      c <= Highest(p.saved, Found(p, kept)) <==> Safe(Found(p, kept), p.deferred[kept..], p.saved, c)
  {
    var p := Run(world, Initial(targets), steps);
    InitialOk(world, targets, 0);
    RunNumbers(world, Initial(targets), steps);
    FoundIsPrefix(p, kept);
    SafeIff(Found(p, kept), p.deferred[kept..], p.saved, c);
  }

  lemma SafeIff(all: seq<Event>, lost: seq<Event>, saved: nat, c: nat)
    requires Ordered(0, all + lost)
    ensures c <= Highest(saved, all) <==> Safe(all, lost, saved, c)
  {
    assert all == (all + lost)[..|all|];
    OrderedPrefix(0, all + lost, |all|);
    HighestIsLast(saved, all);
    if Known(all + lost, saved, c) {
      KnownIff(all, lost, saved, c);
    } else {
      UnknownIff(all, lost, saved, c);
    }
  }

  lemma KnownIff(all: seq<Event>, lost: seq<Event>, saved: nat, c: nat)
    requires Ordered(0, all + lost) && Ordered(0, all) && Known(all + lost, saved, c)
    ensures c <= Max(saved, Mark(0, all, |all|)) <==> forall e :: e in lost && e.sequence <= c ==> e.sequence <= saved
  {
    if c <= Max(saved, Mark(0, all, |all|)) {
      forall e | e in lost && e.sequence <= c ensures e.sequence <= saved {
        LostComesLater(all, lost, e);
      }
    } else {
      var x :| x in all + lost && x.sequence == c;
      if x in all {
        BelowLastMark(0, all, x);
      }
      assert x in lost;
    }
  }

  lemma UnknownIff(all: seq<Event>, lost: seq<Event>, saved: nat, c: nat)
    requires Ordered(0, all) && !Known(all + lost, saved, c)
    ensures c <= Max(saved, Mark(0, all, |all|)) <==> exists e :: e in all && c < e.sequence
  {
    if e :| e in all && c < e.sequence {
      BelowLastMark(0, all, e);
    }
    if c <= Max(saved, Mark(0, all, |all|)) {
      var last := all[|all| - 1];
      assert last in all + lost;
      assert last in all && c < last.sequence;
    }
  }

  /** As long as the saved states never go back, a saved state or an accepted event accounts for every
      checkpoint of target i, so that a crash which takes nothing is safe. */
  lemma NothingTakenIsSafe(world: World, targets: nat, steps: seq<Step>, i: nat, c: nat)
    requires RunFor(world, targets, steps, i) && SavedGrows(world, Initial(targets), steps)
    requires c in Revealed(Run(world, Initial(targets), steps).targets[i].sender)
    ensures var p := Run(world, Initial(targets), steps);
      Known(Accepted(p), p.saved, c) && Safe(Accepted(p), [], p.saved, c)
  {
    var p := Run(world, Initial(targets), steps);
    FromStart(world, targets, steps, i);
    InitialOk(world, targets, i);
    RunAccounts(world, Initial(targets), steps, i);
    CheckpointKnown(world(i).batchSize, Accepted(p), p.counter, p.saved, p.ledgers[i], p.targets[i], c);
    assert Accepted(p) + [] == Accepted(p);
  }

  ghost predicate SavedGrows(world: World, p: System, steps: seq<Step>)
    requires (forall i :: world(i).batchSize > 0) && |p.ledgers| == |p.targets| && Possible(world, p, steps)
    decreases steps
  {
    steps != [] ==>
      && (steps[0].SaveStates? ==> p.saved <= steps[0].highest)
      && SavedGrows(world, Next(world, p, steps[0]), steps[1..])
  }

  ghost predicate Accounts(all: seq<Event>, saved: nat, l: Ledger, t: Target) {
    Known(all, saved, l.start) && forall c :: c in t.sender.earlier ==> Known(all, saved, c)
  }

  ghost predicate Accounting(p: System, i: nat) {
    i < |p.targets| && i < |p.ledgers| && Accounts(Accepted(p), p.saved, p.ledgers[i], p.targets[i])
  }

  lemma CheckpointKnown(size: nat, all: seq<Event>, counter: nat, saved: nat, l: Ledger, t: Target, c: nat)
    requires Kept(size, all, counter, l, t) && Accounts(all, saved, l, t) && c in Revealed(t.sender)
    ensures Known(all, saved, c)
  {
    if c in t.sender.onDisk {
      CheckpointIsMark(l.start, l.given, t, c);
    }
  }

  lemma KnownGrows(all: seq<Event>, more: seq<Event>, saved: nat, later: nat, c: nat)
    requires Known(all, saved, c) && saved <= later
    ensures Known(all + more, later, c) && Known(all, later, c)
  {
  }

  lemma StaysKnown(all: seq<Event>, lost: seq<Event>, saved: nat, c: nat)
    requires Ordered(0, all + lost) && Ordered(0, all) && Known(all + lost, saved, c) && c <= Highest(saved, all)
    ensures Known(all, saved, c)
  {
    HighestIsLast(saved, all);
    if c > saved {
      var x :| x in all + lost && x.sequence == c;
      if x in lost {
        LostComesLater(all, lost, x);
      }
    }
  }

  lemma EmitAccounts(p: System, i: nat, e: Event, full: bool, refused: set<nat>)
    requires |p.ledgers| == |p.targets| && Accounting(p, i)
    ensures Accounting(EmitTo(p, e, full, refused), i)
  {
    var q := EmitTo(p, e, full, refused);
    EmitAccepted(p, e, full, refused);
    EmitPartsOf(p, i, e, full, refused);
    KnownGrows(Accepted(p), [e], p.saved, p.saved, p.ledgers[i].start);
    forall c | c in q.targets[i].sender.earlier ensures Known(Accepted(q), q.saved, c) {
      KnownGrows(Accepted(p), [e], p.saved, p.saved, c);
    }
  }

  lemma RestartAccounts(env: Env, all: seq<Event>, lost: seq<Event>, counter: nat, saved: nat, l: Ledger, t: Target,
                        slot: Option<int>, c: nat, killed: bool)
    requires env.batchSize > 0 && Ordered(0, all + lost) && Kept(env.batchSize, all + lost, counter, l, t)
    requires Accounts(all + lost, saved, l, t) && StartsFrom(t.sender, c, killed)
    requires forall x :: x in LeftBy(t.sender, c, killed) ==> x <= Highest(saved, all)
    ensures Accounts(all, saved, NewLedger(l, all, c), RestartTarget(env, t, all, slot, c, killed))
  {
    assert all == (all + lost)[..|all|];
    OrderedPrefix(0, all + lost, |all|);
    var u := RestartTarget(env, t, all, slot, c, killed);
    var b, r := RestartIs(env, all, t, slot, c, killed);
    FileIsLast(env.batchSize, l.start, l.given, t);
    assert c in LeftBy(t.sender, c, killed);
    CheckpointKnown(env.batchSize, all + lost, counter, saved, l, t, c);
    StaysKnown(all, lost, saved, c);
    forall x | x in u.sender.earlier ensures Known(all, saved, x) {
      assert x in Reopened(t.sender, c, killed).earlier;
      CheckpointKnown(env.batchSize, all + lost, counter, saved, l, t, x);
      StaysKnown(all, lost, saved, x);
    }
  }

  lemma RestartStepAccounts(world: World, p: System, step: Step, i: nat)
    requires (forall k :: world(k).batchSize > 0) && Numbered(p) && Keeping(world, p, i) && Accounting(p, i)
    requires step.Restart? && Enabled(p, step) && Harmless(p, step, i)
    ensures Accounting(Next(world, p, step), i)
  {
    FoundIsPrefix(p, step.kept);
    assert StartsFrom(p.targets[i].sender, step.checkpoints[i], step.killed);
    RestartAccounts(world(i), Found(p, step.kept), p.deferred[step.kept..], p.counter, p.saved, p.ledgers[i], p.targets[i],
                    step.slot, step.checkpoints[i], step.killed);
    assert Accepted(Next(world, p, step)) == Found(p, step.kept);
  }

  lemma StepAccounts(world: World, p: System, step: Step, i: nat)
    requires (forall k :: world(k).batchSize > 0) && Numbered(p) && Keeping(world, p, i) && Accounting(p, i)
    requires Enabled(p, step) && Harmless(p, step, i) && (step.SaveStates? ==> p.saved <= step.highest)
    ensures Accounting(Next(world, p, step), i)
  {
    match step
    case Emit(_, full, refused) =>
      NextEmits(world, p, step);
      EmitAccounts(p, i, EmittedBy(p, step), full, refused);
    case Dequeue(_) =>
      WorkStepKeeps(world, p, step, i);
      assert Accepted(Next(world, p, step)) == Accepted(p);
    case Flush(_) =>
      WorkStepKeeps(world, p, step, i);
      assert Accepted(Next(world, p, step)) == Accepted(p);
    case Restart(_, _, _, _) => RestartStepAccounts(world, p, step, i);
    case SaveStates(highest) =>
      NextSaves(world, p, highest);
      assert forall c :: Known(Accepted(p), p.saved, c) ==> Known(Accepted(p), highest, c);
    case WriteDeferred(n) =>
      NextWrites(world, p, n);
      assert Accepted(Write(p, n)) == Accepted(p);
    case AppendFails => NextFails(world, p);
  }

  lemma {:induction false} RunAccounts(world: World, p: System, steps: seq<Step>, i: nat)
    requires (forall k :: world(k).batchSize > 0) && Numbered(p) && Possible(world, p, steps)
    requires Keeping(world, p, i) && Accounting(p, i) && HarmlessFor(world, p, steps, i) && SavedGrows(world, p, steps)
    ensures Accounting(Run(world, p, steps), i)
    decreases steps
  {
    if steps != [] {
      StepNumbers(world, p, steps[0]);
      StepKeeps(world, p, steps[0], i);
      StepAccounts(world, p, steps[0], i);
      RunAccounts(world, Next(world, p, steps[0]), steps[1..], i);
    }
  }

  // ------------------------------------------------------------------ refused events

  /** Every restart of the run finds target i at or above e. */
  predicate NeverBelow(steps: seq<Step>, i: nat, e: Event) {
    forall k :: 0 <= k < |steps| && steps[k].Restart? && i < |steps[k].checkpoints| ==> e.sequence <= steps[k].checkpoints[i]
  }

  /** e is durable and target i refused it. */
  ghost predicate Refused(p: System, i: nat, e: Event) {
    i < |p.ledgers| && e in p.log && e in p.ledgers[i].refused
  }

  lemma StepLeavesRefused(world: World, p: System, step: Step, i: nat, e: Event)
    requires (forall k :: world(k).batchSize > 0) && Numbered(p) && Keeping(world, p, i) && Enabled(p, step) && Harmless(p, step, i)
    requires Refused(p, i, e) && (step.Restart? ==> e.sequence <= step.checkpoints[i])
    ensures var q := Next(world, p, step);
      Refused(q, i, e) && (Settled(q.targets[i], e) <==> Settled(p.targets[i], e))
  {
    match step
    case Dequeue(_) => WorkStepKeeps(world, p, step, i);
    case Flush(_) => WorkStepKeeps(world, p, step, i);
    case Restart(_, _, _, _) => RestartLeavesRefused(world, p, step, i, e);
    case _ =>
  }

  lemma RestartLeavesRefused(world: World, p: System, step: Step, i: nat, e: Event)
    requires (forall k :: world(k).batchSize > 0) && Numbered(p) && i < |p.targets| && step.Restart? && Enabled(p, step)
    requires Refused(p, i, e) && e.sequence <= step.checkpoints[i]
    ensures var q := Next(world, p, step);
      Refused(q, i, e) && (Settled(q.targets[i], e) <==> Settled(p.targets[i], e))
  {
    var found, c := Found(p, step.kept), step.checkpoints[i];
    FoundIsPrefix(p, step.kept);
    OrderedPrefix(0, Accepted(p), |p.log| + step.kept);
    FilterMembers(PassedOver(p.ledgers[i].refused, c), found);
    NotSentAgain(world(i), found, p.targets[i], step.slot, c, step.killed, e);
  }

  /** A refused event does not wait in the target. */
  lemma RefusedNotWaiting(world: World, p: System, i: nat, e: Event)
    requires Keeping(world, p, i) && Refused(p, i, e)
    ensures e !in p.targets[i].batch && e !in p.targets[i].queue
  {
    if e in p.targets[i].batch || e in p.targets[i].queue {
      WaitingIsGiven(p.ledgers[i].start, p.ledgers[i].given, p.targets[i], e);
    }
  }

  lemma NotSentAgain(env: Env, log: seq<Event>, t: Target, slot: Option<int>, c: nat, killed: bool, e: Event)
    requires env.batchSize > 0 && Ordered(0, log) && e.sequence <= c
    ensures var u := RestartTarget(env, t, log, slot, c, killed); Settled(u, e) <==> Settled(t, e)
  {
    var given := Filter(Above(c), log);
    var b, r := RestartIs(env, log, t, slot, c, killed);
    FilterMembers(Above(c), log);
    assert e in given[..r] ==> e in given;
  }

  /** A refused event is left alone, neither settled nor waiting, as long as no restart finds the
      checkpoint below it. With RestartResends: it is delivered if and only if a restart comes before
      the checkpoint has passed it. */
  lemma {:induction false} RefusedIsLeftAlone(world: World, p: System, steps: seq<Step>, i: nat, e: Event)
    requires (forall k :: world(k).batchSize > 0) && Numbered(p) && Keeping(world, p, i)
    requires Possible(world, p, steps) && HarmlessFor(world, p, steps, i)
    requires Refused(p, i, e) && NeverBelow(steps, i, e)
    ensures var q := Run(world, p, steps);
      && Refused(q, i, e) && (Settled(q.targets[i], e) <==> Settled(p.targets[i], e))
      && e !in q.targets[i].batch && e !in q.targets[i].queue
    decreases steps
  {
    if steps == [] {
      RefusedNotWaiting(world, p, i, e);
    } else {
      StepNumbers(world, p, steps[0]);
      StepKeeps(world, p, steps[0], i);
      StepLeavesRefused(world, p, steps[0], i, e);
      RefusedIsLeftAlone(world, Next(world, p, steps[0]), steps[1..], i, e);
    }
  }

  lemma LastSentIsMark(start: nat, all: seq<Event>, t: Target)
    requires Ordered(start, all) && TargetOk(start, all, t)
    ensures start <= t.sender.lastSent <= Mark(start, all, |all|)
  {
    var a: nat, b: nat, n: nat :| TargetAt(start, all, t, a, b, n);
    MarkBounds(start, all, 0, a);
    MarkBounds(start, all, a, a);
  }

  /** No power loss can reveal a checkpoint below x. */
  ghost predicate AllFrom(s: State, x: nat) { forall c :: c in Revealed(s) ==> x <= c }

  lemma AdvancesFrom(s: State, u: State, x: nat)
    requires Advances(s, u) && s.file in s.onDisk && AllFrom(s, x)
    ensures AllFrom(u, x)
  {
    assert s.file in Revealed(s);
    forall c | c in Revealed(u) ensures x <= c {
      assert c in s.onDisk ==> c in Revealed(s);
      assert c in s.earlier ==> c in Revealed(s);
    }
  }

  lemma RevealedMoves(world: World, p: System, step: Step, i: nat, x: nat)
    requires (forall k :: world(k).batchSize > 0) && Numbered(p) && Keeping(world, p, i) && Enabled(p, step)
    requires AllFrom(p.targets[i].sender, x)
    ensures AllFrom(Next(world, p, step).targets[i].sender, x)
    ensures step.Restart? ==> x <= step.checkpoints[i]
  {
    var t := p.targets[i];
    FileIsLast(world(i).batchSize, p.ledgers[i].start, p.ledgers[i].given, t);
    match step
    case Emit(_, full, refused) =>
      NextEmits(world, p, step);
      EmitPartsOf(p, i, EmittedBy(p, step), full, refused);
    case Dequeue(_) =>
      WorkStepKeeps(world, p, step, i);
      AdvancesFrom(t.sender, Next(world, p, step).targets[i].sender, x);
    case Flush(_) =>
      WorkStepKeeps(world, p, step, i);
      AdvancesFrom(t.sender, Next(world, p, step).targets[i].sender, x);
    case Restart(_, _, _, _) => RestartMoves(world, p, step, i, x);
    case _ =>
  }

  lemma RestartMoves(world: World, p: System, step: Step, i: nat, x: nat)
    requires (forall k :: world(k).batchSize > 0) && Numbered(p) && i < |p.targets| && step.Restart? && Enabled(p, step)
    requires AllFrom(p.targets[i].sender, x) && p.targets[i].sender.file in p.targets[i].sender.onDisk
    ensures AllFrom(Next(world, p, step).targets[i].sender, x) && x <= step.checkpoints[i]
  {
    var t, c, found := p.targets[i], step.checkpoints[i], Found(p, step.kept);
    FoundIsPrefix(p, step.kept);
    OrderedPrefix(0, Accepted(p), |p.log| + step.kept);
    var b, r := RestartIs(world(i), found, t, step.slot, c, step.killed);
    assert c in Revealed(t.sender);
    AdvancesFrom(Reopened(t.sender, c, step.killed), RestartTarget(world(i), t, found, step.slot, c, step.killed).sender, x);
  }

  /** A kill takes back nothing and makes nothing permanent: a power loss after it may reveal what one before
      it could, an older checkpoint than the one in memory included. */
  lemma KillRevealsTheSame(size: nat, all: seq<Event>, counter: nat, l: Ledger, t: Target)
    requires Kept(size, all, counter, l, t)
    ensures Revealed(Reopened(t.sender, t.sender.file, true)) == Revealed(t.sender)
    ensures forall c :: c in Revealed(t.sender) ==> c <= Reopened(t.sender, t.sender.file, true).lastSent
  {
    FileIsLast(size, l.start, l.given, t);
  }

  /** Once every checkpoint a power loss could reveal has passed a refused event, it is lost for that
      target: no run settles it any more. While one has not, RefusedFateIff says that a crash revealing it
      sends the event again. */
  lemma {:induction false} PassedOverForGood(world: World, p: System, steps: seq<Step>, i: nat, e: Event)
    requires (forall k :: world(k).batchSize > 0) && Numbered(p) && Keeping(world, p, i)
    requires Possible(world, p, steps) && HarmlessFor(world, p, steps, i)
    requires Refused(p, i, e) && AllFrom(p.targets[i].sender, e.sequence)
    ensures var q := Run(world, p, steps);
      && Refused(q, i, e) && (Settled(q.targets[i], e) <==> Settled(p.targets[i], e))
    decreases steps
  {
    if steps != [] {
      RevealedMoves(world, p, steps[0], i, e.sequence);
      StepNumbers(world, p, steps[0]);
      StepKeeps(world, p, steps[0], i);
      StepLeavesRefused(world, p, steps[0], i, e);
      PassedOverForGood(world, Next(world, p, steps[0]), steps[1..], i, e);
    }
  }

  predicate NoRestart(steps: seq<Step>) { forall k :: 0 <= k < |steps| ==> !steps[k].Restart? }

  lemma {:induction false} NoRestartIsHarmless(world: World, p: System, steps: seq<Step>, i: nat)
    requires (forall k :: world(k).batchSize > 0) && |p.ledgers| == |p.targets| && Possible(world, p, steps) && i < |p.targets|
    requires NoRestart(steps)
    ensures HarmlessFor(world, p, steps, i)
    decreases steps
  {
    if steps != [] {
      NoRestartIsHarmless(world, Next(world, p, steps[0]), steps[1..], i);
    }
  }

  /** The fate of a refused event: whatever happens up to the next restart leaves it unsettled, and that
      restart sends it again if and only if the checkpoint it starts from has not passed the event. */
  lemma RefusedFateIff(world: World, p: System, steps: seq<Step>, crash: Step, i: nat, e: Event)
    requires (forall k :: world(k).batchSize > 0) && Numbered(p) && Keeping(world, p, i)
    requires Possible(world, p, steps) && NoRestart(steps) && crash.Restart? && Enabled(Run(world, p, steps), crash)
    requires Refused(p, i, e) && !Settled(p.targets[i], e)
    ensures var q := Run(world, p, steps);
      var u := Next(world, q, crash).targets[i];
      && !Settled(q.targets[i], e)
      && (Settled(u, e) || e in u.batch <==> crash.checkpoints[i] < e.sequence)
  {
    var q := Run(world, p, steps);
    NoRestartIsHarmless(world, p, steps, i);
    RefusedIsLeftAlone(world, p, steps, i, e);
    RunNumbers(world, p, steps);
    FoundIsPrefix(q, crash.kept);
    OrderedPrefix(0, Accepted(q), |q.log| + crash.kept);
    assert e in Found(q, crash.kept);
    UnsettledUntilSent(world(i), Found(q, crash.kept), q.targets[i], crash.slot, crash.checkpoints[i], crash.killed, e);
  }

  lemma UnsettledUntilSent(env: Env, log: seq<Event>, t: Target, slot: Option<int>, c: nat, killed: bool, e: Event)
    requires env.batchSize > 0 && Ordered(0, log) && e in log && !Settled(t, e)
    ensures var u := RestartTarget(env, t, log, slot, c, killed); Settled(u, e) || e in u.batch <==> c < e.sequence
  {
    var given := Filter(Above(c), log);
    var b, r := RestartIs(env, log, t, slot, c, killed);
    FilterMembers(Above(c), log);
    InEither(given, b, r, e);
  }
}
