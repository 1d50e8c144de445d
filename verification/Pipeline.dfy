/** The delivery protocol across crashes: engine counter, event log, one worker and one
    checkpointed sender per target (cmd/systemd-transition-exporter/main.go,
    internal/delivery/worker.go, internal/remote_write/remote_write.go). */
module Pipeline {
  import opened Types
  import opened Sorting
  import opened Sender

  /** One receiver. dropped lists the events reported as refused for good. */
  datatype Target = Target(sender: State, batch: seq<Event>, queue: seq<Event>, dropped: seq<Event>)

  /** What a target was to deliver since it last started: from checkpoint start on the events given, in
      order; refused are those accepted events that never got to it. */
  datatype Ledger = Ledger(start: nat, given: seq<Event>, refused: seq<Event>)

  /** log is durable; deferred holds events accepted but not durable yet, which a crash may take.
      saved is the highest sequence in the saved service states; it goes back when the file gets lost. */
  datatype System = System(
    counter: nat,
    saved: nat,
    log: seq<Event>,
    deferred: seq<Event>,
    targets: seq<Target>,
    ledgers: seq<Ledger>)

  /** AppendFails is an append that stores nothing: only the counter has moved. An append that fails
      after its record was written is an Emit refused by every target. A Restart finds the first kept
      of the deferred events still in the file; it follows a power loss, or the kill of the process. */
  datatype Step =
    | Emit(event: Event, full: bool, refused: set<nat>)
    | AppendFails
    | WriteDeferred(count: nat)
    | SaveStates(highest: nat)
    | Dequeue(target: nat)
    | Flush(target: nat)
    | Restart(slot: Option<int>, checkpoints: seq<nat>, kept: nat, killed: bool)

  /** The environment of each target, by its index. */
  type World = nat -> Env

  // ------------------------------------------------------------------ the worker

  /** The worker after Send ended with out: a rejected batch is dropped unless the context was cancelled,
      an undelivered one kept. */
  function AfterSend(t: Target, s: State, out: Outcome, stopped: bool): Target {
    if out == Sent then t.(sender := s, batch := [])
    else if out.Permanent? && !stopped then t.(sender := s, batch := [], dropped := t.dropped + t.batch)
    else t.(sender := s)
  }

  function FlushTarget(env: Env, t: Target): Target
    requires env.batchSize > 0
  {
    if t.batch == [] then t
    else var (s, out) := Send(env, t.sender, t.batch); AfterSend(t, s, out, env.stopped(s.requests))
  }

  function DequeueTarget(env: Env, t: Target): Target
    requires env.batchSize > 0
  {
    if t.queue == [] then t
    else
      var u := t.(batch := t.batch + [t.queue[0]], queue := t.queue[1..]);
      if |u.batch| >= env.batchSize then FlushTarget(env, u) else u
  }

  /** How many leading events precede the slot. */
  function BeforeSlot(slot: Option<int>, pending: seq<Event>): (n: nat)
    ensures n <= |pending|
  {
    if slot.None? || pending == [] || pending[0].timeMs >= slot.value then 0
    else 1 + BeforeSlot(slot, pending[1..])
  }

  /** The worker's start: the log above the checkpoint goes out in two parts, around the fill. */
  function Startup(env: Env, sender: State, log: seq<Event>, slot: Option<int>): (State, seq<Event>)
    requires env.batchSize > 0
  {
    var pending := Filter(Above(sender.lastSent), log);
    var split := BeforeSlot(slot, pending);
    var (s, out) := Send(env, sender, pending[..split]);
    if out != Sent then (s, pending)
    else
      var (u, out) := Send(env, s, pending[split..]);
      (u, if out != Sent then pending[split..] else [])
  }

  /** The sender of a new process that reads checkpoint c. After a kill a power loss may still bring back
      what it could before; after a power loss only c is left. */
  function Reopened(s: State, c: nat, killed: bool): State {
    s.(lastSent := c, file := c, onDisk := {c}, earlier := if killed then Revealed(s) else {})
  }

  function RestartTarget(env: Env, t: Target, log: seq<Event>, slot: Option<int>, c: nat, killed: bool): Target
    requires env.batchSize > 0
  {
    var (s, batch) := Startup(env, Reopened(t.sender, c, killed), log, slot);
    Target(s, batch, [], t.dropped)
  }

  /** The worker as the program has it, with its own sender. */
  class TargetWorker {
    const sender: RemoteWriter
    var batch: seq<Event>
    var queue: seq<Event>
    var dropped: seq<Event>

    function View(): Target
      reads this, sender
    {
      Target(sender.View(), batch, queue, dropped)
    }

    constructor (sender: RemoteWriter, dropped: seq<Event>)
      ensures this.sender == sender && batch == queue == [] && this.dropped == dropped
    {
      this.sender, batch, queue, this.dropped := sender, [], [], dropped;
    }

    method FlushBatch()
      requires sender.env.batchSize > 0
      modifies this, sender
      ensures View() == FlushTarget(sender.env, old(View()))
    {
      if |batch| == 0 {
        return;
      }
      var out := sender.SendEvents(batch);
      if out == Sent {
        batch := [];
        return;
      }
      if sender.env.stopped(sender.requests) {
        return;
      }
      if out.Permanent? {
        dropped := dropped + batch;
        batch := [];
      }
    }

    method TakeOne()
      requires sender.env.batchSize > 0
      modifies this, sender
      ensures View() == DequeueTarget(sender.env, old(View()))
    {
      if |queue| == 0 {
        return;
      }
      batch, queue := batch + [queue[0]], queue[1..];
      if |batch| >= sender.env.batchSize {
        FlushBatch();
      }
    }

    /** Sends the log above the checkpoint in two parts; what could not be sent becomes the batch. */
    method Start(log: seq<Event>, slot: Option<int>)
      requires sender.env.batchSize > 0
      modifies this`batch, sender
      ensures (sender.View(), batch) == Startup(sender.env, old(sender.View()), log, slot)
    {
      var last := sender.lastSent;
      var pending: seq<Event> := [];
      for i := 0 to |log|
        invariant pending == Filter(Above(last), log[..i])
      {
        assert log[..i + 1][..i] == log[..i];
        if log[i].sequence > last {
          pending := pending + [log[i]];
        }
      }
      assert log[..|log|] == log;
      var split := SplitAt(pending, slot);
      var out := sender.SendEvents(pending[..split]);
      if out != Sent {
        batch := pending;
        return;
      }
      out := sender.SendEvents(pending[split..]);
      batch := if out != Sent then pending[split..] else [];
    }
  }

  /** The loop that finds where the slot begins. */
  method SplitAt(pending: seq<Event>, slot: Option<int>) returns (split: nat)
    ensures split == BeforeSlot(slot, pending)
    ensures split <= |pending|
    ensures slot.Some? ==> forall i :: 0 <= i < split ==> pending[i].timeMs < slot.value
    ensures slot.Some? && split < |pending| ==> pending[split].timeMs >= slot.value
  {
    split := 0;
    if slot.Some? {
      while split < |pending| && pending[split].timeMs < slot.value
        invariant split <= |pending|
        invariant forall i :: 0 <= i < split ==> pending[i].timeMs < slot.value
        invariant BeforeSlot(slot, pending) == split + BeforeSlot(slot, pending[split..])
      {
        assert pending[split..][1..] == pending[split + 1..];
        split := split + 1;
      }
    }
  }

  // ------------------------------------------------------------------ the whole system

  predicate Enabled(p: System, step: Step) {
    match step
    case Emit(_, _, _) => true
    case AppendFails => true
    case WriteDeferred(count) => count <= |p.deferred|
    case SaveStates(highest) => highest <= p.counter
    case Dequeue(i) => i < |p.targets|
    case Flush(i) => i < |p.targets|
    case Restart(_, cs, kept, killed) =>
      && kept <= |p.deferred| && |cs| == |p.targets|
      && forall i :: 0 <= i < |cs| ==>
           if killed then cs[i] == p.targets[i].sender.file else cs[i] in Revealed(p.targets[i].sender)
  }

  /** The event joins the queue of every target that has room. */
  function EnqueueAll(targets: seq<Target>, e: Event, refused: set<nat>): (r: seq<Target>)
    ensures |r| == |targets|
    ensures forall i :: 0 <= i < |r| ==>
      r[i] == if i in refused then targets[i] else targets[i].(queue := targets[i].queue + [e])
  {
    seq(|targets|, i requires 0 <= i < |targets| =>
      if i in refused then targets[i] else targets[i].(queue := targets[i].queue + [e]))
  }

  function NoteAll(ledgers: seq<Ledger>, e: Event, refused: set<nat>): (r: seq<Ledger>)
    ensures |r| == |ledgers|
    ensures forall i :: 0 <= i < |r| ==>
      r[i] == if i in refused then ledgers[i].(refused := ledgers[i].refused + [e]) else ledgers[i].(given := ledgers[i].given + [e])
  {
    seq(|ledgers|, i requires 0 <= i < |ledgers| =>
      if i in refused then ledgers[i].(refused := ledgers[i].refused + [e]) else ledgers[i].(given := ledgers[i].given + [e]))
  }

  function RestartAll(world: World, targets: seq<Target>, log: seq<Event>, slot: Option<int>, cs: seq<nat>, killed: bool): (r: seq<Target>)
    requires (forall i :: world(i).batchSize > 0) && |cs| == |targets|
    ensures |r| == |targets|
    ensures forall i :: 0 <= i < |r| ==> r[i] == RestartTarget(world(i), targets[i], log, slot, cs[i], killed)
  {
    seq(|targets|, i requires 0 <= i < |targets| => RestartTarget(world(i), targets[i], log, slot, cs[i], killed))
  }

  /** Refused before and not above the checkpoint: the restart passes over them. */
  function PassedOver(refused: seq<Event>, c: nat): Event -> bool {
    (e: Event) => e in refused && e.sequence <= c
  }

  function NewLedger(l: Ledger, log: seq<Event>, c: nat): Ledger {
    Ledger(c, Filter(Above(c), log), Filter(PassedOver(l.refused, c), log))
  }

  function NewLedgers(ledgers: seq<Ledger>, log: seq<Event>, cs: seq<nat>): (r: seq<Ledger>)
    requires |cs| == |ledgers|
    ensures |r| == |ledgers|
    ensures forall i :: 0 <= i < |r| ==> r[i] == NewLedger(ledgers[i], log, cs[i])
  {
    seq(|ledgers|, i requires 0 <= i < |ledgers| => NewLedger(ledgers[i], log, cs[i]))
  }

  /** What a restart finds in the file. */
  function Found(p: System, kept: nat): seq<Event>
    requires kept <= |p.deferred|
  {
    p.log + p.deferred[..kept]
  }

  function EmitTo(p: System, e: Event, full: bool, refused: set<nat>): System {
    var stored := !full && p.deferred == [];
    p.(counter := p.counter + 1,
       log := if stored then p.log + [e] else p.log,
       deferred := if stored then p.deferred else p.deferred + [e],
       targets := EnqueueAll(p.targets, e, refused),
       ledgers := NoteAll(p.ledgers, e, refused))
  }

  /** The first count deferred events become durable. */
  function Write(p: System, count: nat): System
    requires count <= |p.deferred|
  {
    p.(log := p.log + p.deferred[..count], deferred := p.deferred[count..])
  }

  /** One step. A restart sets the counter to what restoring the saved states and replaying the log
      yields: the highest sequence in either. */
  function Next(world: World, p: System, step: Step): (q: System)
    requires (forall i :: world(i).batchSize > 0) && |p.ledgers| == |p.targets|
    requires Enabled(p, step)
    ensures |q.ledgers| == |q.targets| == |p.targets|
  {
    match step
    case Emit(event, full, refused) => EmitTo(p, event.(sequence := p.counter + 1), full, refused)
    case AppendFails => p.(counter := p.counter + 1)
    case WriteDeferred(count) => Write(p, count)
    case SaveStates(highest) => p.(saved := highest)
    case Dequeue(i) => p.(targets := p.targets[i := DequeueTarget(world(i), p.targets[i])])
    case Flush(i) => p.(targets := p.targets[i := FlushTarget(world(i), p.targets[i])])
    case Restart(slot, cs, kept, killed) =>
      System(Highest(p.saved, Found(p, kept)), p.saved, p.log, p.deferred[..kept],
             RestartAll(world, p.targets, Found(p, kept), slot, cs, killed), NewLedgers(p.ledgers, Found(p, kept), cs))
  }

  /** Everything accepted for delivery, in order. */
  function Accepted(p: System): seq<Event> { p.log + p.deferred }

  predicate Settled(t: Target, e: Event) { e in t.sender.acked || e in t.dropped }

  function Initial(targets: nat): System {
    System(0, 0, [], [],
           seq(targets, _ => Target(State(0, 0, {0}, {}, [], 0, 0, 0, 0, 0), [], [], [])),
           seq(targets, _ => Ledger(0, [], [])))
  }
}
