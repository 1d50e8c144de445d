/** The registry of probe runs, with Start, Stop and the end of a run interleaved in any way
    (internal/sip/probe.go, Start, Stop and finish). */
module ProbeRegistry {
  import opened Types

  /** One goroutine: whether Stop took it out of the registry, whether its context is cancelled, and
      whether it has called finish. */
  datatype Run = Run(service: string, unregistered: bool, cancelled: bool, finished: bool)

  /** Runs in cancels were taken out by a Stop that has yet to cancel them. */
  datatype State = State(
    probes: set<string>,
    running: map<string, nat>,
    next: nat,
    runs: map<nat, Run>,
    cancels: set<nat>)

  // ------------------------------------------------------------------ operations as functions

  function Started(p: State, service: string): State {
    if service in p.running || service !in p.probes then p
    else
      var id := p.next + 1;
      p.(next := id, running := p.running[service := id], runs := p.runs[id := Run(service, false, false, false)])
  }

  /** The part of Stop under the lock. */
  function Unregistered(p: State, service: string): State {
    if service !in p.running || p.running[service] !in p.runs then p
    else
      var id := p.running[service];
      p.(running := p.running - {service}, cancels := p.cancels + {id}, runs := p.runs[id := p.runs[id].(unregistered := true)])
  }

  /** The part of Stop after the lock. */
  function Cancelled(p: State, id: nat): State {
    if id !in p.cancels || id !in p.runs then p
    else p.(cancels := p.cancels - {id}, runs := p.runs[id := p.runs[id].(cancelled := true)])
  }

  function Finished(p: State, id: nat): State {
    if id !in p.runs || p.runs[id].finished then p
    else
      var service := p.runs[id].service;
      p.(running := if service in p.running && p.running[service] == id then p.running - {service} else p.running,
         runs := p.runs[id := p.runs[id].(finished := true)])
  }

  // ------------------------------------------------------------------ the registry as the program has it

  class Prober {
    const probes: set<string>
    var running: map<string, nat>
    var next: nat
    ghost var runs: map<nat, Run>
    ghost var cancels: set<nat>

    ghost function View(): State
      reads this
    {
      State(probes, running, next, runs, cancels)
    }

    constructor (probes: set<string>)
      ensures View() == State(probes, map[], 0, map[], {})
      ensures Sound(View())
    {
      this.probes, running, next, runs, cancels := probes, map[], 0, map[], {};
    }

    /** The id of the goroutine to launch, if any. */
    method Start(service: string) returns (launched: Option<nat>)
      requires Sound(View())
      modifies this`running, this`next, this`runs
      ensures View() == Started(old(View()), service) && Sound(View())
      ensures launched.Some? <==> old(service !in running && service in probes)
      ensures launched.Some? ==> launched.value !in old(runs) && service in running && running[service] == launched.value
    {
      StepKeeps(View(), StartStep(service));
      if service in running {
        return None;
      }
      if service !in probes {
        return None;
      }
      next := next + 1;
      var id := next;
      running := running[service := id];
      runs := runs[id := Run(service, false, false, false)];
      return Some(id);
    }

    /** The run the caller has to cancel, if any. */
    method Unregister(service: string) returns (current: Option<nat>)
      requires Sound(View())
      modifies this`running, this`runs, this`cancels
      ensures View() == Unregistered(old(View()), service) && Sound(View())
      ensures current == if service in old(running) then Some(old(running)[service]) else None
      ensures service !in running
    {
      StepKeeps(View(), UnregisterStep(service));
      if service !in running {
        return None;
      }
      current := Some(running[service]);
      runs := runs[running[service] := runs[running[service]].(unregistered := true)];
      cancels := cancels + {running[service]};
      running := running - {service};
    }

    method Finish(service: string, id: nat)
      requires Sound(View()) && id in runs && runs[id].service == service && !runs[id].finished
      modifies this`running, this`runs
      ensures View() == Finished(old(View()), id) && Sound(View())
    {
      StepKeeps(View(), FinishStep(id));
      if service in running && running[service] == id {
        running := running - {service};
      }
      runs := runs[id := runs[id].(finished := true)];
    }
  }

  // ------------------------------------------------------------------ what every step keeps

  /** Ids up to next have been used, each for one run. A run is registered for its service exactly as
      long as it has neither finished nor been taken out by Stop. Stop cancels exactly what it took
      out. */
  ghost predicate Sound(p: State) {
    && (forall id :: id in p.runs ==> 1 <= id <= p.next)
    && (forall s :: s in p.running ==> p.running[s] in p.runs && p.runs[p.running[s]].service == s && Live(p.runs[p.running[s]]))
    && (forall id :: id in p.runs && Live(p.runs[id]) ==> p.runs[id].service in p.running && p.running[p.runs[id].service] == id)
    && (forall id :: id in p.cancels ==> id in p.runs)
    && (forall id :: id in p.runs ==> (p.runs[id].unregistered <==> p.runs[id].cancelled || id in p.cancels))
  }

  predicate Live(r: Run) { !r.finished && !r.unregistered }

  datatype Step = StartStep(service: string) | UnregisterStep(service: string) | CancelStep(id: nat) | FinishStep(id: nat)

  function Take(p: State, step: Step): State {
    match step
    case StartStep(service) => Started(p, service)
    case UnregisterStep(service) => Unregistered(p, service)
    case CancelStep(id) => Cancelled(p, id)
    case FinishStep(id) => Finished(p, id)
  }

  function After(p: State, steps: seq<Step>): State
    decreases steps
  {
    if steps == [] then p else After(Take(p, steps[0]), steps[1..])
  }

  lemma StepKeeps(p: State, step: Step)
    requires Sound(p)
    ensures Sound(Take(p, step))
  {
  }

  /** In every interleaving a run is registered exactly while it is live, and ids stay unique. */
  lemma {:induction false} RegistryStaysSound(p: State, steps: seq<Step>)
    requires Sound(p)
    ensures Sound(After(p, steps))
    decreases steps
  {
    if steps != [] {
      StepKeeps(p, steps[0]);
      RegistryStaysSound(Take(p, steps[0]), steps[1..]);
    }
  }

  /** An id, once used, names the same run for ever; what was taken out, cancelled or finished stays
      so, and ids used later are higher. */
  lemma {:induction false} IdsAreUsedOnce(p: State, steps: seq<Step>, id: nat)
    requires Sound(p)
    ensures var q := After(p, steps);
      && p.next <= q.next
      && (id in p.runs ==>
            && id in q.runs && q.runs[id].service == p.runs[id].service
            && (p.runs[id].unregistered ==> q.runs[id].unregistered)
            && (p.runs[id].cancelled ==> q.runs[id].cancelled)
            && (p.runs[id].finished ==> q.runs[id].finished))
      && (id !in p.runs && id in q.runs ==> p.next < id)
    decreases steps
  {
    if steps != [] {
      StepKeeps(p, steps[0]);
      IdsAreUsedOnce(Take(p, steps[0]), steps[1..], id);
    }
  }

  /** A registered run stays registered until it finishes itself or Stop takes it out, whatever other
      runs, older ones of the same service included, do meanwhile. */
  lemma {:induction false} SuccessorSurvives(p: State, steps: seq<Step>, service: string)
    requires Sound(p) && service in p.running
    requires forall k :: 0 <= k < |steps| ==> steps[k] != UnregisterStep(service) && steps[k] != FinishStep(p.running[service])
    ensures var q := After(p, steps); service in q.running && q.running[service] == p.running[service]
    decreases steps
  {
    if steps != [] {
      StepKeeps(p, steps[0]);
      SuccessorSurvives(Take(p, steps[0]), steps[1..], service);
    }
  }

  /** At most one probe loop per service is neither stopped nor about to be: two unfinished runs of one
      service that Stop has not taken out are the same run. */
  lemma OneLoopPerService(p: State, steps: seq<Step>, a: nat, b: nat)
    requires Sound(p)
    requires var q := After(p, steps);
      a in q.runs && b in q.runs && q.runs[a].service == q.runs[b].service && Live(q.runs[a]) && Live(q.runs[b])
    ensures a == b
  {
    RegistryStaysSound(p, steps);
  }

  /** A registered run is never cancelled, even by the second half of a Stop that overlaps its start. */
  lemma RegisteredIsNotCancelled(p: State, steps: seq<Step>, service: string)
    requires Sound(p) && service in After(p, steps).running
    ensures var q := After(p, steps); q.running[service] in q.runs && !q.runs[q.running[service]].cancelled
  {
    RegistryStaysSound(p, steps);
  }

  /** Once every Stop has returned, each unfinished run is registered or its context is cancelled. */
  lemma StoppedRunsAreCancelled(p: State, steps: seq<Step>, id: nat)
    requires Sound(p)
    requires var q := After(p, steps); q.cancels == {} && id in q.runs && !q.runs[id].finished
    ensures var q := After(p, steps);
      if q.runs[id].cancelled then !(q.runs[id].service in q.running && q.running[q.runs[id].service] == id)
      else q.runs[id].service in q.running && q.running[q.runs[id].service] == id
  {
    RegistryStaysSound(p, steps);
  }

  /** Everything but one service and one run is left alone. */
  ghost predicate OnlyOf(p: State, q: State, service: string, id: nat) {
    && q.probes == p.probes
    && (forall s :: s != service ==> (s in q.running <==> s in p.running) && (s in p.running ==> q.running[s] == p.running[s]))
    && (forall k :: k != id ==> (k in q.runs <==> k in p.runs) && (k in p.runs ==> q.runs[k] == p.runs[k]))
  }

  /** Starting a configured service that has no run registers a live one; stopping takes the registered run
      out and hands it over, cancelling reaches it, and a run that ends is out. */
  lemma StepsWork(p: State, service: string, id: nat)
    requires Sound(p)
    ensures var q := Started(p, service);
      if service in p.probes && service !in p.running
      then OnlyOf(p, q, service, q.next) && service in q.running && q.running[service] == q.next == p.next + 1
           && q.runs[q.next] == Run(service, false, false, false) && q.cancels == p.cancels
      else q == p
    ensures var q := Unregistered(p, service);
      if service in p.running
      then var was := p.running[service];
           OnlyOf(p, q, service, was) && service !in q.running && q.cancels == p.cancels + {was}
           && q.runs[was] == p.runs[was].(unregistered := true) && q.next == p.next
      else q == p
    ensures id in p.cancels ==>
      var q := Cancelled(p, id);
      OnlyOf(p, q, p.runs[id].service, id) && q.runs[id] == p.runs[id].(cancelled := true) && q.running == p.running
      && q.cancels == p.cancels - {id} && q.next == p.next
    ensures id in p.runs && !p.runs[id].finished ==>
      var q := Finished(p, id);
      OnlyOf(p, q, p.runs[id].service, id) && q.runs[id] == p.runs[id].(finished := true)
      && !(p.runs[id].service in q.running && q.running[p.runs[id].service] == id) && q.cancels == p.cancels && q.next == p.next
  {
  }

  /** A configured service can always be restarted: after a Stop, whatever happens in between, a Start
      registers a run of its own, and the stopped one is cancelled once that Stop has returned. */
  lemma StopThenStart(p: State, service: string, between: seq<Step>)
    requires Sound(p) && service in p.running && service in p.probes
    requires forall k :: 0 <= k < |between| ==> between[k] != StartStep(service)
    ensures var stopped := p.running[service];
      var q := After(Unregistered(p, service), between);
      var r := Started(q, service);
      && service in r.running && r.running[service] > p.next && stopped in r.runs
      && (stopped !in r.cancels ==> r.runs[stopped].cancelled)
  {
    var a := Unregistered(p, service);
    StepKeeps(p, UnregisterStep(service));
    RegistryStaysSound(a, between);
    IdsAreUsedOnce(a, between, p.running[service]);
    StaysFree(a, between, service);
  }

  lemma {:induction false} StaysFree(p: State, steps: seq<Step>, service: string)
    requires Sound(p) && service !in p.running && service in p.probes
    requires forall k :: 0 <= k < |steps| ==> steps[k] != StartStep(service)
    ensures var q := After(p, steps); service !in q.running && service in q.probes
    decreases steps
  {
    if steps != [] {
      StepKeeps(p, steps[0]);
      StaysFree(Take(p, steps[0]), steps[1..], service);
    }
  }
}
