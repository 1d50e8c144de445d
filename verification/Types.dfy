/** The records exchanged between the parts of the exporter (internal/model). */
module Types {

  datatype Option<+T> = None | Some(value: T)

  datatype Availability = Unknown | Up | Down

  datatype Source = Systemd | HostReboot | Recovery | Sip | Dns | Agw

  /** One detected transition of one service. */
  datatype Event = Event(
    sequence: nat,
    service: string,
    state: Availability,
    timeMs: int,
    monoUs: nat,
    bootId: string,
    source: Source,
    activeState: string,
    subState: string)

  /** One availability sample of one service. */
  datatype Sample = Sample(service: string, state: Availability, timestampMs: int)

  /** What systemd reports about a unit: only the latest enter and exit times. */
  datatype Snapshot = Snapshot(
    service: string,
    activeState: string,
    subState: string,
    enterUs: nat,
    exitUs: nat,
    enterMonoUs: nat,
    exitMonoUs: nat,
    bootId: string)

  /** The last known state of a service, as the engine keeps it and the log saves it. */
  datatype ServiceState = ServiceState(
    service: string,
    availability: Availability,
    activeState: string,
    subState: string,
    bootId: string,
    lastEnterUs: nat,
    lastExitUs: nat,
    lastEnterMonoUs: nat,
    lastExitMonoUs: nat,
    lastEventMs: int,
    lastEventMonoUs: nat,
    lastSequence: nat,
    awaiting: bool)

  function Min(a: int, b: int): int { if a <= b then a else b }

  function Max(a: int, b: int): int { if a >= b then a else b }

  /** The highest sequence among start and those of the log. */
  function Highest(start: nat, log: seq<Event>): nat {
    if log == [] then start else Max(Highest(start, log[..|log| - 1]), log[|log| - 1].sequence)
  }
}
