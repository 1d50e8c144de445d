/** What the calls of the log come to, read off the way their I/O ends (internal/wal/wal.go, Append,
    SaveState and flushLocked). */
module WalCalls {
  import opened Types
  import opened LogBytes
  import opened Wal

  // ------------------------------------------------------------------ how single attempts end

  /** Attempt n at a record: the call that keeps the line out of the file, if any. A short write is an
      error other than a full disk. */
  function Recorded(env: Env, n: nat, e: Event): Fault {
    var r := env.io(n);
    if r.seek != Fine then r.seek
    else if r.write != Fine then r.write
    else if r.written < |Line(env.codec, e)| then Broken
    else Fine
  }

  /** The same, the sync included. */
  function Written(env: Env, n: nat, e: Event): Fault {
    if Recorded(env, n, e) == Fine && env.fsync then env.io(n).sync else Recorded(env, n, e)
  }

  function First(calls: seq<Fault>): Fault {
    if calls == [] then Fine else if calls[0] != Fine then calls[0] else First(calls[1..])
  }

  /** A rename that fails is tried again once the old file is out of the way. */
  function Renamed(io: StateIo): Fault {
    if io.rename == Fine then Fine else if io.remove == Fine then io.renameAgain else io.rename
  }

  /** The calls that rewrite state.json: those before the rename, and those behind it. */
  function Preparing(fsync: bool, io: StateIo): seq<Fault> {
    [io.open, io.write, if fsync then io.sync else Fine, io.close]
  }

  function Settling(fsync: bool, io: StateIo): seq<Fault> {
    if fsync then [io.dirOpen, io.dirSync, io.dirClose] else []
  }

  function Rewriting(fsync: bool, io: StateIo): seq<Fault> { Preparing(fsync, io) + [Renamed(io)] + Settling(fsync, io) }

  function Rewritten(env: Env, n: nat): Fault { First(Rewriting(env.fsync, env.io(n).state)) }

  lemma FirstOfTwo(a: seq<Fault>, b: seq<Fault>)
    ensures First(a + b) == if First(a) != Fine then First(a) else First(b)
  {
    if a == [] {
      assert a + b == b;
    } else {
      assert (a + b)[1..] == a[1..] + b;
    }
  }

  lemma FirstOne(a: Fault)
    ensures First([a]) == a
  {
    assert [a][1..] == [];
  }

  lemma FirstOf(a: Fault, b: Fault, c: Fault, d: Fault)
    ensures First([a, b, c, d]) == if a != Fine then a else if b != Fine then b else if c != Fine then c else d
    ensures First([a, b, c]) == if a != Fine then a else if b != Fine then b else c
  {
    FirstOne(a);
    FirstOne(b);
    FirstOne(c);
    FirstOne(d);
    FirstOfTwo([a], [b]);
    FirstOfTwo([c], [d]);
    FirstOfTwo([a] + [b], [c]);
    FirstOfTwo([a] + [b], [c] + [d]);
    assert [a, b, c, d] == [a] + [b] + ([c] + [d]) && [a, b, c] == [a] + [b] + [c];
  }

  /** The rewritten file holds the new states exactly when every call up to the rename works; it is gone
      only between removing the old file and a second rename that fails. */
  lemma StateFileComesTo(fsync: bool, io: StateIo, file: StateFile, states: States)
    ensures var (after, err) := WriteStateFile(fsync, io, file, states);
      && err == First(Rewriting(fsync, io))
      && after == (if First(Preparing(fsync, io)) != Fine then file
                   else if Renamed(io) == Fine then Holds(states)
                   else if io.remove == Fine then Missing
                   else file)
  {
    FirstOfTwo(Preparing(fsync, io) + [Renamed(io)], Settling(fsync, io));
    FirstOfTwo(Preparing(fsync, io), [Renamed(io)]);
    FirstOne(Renamed(io));
    FirstOf(io.open, io.write, if fsync then io.sync else Fine, io.close);
    FirstOf(io.dirOpen, io.dirSync, io.dirClose, Fine);
  }

  // ------------------------------------------------------------------ records in a row

  /** How many of the records go through when they are written one per attempt from attempt n on. */
  function Through(env: Env, n: nat, events: seq<Event>): (k: nat)
    ensures k <= |events|
    decreases events
  {
    if events == [] || Written(env, n, events[0]) != Fine then 0 else 1 + Through(env, n + 1, events[1..])
  }

  /** They are the ones before the first attempt that fails. */
  lemma {:induction false} ThroughIs(env: Env, n: nat, events: seq<Event>)
    ensures var k := Through(env, n, events);
      && (forall i :: 0 <= i < k ==> Written(env, n + i, events[i]) == Fine)
      && (k < |events| ==> Written(env, n + k, events[k]) != Fine)
    decreases events
  {
    if events != [] && Written(env, n, events[0]) == Fine {
      ThroughIs(env, n + 1, events[1..]);
      var k := Through(env, n, events);
      forall i | 0 <= i < k ensures Written(env, n + i, events[i]) == Fine {
        if i > 0 {
          assert Written(env, n + 1 + (i - 1), events[1..][i - 1]) == Fine;
        }
      }
    }
  }

  /** How many get into the file: those, and the next one if only its sync fails. */
  function Stored(env: Env, n: nat, events: seq<Event>): (m: nat)
    ensures m <= |events|
  {
    var k := Through(env, n, events);
    if k < |events| && Recorded(env, n + k, events[k]) == Fine then k + 1 else k
  }

  lemma WriteComesTo(env: Env, s: Log, e: Event)
    ensures var (t, err) := WriteEvent(env, s, e);
      && err == Written(env, s.clock, e)
      && t == s.(data := t.data, synced := t.synced, syncNeeded := t.syncNeeded, clock := s.clock + 1)
      && t.syncNeeded == (s.syncNeeded || (Recorded(env, s.clock, e) == Fine && err != Fine))
      && t.synced == (if err == Fine && env.fsync then |t.data| else s.synced)
      && (Recorded(env, s.clock, e) == Fine ==> t.data == s.data + Line(env.codec, e))
      && (Recorded(env, s.clock, e) != Fine && !Torn(env.io(s.clock), Line(env.codec, e)) ==> t.data == s.data)
  {
  }

  /** Draining the events from attempt n on leaves err and left, at attempt clock. */
  ghost predicate QueueLeft(env: Env, n: nat, events: seq<Event>, err: Fault, left: seq<Event>, owed: bool, clock: nat) {
    var k, m := Through(env, n, events), Stored(env, n, events);
    && err == (if k == |events| then Fine else Written(env, n + k, events[k]))
    && left == events[m..] && owed == (k < m) && clock == n + Min(k + 1, |events|)
  }

  /** Draining s leaves t and err: what is owed, and what is in the file. */
  ghost predicate DrainedQueue(env: Env, s: Log, t: Log, err: Fault) {
    QueueLeft(env, s.clock, s.pending, err, t.pending, t.syncNeeded, t.clock) && SameStates(s, t)
  }

  ghost predicate DrainedFile(env: Env, s: Log, t: Log) {
    var k, m := Through(env, s.clock, s.pending), Stored(env, s.clock, s.pending);
    && t.data == s.data + Lines(env.codec, s.pending[..m])
    && t.synced == (if env.fsync && k > 0 then |s.data + Lines(env.codec, s.pending[..k])| else s.synced)
  }

  lemma ThroughFirst(env: Env, n: nat, events: seq<Event>)
    requires events != []
    ensures var ok := Written(env, n, events[0]) == Fine;
      && Through(env, n, events) == (if ok then 1 + Through(env, n + 1, events[1..]) else 0)
      && Stored(env, n, events) == (if ok then 1 + Stored(env, n + 1, events[1..])
                                    else if Recorded(env, n, events[0]) == Fine then 1 else 0)
  {
  }

  lemma LinesFirst(c: Codec, data: seq<Byte>, events: seq<Event>, m: nat)
    requires 0 < m <= |events|
    ensures data + Lines(c, events[..m]) == data + Line(c, events[0]) + Lines(c, events[1..][..m - 1])
  {
    assert events[..m][0] == events[0] && events[..m][1..] == events[1..][..m - 1];
    Assoc(data, Line(c, events[0]), Lines(c, events[1..][..m - 1]));
  }

  lemma NoLines(c: Codec, data: seq<Byte>)
    ensures data + Lines(c, []) == data
  {
  }

  lemma {:induction false} DrainComesTo(env: Env, s: Log) returns (t: Log, err: Fault)
    requires !s.syncNeeded
    ensures (t, err) == Drain(env, s) && DrainedQueue(env, s, t, err) && (DrainClean(env, s) ==> DrainedFile(env, s, t))
    decreases |s.pending|
  {
    if s.pending == [] {
      t, err := s, Fine;
      assert s.pending[..0] == [];
      NoLines(env.codec, s.data);
    } else {
      var next, fault := WriteEvent(env, s, s.pending[0]).0, WriteEvent(env, s, s.pending[0]).1;
      WriteComesTo(env, s, s.pending[0]);
      if fault == Fine {
        next := next.(pending := s.pending[1..]);
        t, err := DrainComesTo(env, next);
        DrainedOneMore(env, s, next, t, err);
        if DrainClean(env, s) {
          FileOneMore(env, s, next, t);
        }
      } else {
        t, err := if next.syncNeeded then next.(pending := s.pending[1..]) else next, fault;
        DrainStops(env, s, t, err);
      }
    }
  }

  lemma DrainStops(env: Env, s: Log, t: Log, err: Fault)
    requires s.pending != [] && err == Written(env, s.clock, s.pending[0]) != Fine
    requires var whole := Recorded(env, s.clock, s.pending[0]) == Fine;
      && t == s.(data := t.data, pending := if whole then s.pending[1..] else s.pending, syncNeeded := whole, clock := s.clock + 1)
      && (whole ==> t.data == s.data + Line(env.codec, s.pending[0]))
      && (!whole && DrainClean(env, s) ==> t.data == s.data)
    ensures DrainedQueue(env, s, t, err) && (DrainClean(env, s) ==> DrainedFile(env, s, t))
  {
    ThroughFirst(env, s.clock, s.pending);
    NoLines(env.codec, s.data);
    assert s.pending[..0] == [] && s.pending[0..] == s.pending && s.pending[1..][..0] == [];
    LinesFirst(env.codec, s.data, s.pending, 1);
    NoLines(env.codec, s.data + Line(env.codec, s.pending[0]));
  }

  lemma QueueOneMore(env: Env, n: nat, events: seq<Event>, err: Fault, left: seq<Event>, owed: bool, clock: nat)
    requires events != [] && Written(env, n, events[0]) == Fine
    requires QueueLeft(env, n + 1, events[1..], err, left, owed, clock)
    ensures QueueLeft(env, n, events, err, left, owed, clock)
  {
    ThroughFirst(env, n, events);
    var m := Stored(env, n + 1, events[1..]);
    assert events[1..][m..] == events[m + 1..];
  }

  lemma DrainedOneMore(env: Env, s: Log, next: Log, t: Log, err: Fault)
    requires s.pending != [] && Written(env, s.clock, s.pending[0]) == Fine
    requires next.pending == s.pending[1..] && next.clock == s.clock + 1 && SameStates(s, next)
    requires DrainedQueue(env, next, t, err)
    ensures DrainedQueue(env, s, t, err)
  {
    QueueOneMore(env, s.clock, s.pending, err, t.pending, t.syncNeeded, t.clock);
  }

  lemma FileOneMore(env: Env, s: Log, next: Log, t: Log)
    requires s.pending != [] && Written(env, s.clock, s.pending[0]) == Fine
    requires next.pending == s.pending[1..] && next.clock == s.clock + 1 && next.data == s.data + Line(env.codec, s.pending[0])
    requires next.synced == (if env.fsync then |next.data| else s.synced)
    requires DrainedFile(env, next, t)
    ensures DrainedFile(env, s, t)
  {
    ThroughFirst(env, s.clock, s.pending);
    var k, m := Through(env, s.clock, s.pending), Stored(env, s.clock, s.pending);
    LinesFirst(env.codec, s.data, s.pending, m);
    LinesFirst(env.codec, s.data, s.pending, k);
    assert s.pending[1..][..0] == [];
    NoLines(env.codec, next.data);
  }

  lemma {:induction false} ThroughIsClean(env: Env, s: Log)
    requires Through(env, s.clock, s.pending) == |s.pending| && !s.syncNeeded
    ensures DrainClean(env, s)
    decreases |s.pending|
  {
    if s.pending != [] {
      WriteComesTo(env, s, s.pending[0]);
      ThroughFirst(env, s.clock, s.pending);
      ThroughIsClean(env, WriteEvent(env, s, s.pending[0]).0.(pending := s.pending[1..]));
    }
  }

  // ------------------------------------------------------------------ whole calls

  /** The attempts a call makes before its own record: one for an owed sync, one for each record waiting,
      one for an owed state file. */
  function DrainFrom(s: Log): nat { s.clock + if s.syncNeeded then 1 else 0 }

  function RewriteAt(s: Log): nat { DrainFrom(s) + |s.pending| }

  function OwnAttempt(s: Log): nat { RewriteAt(s) + if s.stateDirty then 1 else 0 }

  /** The first failure among the attempts at what is owed. */
  function Owes(env: Env, s: Log): Fault {
    var k := Through(env, DrainFrom(s), s.pending);
    if s.syncNeeded && env.io(s.clock).sync != Fine then env.io(s.clock).sync
    else if k < |s.pending| then Written(env, DrainFrom(s) + k, s.pending[k])
    else if s.stateDirty then Rewritten(env, RewriteAt(s))
    else Fine
  }

  /** The first failure of an append of e. */
  function AppendFault(env: Env, s: Log, e: Event): Fault {
    if Owes(env, s) != Fine then Owes(env, s) else Written(env, OwnAttempt(s), e)
  }

  /** The log with everything owed on the disk and the records more behind it. */
  function UpToDate(env: Env, s: Log, more: seq<Event>, clock: nat): Log {
    var data := s.data + Lines(env.codec, s.pending + more);
    Log(data, if env.fsync && (s.syncNeeded || s.pending + more != []) then |data| else s.synced,
        if s.stateDirty then Holds(s.states) else s.stateFile, s.states, [], false, false, s.blocked, clock)
  }

  /** s with its owed sync made up for. */
  function Resynced(s: Log): Log {
    s.(syncNeeded := false, synced := if s.syncNeeded then |s.data| else s.synced, clock := DrainFrom(s))
  }

  lemma ResyncComesTo(env: Env, s: Log)
    ensures var (a, err) := Resync(env, s);
      if s.syncNeeded && env.io(s.clock).sync != Fine then err == env.io(s.clock).sync && a == s.(clock := s.clock + 1)
      else err == Fine && a == Resynced(s)
  {
  }

  lemma RewriteComesTo(env: Env, s: Log)
    ensures var (t, err) := FlushState(env, s);
      && err == (if s.stateDirty then Rewritten(env, s.clock) else Fine)
      && t == s.(stateFile := t.stateFile, stateDirty := err != Fine, clock := s.clock + if s.stateDirty then 1 else 0)
      && (!s.stateDirty ==> t.stateFile == s.stateFile) && (s.stateDirty && err == Fine ==> t.stateFile == Holds(s.states))
  {
    StateFileComesTo(env.fsync, env.io(s.clock).state, s.stateFile, s.states);
    var io := env.io(s.clock).state;
    FirstOfTwo(Preparing(env.fsync, io) + [Renamed(io)], Settling(env.fsync, io));
    FirstOfTwo(Preparing(env.fsync, io), [Renamed(io)]);
    FirstOne(Renamed(io));
  }

  lemma FlushIs(env: Env, s: Log, b: Log, err: Fault)
    requires !(s.syncNeeded && env.io(s.clock).sync != Fine) && (b, err) == Drain(env, Resynced(s))
    ensures Flush(env, s) == if err != Fine then (b, err) else FlushState(env, b)
  {
    ResyncComesTo(env, s);
  }

  lemma DrainAll(env: Env, s: Log)
    requires !s.syncNeeded && Through(env, s.clock, s.pending) == |s.pending|
    ensures var data := s.data + Lines(env.codec, s.pending);
      Drain(env, s) == (s.(data := data, synced := if env.fsync && s.pending != [] then |data| else s.synced, pending := [],
                           clock := s.clock + |s.pending|), Fine)
  {
    ThroughIsClean(env, s);
    var t, err := DrainComesTo(env, s);
    assert s.pending[..|s.pending|] == s.pending;
  }

  /** When every attempt works, flushing leaves nothing owed. */
  lemma FlushWorks(env: Env, s: Log)
    requires Owes(env, s) == Fine && (s.syncNeeded ==> env.fsync)
    ensures Flush(env, s) == (UpToDate(env, s, [], OwnAttempt(s)), Fine)
  {
    ThroughIs(env, DrainFrom(s), s.pending);
    DrainAll(env, Resynced(s));
    var b := Drain(env, Resynced(s)).0;
    FlushIs(env, s, b, Fine);
    RewriteComesTo(env, b);
    assert s.pending + [] == s.pending;
    NoLines(env.codec, s.data);
  }

  /** Otherwise it stops at the first failure: m records are in the file and the others wait as before. */
  ghost predicate StopsBehind(env: Env, s: Log, t: Log, m: nat) {
    && m <= |s.pending|
    && t.states == s.states && t.stateDirty == s.stateDirty && t.blocked == s.blocked
    && t.data == s.data + Lines(env.codec, s.pending[..m]) && t.pending == s.pending[m..]
    && (m < |s.pending| ==> t.stateFile == s.stateFile)
  }

  /** The records before the first failure, also the one whose sync alone failed. */
  function Reached(env: Env, s: Log): nat {
    if s.syncNeeded && env.io(s.clock).sync != Fine then 0 else Stored(env, DrainFrom(s), s.pending)
  }

  lemma FlushStops(env: Env, s: Log)
    requires Owes(env, s) != Fine
    ensures var (t, err) := Flush(env, s);
      && err == Owes(env, s) && t.blocked == s.blocked
      && (FlushClean(env, s) ==> StopsBehind(env, s, t, Reached(env, s)))
  {
    ResyncComesTo(env, s);
    if s.syncNeeded && env.io(s.clock).sync != Fine {
      NoLines(env.codec, s.data);
      assert s.pending[..0] == [] && s.pending[0..] == s.pending;
    } else {
      var b, err := DrainComesTo(env, Resynced(s));
      FlushIs(env, s, b, err);
      RewriteComesTo(env, b);
      DrainStopsFlush(env, s, b, err);
    }
  }

  /** The same, from how the queue was drained. */
  lemma DrainStopsFlush(env: Env, s: Log, b: Log, err: Fault)
    requires !(s.syncNeeded && env.io(s.clock).sync != Fine) && DrainedQueue(env, Resynced(s), b, err)
    ensures err != Fine ==> err == Owes(env, s)
    ensures err == Fine ==> b.pending == [] && b.clock == RewriteAt(s) && Reached(env, s) == |s.pending|
    ensures b.pending == s.pending[Reached(env, s)..] && SameStates(s, b)
    ensures DrainedFile(env, Resynced(s), b) ==> b.data == s.data + Lines(env.codec, s.pending[..Reached(env, s)])
  {
    ThroughIs(env, DrainFrom(s), s.pending);
  }

  /** An append is refused exactly when its first failure is an error other than a full disk; a full disk
      defers it and blocks the log. When every attempt works, everything owed and then the record are in
      the file, synced if so configured, and the log is writable. */
  lemma AppendComesTo(env: Env, s: Log, e: Event)
    requires s.syncNeeded ==> env.fsync
    ensures var (t, err) := Append(env, s, e);
      match AppendFault(env, s, e)
      case Fine => err == Fine && t == UpToDate(env, s, [e], OwnAttempt(s) + 1).(blocked := false)
      case NoSpace => err == Fine && t.blocked
      case Broken => err == Broken && t.blocked == s.blocked
  {
    if Owes(env, s) == Fine {
      FlushWorks(env, s);
      var a := UpToDate(env, s, [], OwnAttempt(s));
      WriteComesTo(env, a, e);
      OneMoreLine(env.codec, s.data, s.pending, e);
    } else {
      FlushStops(env, s);
    }
  }

  lemma OneMoreLine(c: Codec, data: seq<Byte>, events: seq<Event>, e: Event)
    ensures data + Lines(c, events + []) + Line(c, e) == data + Lines(c, events + [e])
  {
    assert events + [] == events && [e][1..] == [];
    LinesConcat(c, events, [e]);
    assert Lines(c, [e]) == Line(c, e) + [] == Line(c, e);
  }

  /** Where a failing append leaves the records: what was reached is in the file, the rest waits, and the
      new one waits behind it exactly when the disk was full before its line was in the file. */
  lemma FailedAppendKeeps(env: Env, s: Log, e: Event)
    requires (s.syncNeeded ==> env.fsync) && AppendFault(env, s, e) != Fine && AppendClean(env, s, e)
    ensures var t := Append(env, s, e).0;
      var full := AppendFault(env, s, e) == NoSpace;
      if Owes(env, s) != Fine then
        var m := Reached(env, s);
        && m <= |s.pending| && t.data == s.data + Lines(env.codec, s.pending[..m])
        && t.pending == s.pending[m..] + (if full then [e] else [])
      else
        var whole := Recorded(env, OwnAttempt(s), e) == Fine;
        && t.data == s.data + Lines(env.codec, s.pending + (if whole then [e] else []))
        && t.pending == (if full && !whole then [e] else []) && t.syncNeeded == whole
  {
    if Owes(env, s) == Fine {
      FlushWorks(env, s);
      WriteComesTo(env, UpToDate(env, s, [], OwnAttempt(s)), e);
      OneMoreLine(env.codec, s.data, s.pending, e);
    } else {
      FlushStops(env, s);
    }
  }

  /** Saving a state ends the same way. When every attempt works, what was owed and the state are on the
      disk and the log is writable. */
  lemma SaveComesTo(env: Env, s: Log, state: ServiceState)
    requires s.syncNeeded ==> env.fsync
    ensures var (t, err) := SaveState(env, s, state);
      var owing := Owing(s, state);
      match Owes(env, owing)
      case Fine =>
        && err == Fine && t == UpToDate(env, owing, [], OwnAttempt(owing)).(blocked := false)
        && t.stateFile == Holds(s.states[state.service := state])
      case NoSpace => err == Fine && t.blocked && (SaveClean(env, s, state) ==> t.pending == s.pending[Reached(env, owing)..])
      case Broken => err == Broken && t.blocked == s.blocked && (SaveClean(env, s, state) ==> t.pending == s.pending[Reached(env, owing)..])
  {
    var owing := Owing(s, state);
    if Owes(env, owing) == Fine {
      FlushWorks(env, owing);
    } else {
      FlushStops(env, owing);
    }
  }

  /** Once the disk works again, one append makes durable everything held until then and its own event. */
  lemma AppendHeals(env: Env, s: Log, e: Event)
    requires Faithful(env.codec) && Sound(env, s) && env.fsync && AppendFault(env, s, e) == Fine
    ensures var t := Append(env, s, e).0;
      !t.blocked && t.synced == |t.data| && Durable(env, t) == Held(env, t) == Held(env, s) + [e]
  {
    AppendComesTo(env, s, e);
    var t := Append(env, s, e).0;
    ReadAllAppended(env.codec, s.data, s.pending + [e]);
    assert t.data[..|t.data|] == t.data;
    Assoc(Events(env.codec, s.data), s.pending, [e]);
  }

  /** A reopened log owes nothing and is writable; its states are those of the state file, and with the file
      whole it holds exactly what was in the file. */
  lemma ReopenOwesNothing(env: Env, s: Log, crash: Crash)
    requires crash.PowerLoss? ==> crash.cut <= |s.data|
    ensures var t := Reopen(env, s, crash);
      && t.pending == [] && !t.stateDirty && !t.syncNeeded && !t.blocked && Owes(env, t) == Fine
      && t.stateFile == s.stateFile && t.states == (if s.stateFile.Holds? then s.stateFile.states else map[])
      && (Whole(s.data) && crash.Killed? ==> t.data == s.data && Held(env, t) == Events(env.codec, s.data))
  {
    if Whole(s.data) && crash.Killed? {
      CompleteIsLastBoundary(env.codec, s.data);
      assert s.data[..|s.data|] == s.data;
      assert Events(env.codec, s.data) + [] == Events(env.codec, s.data);
    }
  }
}
