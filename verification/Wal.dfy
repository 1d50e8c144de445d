/** The write-ahead log: append, deferral while the disk is full, lazy state file, reopening
    after a crash, with every I/O call free to fail (internal/wal/wal.go). */
module Wal {
  import opened Types
  import opened LogBytes

  /** How an I/O call ends. NoSpace is ENOSPC or EDQUOT, Broken any other error. */
  datatype Fault = Fine | NoSpace | Broken

  /** The calls of one rewrite of state.json, in order. */
  datatype StateIo = StateIo(open: Fault, write: Fault, sync: Fault, close: Fault, rename: Fault,
                             remove: Fault, renameAgain: Fault, dirOpen: Fault, dirSync: Fault, dirClose: Fault)

  /** The environment's answers for one attempt: how many bytes a write leaves in the file,
      whether the truncate that rolls it back works, and how each call ends. */
  datatype Reply = Reply(seek: Fault, written: nat, write: Fault, rollback: bool, sync: Fault, state: StateIo)

  /** Constants of a run. The n-th attempt of the run meets the answers io(n). */
  datatype Env = Env(codec: Codec, fsync: bool, io: nat -> Reply)

  type States = map<string, ServiceState>

  datatype StateFile = Missing | Damaged | Holds(states: States)

  /** The log and the disk under it. The first synced bytes of data survive a crash. */
  datatype Log = Log(
    data: seq<Byte>,
    synced: nat,
    stateFile: StateFile,
    states: States,
    pending: seq<Event>,
    stateDirty: bool,
    syncNeeded: bool,
    blocked: bool,
    clock: nat)

  // ------------------------------------------------------------------ operations as functions

  function WriteRecord(r: Reply, data: seq<Byte>, payload: seq<Byte>): (seq<Byte>, Fault) {
    if r.seek != Fine then (data, r.seek)
    else
      var n := Min(r.written, |payload|);
      if r.write == Fine && n == |payload| then (data + payload, Fine)
      else
        (if n > 0 && !r.rollback then data + payload[..n] else data,
         if r.write == Fine then Broken else r.write)
  }

  function WriteEvent(env: Env, s: Log, e: Event): (Log, Fault) {
    var r := env.io(s.clock);
    var (data, err) := WriteRecord(r, s.data, Line(env.codec, e));
    var s := s.(data := data, clock := s.clock + 1);
    if err != Fine || !env.fsync then (s, err)
    else if r.sync != Fine then (s.(syncNeeded := true), r.sync)
    else (s.(synced := |data|), Fine)
  }

  function Drain(env: Env, s: Log): (Log, Fault)
    decreases |s.pending|
  {
    if s.pending == [] then (s, Fine)
    else
      var (t, err) := WriteEvent(env, s, s.pending[0]);
      if t.syncNeeded then (t.(pending := s.pending[1..]), err)
      else if err != Fine then (t, err)
      else Drain(env, t.(pending := s.pending[1..]))
  }

  function WriteStateFile(fsync: bool, io: StateIo, file: StateFile, states: States): (StateFile, Fault) {
    if io.open != Fine then (file, io.open)
    else if io.write != Fine then (file, io.write)
    else if fsync && io.sync != Fine then (file, io.sync)
    else if io.close != Fine then (file, io.close)
    else if io.rename != Fine && io.remove != Fine then (file, io.rename)
    else if io.rename != Fine && io.renameAgain != Fine then (Missing, io.renameAgain)
    else
      (Holds(states),
       if !fsync then Fine
       else if io.dirOpen != Fine then io.dirOpen
       else if io.dirSync != Fine then io.dirSync
       else io.dirClose)
  }

  function FlushState(env: Env, s: Log): (Log, Fault) {
    if !s.stateDirty then (s, Fine)
    else
      var (file, err) := WriteStateFile(env.fsync, env.io(s.clock).state, s.stateFile, s.states);
      (s.(stateFile := file, stateDirty := err != Fine, clock := s.clock + 1), err)
  }

  function Resync(env: Env, s: Log): (Log, Fault) {
    if !s.syncNeeded then (s, Fine)
    else
      var err := env.io(s.clock).sync;
      var s := s.(clock := s.clock + 1);
      if err != Fine then (s, err) else (s.(syncNeeded := false, synced := |s.data|), Fine)
  }

  function Flush(env: Env, s: Log): (Log, Fault) {
    var (a, err) := Resync(env, s);
    if err != Fine then (a, err)
    else
      var (b, err) := Drain(env, a);
      if err != Fine then (b, err) else FlushState(env, b)
  }

  /** Append once everything owed has been written. */
  function AppendFlushed(env: Env, s: Log, e: Event): (Log, Fault) {
    var (t, err) := WriteEvent(env, s, e);
    if err == Broken then (t, err)
    else if err == NoSpace then
      (t.(pending := if t.syncNeeded then t.pending else t.pending + [e], blocked := true), Fine)
    else (t.(blocked := false), Fine)
  }

  function Append(env: Env, s: Log, e: Event): (Log, Fault) {
    var (a, err) := Flush(env, s);
    if err == Broken then (a, err)
    else if err == NoSpace then (a.(pending := a.pending + [e], blocked := true), Fine)
    else AppendFlushed(env, a, e)
  }

  function SaveState(env: Env, s: Log, state: ServiceState): (Log, Fault) {
    var (a, err) := Flush(env, s.(states := s.states[state.service := state], stateDirty := true));
    if err == Broken then (a, err)
    else (a.(blocked := err == NoSpace), Fine)
  }

  /** A killed process leaves the file as it was written; a power loss leaves its first cut bytes. */
  datatype Crash = Killed | PowerLoss(cut: nat)

  /** Opening repairs the tail and reloads the state file. It syncs nothing: what a power loss left is on
      the disk, what a killed process left need not be. */
  function Reopen(env: Env, s: Log, crash: Crash): Log
    requires crash.PowerLoss? ==> crash.cut <= |s.data|
  {
    var data := Repaired(env.codec, if crash.PowerLoss? then s.data[..crash.cut] else s.data);
    Log(data, if crash.PowerLoss? then |data| else Min(s.synced, |data|),
        s.stateFile, if s.stateFile.Holds? then s.stateFile.states else map[],
        [], false, false, false, s.clock)
  }

  // ------------------------------------------------------------------ the log as the program has it

  class WriteAheadLog {
    const env: Env
    var data: seq<Byte>
    var synced: nat
    var stateFile: StateFile
    var states: States
    var pending: seq<Event>
    var stateDirty: bool
    var syncNeeded: bool
    var blocked: bool
    var clock: nat

    function View(): Log
      reads this
    {
      Log(data, synced, stateFile, states, pending, stateDirty, syncNeeded, blocked, clock)
    }

    constructor (env: Env, crashed: Log, crash: Crash)
      requires crash.PowerLoss? ==> crash.cut <= |crashed.data|
      ensures this.env == env && View() == Reopen(env, crashed, crash)
    {
      this.env := env;
      var left := if crash.PowerLoss? then crashed.data[..crash.cut] else crashed.data;
      var fixed, _ := Repair(env.codec, left);
      data, clock := fixed, crashed.clock;
      synced := if crash.PowerLoss? then |fixed| else Min(crashed.synced, |fixed|);
      stateFile := crashed.stateFile;
      states := if crashed.stateFile.Holds? then crashed.stateFile.states else map[];
      pending, stateDirty, syncNeeded, blocked := [], false, false, false;
    }

    method AppendRecord(r: Reply, payload: seq<Byte>) returns (err: Fault)
      modifies this`data
      ensures (data, err) == WriteRecord(r, old(data), payload)
    {
      var offset := |data|;
      if r.seek != Fine {
        return r.seek;
      }
      var n := Min(r.written, |payload|);
      data := data + payload[..n];
      err := r.write;
      assert payload[..|payload|] == payload && data[..offset] == old(data) && old(data) + [] == old(data);
      if err != Fine || n != |payload| {
        if n > 0 && r.rollback {
          data := data[..offset];
        }
        if err == Fine {
          err := Broken;
        }
      }
    }

    method WriteEventLocked(e: Event) returns (err: Fault)
      modifies this`data, this`synced, this`syncNeeded, this`clock
      ensures (View(), err) == WriteEvent(env, old(View()), e)
    {
      var r := env.io(clock);
      clock := clock + 1;
      err := AppendRecord(r, Line(env.codec, e));
      if err == Fine && env.fsync {
        if r.sync != Fine {
          syncNeeded := true;
          err := r.sync;
        } else {
          synced := |data|;
        }
      }
    }

    method WriteStateLocked() returns (err: Fault)
      modifies this`stateFile, this`clock
      ensures (stateFile, err) == WriteStateFile(env.fsync, env.io(old(clock)).state, old(stateFile), states)
      ensures clock == old(clock) + 1
    {
      var io := env.io(clock).state;
      clock := clock + 1;
      if io.open != Fine { return io.open; }
      if io.write != Fine { return io.write; }
      if env.fsync && io.sync != Fine { return io.sync; }
      if io.close != Fine { return io.close; }
      if io.rename != Fine {
        if io.remove != Fine { return io.rename; }
        stateFile := Missing;
        if io.renameAgain != Fine { return io.renameAgain; }
      }
      stateFile := Holds(states);
      if env.fsync {
        if io.dirOpen != Fine { return io.dirOpen; }
        if io.dirSync != Fine { return io.dirSync; }
        if io.dirClose != Fine { return io.dirClose; }
      }
      return Fine;
    }

    /** The loop of flushLocked. */
    method DrainLocked() returns (err: Fault)
      requires !syncNeeded
      modifies this`data, this`synced, this`syncNeeded, this`clock, this`pending
      ensures (View(), err) == Drain(env, old(View()))
    {
      while |pending| > 0
        invariant !syncNeeded && Drain(env, View()) == Drain(env, old(View()))
        decreases |pending|
      {
        err := WriteEventLocked(pending[0]);
        if syncNeeded {
          pending := pending[1..];
        }
        if err != Fine {
          return;
        }
        if !syncNeeded {
          pending := pending[1..];
        }
      }
      err := Fine;
    }

    method FlushLocked() returns (err: Fault)
      modifies this
      ensures (View(), err) == Flush(env, old(View()))
    {
      if syncNeeded {
        err := env.io(clock).sync;
        clock := clock + 1;
        if err != Fine {
          return;
        }
        syncNeeded, synced := false, |data|;
      }
      err := DrainLocked();
      if err == Fine && stateDirty {
        err := WriteStateLocked();
        if err == Fine {
          stateDirty := false;
        }
      }
    }

    method AppendEvent(e: Event) returns (err: Fault)
      modifies this
      ensures (View(), err) == Append(env, old(View()), e)
    {
      err := FlushLocked();
      if err != Fine {
        if err != NoSpace {
          return;
        }
        pending, blocked := pending + [e], true;
        return Fine;
      }
      err := WriteEventLocked(e);
      if err != Fine {
        if err != NoSpace {
          return;
        }
        if !syncNeeded {
          pending := pending + [e];
        }
        blocked := true;
        return Fine;
      }
      blocked := false;
    }

    method Save(state: ServiceState) returns (err: Fault)
      modifies this
      ensures (View(), err) == SaveState(env, old(View()), state)
    {
      states, stateDirty := states[state.service := state], true;
      err := FlushLocked();
      if err != Fine {
        if err != NoSpace {
          return;
        }
        blocked := true;
        return Fine;
      }
      blocked := false;
    }

    method Writable() returns (ok: bool)
      ensures ok == !blocked
    {
      ok := !blocked;
    }
  }

  // ------------------------------------------------------------------ what every step keeps

  /** A failing write that left bytes behind, the truncate that would take them back failing as well; the
      program ignores that. */
  predicate Torn(r: Reply, line: seq<Byte>) {
    && r.seek == Fine && Min(r.written, |line|) > 0 && !r.rollback
    && !(r.write == Fine && Min(r.written, |line|) == |line|)
  }

  // No write of a call is torn.

  predicate DrainClean(env: Env, s: Log)
    decreases |s.pending|
  {
    s.pending != [] ==>
      && !Torn(env.io(s.clock), Line(env.codec, s.pending[0]))
      && var (t, err) := WriteEvent(env, s, s.pending[0]);
         err == Fine && !t.syncNeeded ==> DrainClean(env, t.(pending := s.pending[1..]))
  }

  predicate FlushClean(env: Env, s: Log) {
    var (a, err) := Resync(env, s);
    err == Fine ==> DrainClean(env, a)
  }

  predicate AppendClean(env: Env, s: Log, e: Event) {
    && FlushClean(env, s)
    && var (a, err) := Flush(env, s);
       err == Fine ==> !Torn(env.io(a.clock), Line(env.codec, e))
  }

  predicate SaveClean(env: Env, s: Log, state: ServiceState) { FlushClean(env, Owing(s, state)) }

  /** The log once SaveState has taken the state over. */
  function Owing(s: Log, state: ServiceState): Log {
    s.(states := s.states[state.service := state], stateDirty := true)
  }

  /** What a log holds: the records readable from the file, then those waiting in memory. */
  function Held(env: Env, s: Log): seq<Event> { Events(env.codec, s.data) + s.pending }

  /** What a crash cannot take. */
  function Durable(env: Env, s: Log): seq<Event>
    requires s.synced <= |s.data|
  {
    Events(env.codec, s.data[..s.synced])
  }

  ghost predicate Sound(env: Env, s: Log) {
    && Whole(s.data)
    && s.synced <= |s.data| && Whole(s.data[..s.synced])
    && (s.pending != [] ==> s.blocked)
    && (s.syncNeeded ==> env.fsync)
  }

  /** With fsync on, nothing in the file waits for a sync that the log does not know it owes. */
  predicate Tight(env: Env, s: Log) { env.fsync && !s.syncNeeded ==> s.synced == |s.data| }

  /** saved is the last state saved for each service: it is never lost from memory, and in
      state.json unless a rewrite is owed. */
  ghost predicate StatesKept(s: Log, saved: States) {
    && (forall k :: k in saved ==> k in s.states && s.states[k] == saved[k])
    && (!s.stateDirty && saved != map[] ==> s.stateFile.Holds?)
    && (!s.stateDirty && s.stateFile.Holds? ==>
          forall k :: k in saved ==> k in s.stateFile.states && s.stateFile.states[k] == saved[k])
  }

  /** From s to t the records w were appended to the file; added joined those s still owed. */
  ghost predicate Moves(env: Env, s: Log, t: Log, w: seq<Event>, added: seq<Event>) {
    && t.data == s.data + Lines(env.codec, w)
    && w + t.pending == s.pending + added
    && s.synced <= t.synced
  }

  lemma WriteEventSound(env: Env, s: Log, e: Event)
    requires Sound(env, s) && !s.syncNeeded && !Torn(env.io(s.clock), Line(env.codec, e))
    ensures var (t, err) := WriteEvent(env, s, e);
      && Sound(env, t) && s.synced <= t.synced && t.pending == s.pending
      && (Tight(env, s) ==> Tight(env, t)) && (err == Fine ==> Tight(env, t))
      && t.data == s.data + (if err == Fine || t.syncNeeded then Line(env.codec, e) else [])
      && (err == Fine ==> !t.syncNeeded)
      && (t.syncNeeded <==> env.fsync && WriteRecord(env.io(s.clock), s.data, Line(env.codec, e)).1 == Fine && env.io(s.clock).sync != Fine)
      && (t.syncNeeded ==> err == env.io(s.clock).sync)
  {
    var (t, err) := WriteEvent(env, s, e);
    if err == Fine || t.syncNeeded {
      assert t.data[..s.synced] == s.data[..s.synced];
      assert t.data[..|t.data|] == t.data;
    } else {
      assert s.data + [] == s.data;
    }
  }

  /** What draining and flushing leave alone. */
  ghost predicate SameStates(s: Log, t: Log) {
    t.states == s.states && t.stateFile == s.stateFile && t.stateDirty == s.stateDirty && t.blocked == s.blocked
  }

  lemma {:induction false} DrainKeeps(env: Env, s: Log) returns (w: seq<Event>)
    requires Sound(env, s) && !s.syncNeeded && DrainClean(env, s)
    ensures var (t, err) := Drain(env, s);
      && Sound(env, t) && Moves(env, s, t, w, []) && SameStates(s, t) && (Tight(env, s) ==> Tight(env, t))
      && (err == Fine && s.pending != [] ==> Tight(env, t))
      && (err == Fine ==> t.pending == [] && !t.syncNeeded)
    decreases |s.pending|
  {
    w := [];
    Stays(env, s);
    if s.pending != [] {
      var e, rest := s.pending[0], s.pending[1..];
      var (t, err) := WriteEvent(env, s, e);
      WriteEventSound(env, s, e);
      if t.syncNeeded || err == Fine {
        WroteFirst(env, s, t);
        w := [e];
        if !t.syncNeeded {
          var next := t.(pending := rest);
          var v := DrainKeeps(env, next);
          MovesCompose(env, s, next, Drain(env, next).0, w, [], v, []);
          w := w + v;
        }
      } else {
        Stays(env, t);
      }
    }
  }

  lemma Assoc<T>(a: seq<T>, b: seq<T>, c: seq<T>)
    ensures a + (b + c) == a + b + c
  {
  }

  lemma Stays(env: Env, s: Log)
    ensures Moves(env, s, s, [], [])
  {
    assert s.data + [] == s.data && s.pending + [] == s.pending == [] + s.pending;
  }

  lemma WroteFirst(env: Env, s: Log, t: Log)
    requires s.pending != [] && t.data == s.data + Line(env.codec, s.pending[0]) && s.synced <= t.synced
    ensures Moves(env, s, t.(pending := s.pending[1..]), [s.pending[0]], [])
  {
    var e := s.pending[0];
    assert Lines(env.codec, [e]) == Line(env.codec, e) + [];
    assert [e] + s.pending[1..] == s.pending == s.pending + [];
  }

  /** One more event joins: in the file, or at the end of the queue. */
  lemma JoinsOne(env: Env, s: Log, t: Log, e: Event)
    requires s.synced <= t.synced
    ensures t.data == s.data + Line(env.codec, e) && s.pending == t.pending == [] ==> Moves(env, s, t, [e], [e])
    ensures t.data == s.data && t.pending == s.pending + [e] ==> Moves(env, s, t, [], [e])
  {
    assert Lines(env.codec, [e]) == Line(env.codec, e) + [];
    assert s.data + [] == s.data;
    assert [] + t.pending == t.pending;
  }

  lemma MovesCompose(env: Env, s: Log, t: Log, u: Log, v: seq<Event>, a: seq<Event>, w: seq<Event>, b: seq<Event>)
    requires Moves(env, s, t, v, a) && Moves(env, t, u, w, b)
    ensures Moves(env, s, u, v + w, a + b)
  {
    LinesConcat(env.codec, v, w);
    Assoc(s.data, Lines(env.codec, v), Lines(env.codec, w));
    Assoc(v, w, u.pending);
    Assoc(v, t.pending, b);
    Assoc(s.pending, a, b);
  }

  lemma ResyncKeeps(env: Env, s: Log)
    requires Sound(env, s)
    ensures var (t, err) := Resync(env, s);
      && Sound(env, t) && t.data == s.data && t.pending == s.pending && SameStates(s, t)
      && s.synced <= t.synced && (err == Fine ==> !t.syncNeeded) && (Tight(env, s) ==> Tight(env, t))
  {
    assert s.data[..|s.data|] == s.data;
  }

  lemma FlushStateKeeps(env: Env, s: Log, saved: States)
    requires StatesKept(s, saved)
    ensures var (t, err) := FlushState(env, s);
      && StatesKept(t, saved) && (err == Fine ==> !t.stateDirty)
      && t == s.(stateFile := t.stateFile, stateDirty := t.stateDirty, clock := t.clock)
  {
  }

  lemma FlushKeeps(env: Env, s: Log, saved: States) returns (t: Log, err: Fault, w: seq<Event>)
    requires Sound(env, s) && StatesKept(s, saved) && FlushClean(env, s)
    ensures (t, err) == Flush(env, s)
    ensures Tight(env, s) || (err == Fine && s.pending != []) ==> Tight(env, t)
    ensures Sound(env, t) && StatesKept(t, saved) && Moves(env, s, t, w, []) && t.blocked == s.blocked
    ensures err == Fine ==> t.pending == [] && !t.syncNeeded && !t.stateDirty
  {
    var (a, fault) := Resync(env, s);
    ResyncKeeps(env, s);
    if fault == Fine {
      w := DrainKeeps(env, a);
      FlushStateKeeps(env, Drain(env, a).0, saved);
    } else {
      w := [];
      Stays(env, s);
    }
    t, err := Flush(env, s).0, Flush(env, s).1;
  }

  /** The record reached the file and only its sync failed, with an error other than a full disk. */
  predicate WrittenButUnsynced(env: Env, s: Log, e: Event) {
    var (a, err) := Flush(env, s);
    && err == Fine
    && WriteRecord(env.io(a.clock), a.data, Line(env.codec, e)).1 == Fine
    && env.fsync && env.io(a.clock).sync == Broken
  }

  predicate Accepts(env: Env, s: Log, e: Event) {
    Append(env, s, e).1 == Fine || WrittenButUnsynced(env, s, e)
  }

  lemma AppendFlushedKeeps(env: Env, s: Log, e: Event, saved: States) returns (w: seq<Event>, added: seq<Event>)
    requires Sound(env, s) && StatesKept(s, saved) && s.pending == [] && !s.syncNeeded && !s.stateDirty
    requires !Torn(env.io(s.clock), Line(env.codec, e))
    ensures var (t, err) := AppendFlushed(env, s, e);
      && (Tight(env, s) ==> Tight(env, t)) && (err == Fine && !t.blocked ==> Tight(env, t))
      && Sound(env, t) && StatesKept(t, saved) && Moves(env, s, t, w, added)
      && added == (if err == Fine || t.syncNeeded then [e] else [])
      && (err != Fine ==> (t.syncNeeded <==>
            env.fsync && WriteRecord(env.io(s.clock), s.data, Line(env.codec, e)).1 == Fine && env.io(s.clock).sync == Broken))
      && (err == Fine && !t.blocked ==> t.pending == [] && !t.syncNeeded && !t.stateDirty)
  {
    WriteEventSound(env, s, e);
    var (b, fault) := WriteEvent(env, s, e);
    var (t, err) := AppendFlushed(env, s, e);
    assert s.data + [] == s.data;
    JoinsOne(env, s, t, e);
    Stays(env, s);
    w, added := [], [];
    if fault == Fine || b.syncNeeded {
      w, added := [e], [e];
    } else if fault == NoSpace {
      added := [e];
    }
  }

  lemma DeferredKeeps(env: Env, s: Log, a: Log, e: Event, saved: States, w: seq<Event>)
    requires Sound(env, a) && StatesKept(a, saved) && Moves(env, s, a, w, [])
    ensures var t := a.(pending := a.pending + [e], blocked := true);
      Sound(env, t) && StatesKept(t, saved) && Moves(env, s, t, w, [e])
  {
    var t := a.(pending := a.pending + [e], blocked := true);
    JoinsOne(env, a, t, e);
    MovesCompose(env, s, a, t, w, [], [], [e]);
    assert w + [] == w && [] + [e] == [e];
  }

  lemma FlushedAppendKeeps(env: Env, s: Log, a: Log, e: Event, saved: States, w: seq<Event>)
      returns (t: Log, err: Fault, v: seq<Event>, added: seq<Event>)
    requires Sound(env, a) && StatesKept(a, saved) && a.pending == [] && !a.syncNeeded && !a.stateDirty
    requires Moves(env, s, a, w, []) && !Torn(env.io(a.clock), Line(env.codec, e))
    ensures (t, err) == AppendFlushed(env, a, e)
    ensures (Tight(env, a) ==> Tight(env, t)) && (err == Fine && !t.blocked ==> Tight(env, t))
    ensures Sound(env, t) && StatesKept(t, saved) && Moves(env, s, t, v, added)
    ensures err == Fine && !t.blocked ==> t.pending == [] && !t.syncNeeded && !t.stateDirty
    ensures added == if err == Fine || (env.fsync && WriteRecord(env.io(a.clock), a.data, Line(env.codec, e)).1 == Fine
                                        && env.io(a.clock).sync == Broken) then [e] else []
  {
    v, added := AppendFlushedKeeps(env, a, e, saved);
    t, err := AppendFlushed(env, a, e).0, AppendFlushed(env, a, e).1;
    MovesCompose(env, s, a, t, w, [], v, added);
    assert [] + added == added;
    v := w + v;
  }

  /** Append adds its event exactly once when it reports success, and also when the record was
      written and only the sync failed; otherwise it adds nothing. */
  lemma AppendKeeps(env: Env, s: Log, e: Event, saved: States) returns (w: seq<Event>)
    requires Sound(env, s) && StatesKept(s, saved) && AppendClean(env, s, e)
    ensures var (t, err) := Append(env, s, e);
      && Sound(env, t) && StatesKept(t, saved)
      && (Tight(env, s) ==> Tight(env, t)) && (err == Fine && !t.blocked ==> Tight(env, t))
      && Moves(env, s, t, w, if Accepts(env, s, e) then [e] else [])
      && (err == Fine && !t.blocked ==> t.pending == [] && !t.syncNeeded && !t.stateDirty)
  {
    var a, err;
    a, err, w := FlushKeeps(env, s, saved);
    var t, end, added := a, err, [];
    if err == Fine {
      t, end, w, added := FlushedAppendKeeps(env, s, a, e, saved, w);
    } else if err == NoSpace {
      DeferredKeeps(env, s, a, e, saved, w);
      t, end, added := a.(pending := a.pending + [e], blocked := true), Fine, [e];
    }
    assert Append(env, s, e) == (t, end);
    assert added == if Accepts(env, s, e) then [e] else [];
  }

  lemma SavingKeeps(s: Log, state: ServiceState, saved: States)
    requires StatesKept(s, saved)
    ensures StatesKept(s.(states := s.states[state.service := state], stateDirty := true), saved[state.service := state])
  {
  }

  /** Setting the blocked flag as Append and SaveState do, and owing a state, disturb nothing. */
  lemma BlockingKeeps(env: Env, s: Log, owing: Log, a: Log, saved: States, w: seq<Event>, full: bool)
    requires Sound(env, a) && StatesKept(a, saved) && Moves(env, owing, a, w, [])
    requires owing.data == s.data && owing.pending == s.pending && owing.synced == s.synced
    requires a.pending != [] ==> full
    ensures var t := a.(blocked := full); Sound(env, t) && StatesKept(t, saved) && Moves(env, s, t, w, [])
    ensures Moves(env, s, a, w, [])
  {
  }

  lemma SaveStateKeeps(env: Env, s: Log, state: ServiceState, saved: States) returns (w: seq<Event>)
    requires Sound(env, s) && StatesKept(s, saved) && SaveClean(env, s, state)
    ensures var (t, err) := SaveState(env, s, state);
      && (Tight(env, s) ==> Tight(env, t)) && (err == Fine && !t.blocked && s.pending != [] ==> Tight(env, t))
      && Sound(env, t) && StatesKept(t, saved[state.service := state]) && Moves(env, s, t, w, [])
      && (err == Fine && !t.blocked ==> t.pending == [] && !t.syncNeeded && !t.stateDirty)
  {
    var owing := Owing(s, state);
    SavingKeeps(s, state, saved);
    var a, err;
    a, err, w := FlushKeeps(env, owing, saved[state.service := state]);
    if err == Broken {
      BlockingKeeps(env, s, owing, a, saved[state.service := state], w, true);
    } else {
      BlockingKeeps(env, s, owing, a, saved[state.service := state], w, err == NoSpace);
    }
  }

  // ------------------------------------------------------------------ whole runs

  datatype Op = AppendOp(event: Event) | SaveOp(state: ServiceState) | CrashOp(crash: Crash)

  function Apply(env: Env, s: Log, op: Op): (Log, Fault)
    requires op.CrashOp? && op.crash.PowerLoss? ==> op.crash.cut <= |s.data|
  {
    match op
    case AppendOp(e) => Append(env, s, e)
    case SaveOp(state) => SaveState(env, s, state)
    case CrashOp(crash) => (Reopen(env, s, crash), Fine)
  }

  /** A power loss never takes synced bytes. */
  predicate Survives(s: Log, crash: Crash) { crash.PowerLoss? ==> s.synced <= crash.cut <= |s.data| }

  /** Every crash is one that can happen. */
  predicate Possible(env: Env, s: Log, ops: seq<Op>)
    decreases ops
  {
    ops != [] ==>
      && (ops[0].CrashOp? ==> Survives(s, ops[0].crash))
      && Possible(env, Apply(env, s, ops[0]).0, ops[1..])
  }

  function Run(env: Env, s: Log, ops: seq<Op>): Log
    requires Possible(env, s, ops)
    decreases ops
  {
    if ops == [] then s else Run(env, Apply(env, s, ops[0]).0, ops[1..])
  }

  /** No write of the call, or of the run, is torn. */
  predicate Clean(env: Env, s: Log, op: Op) {
    match op
    case AppendOp(e) => AppendClean(env, s, e)
    case SaveOp(state) => SaveClean(env, s, state)
    case CrashOp(_) => true
  }

  predicate RunClean(env: Env, s: Log, ops: seq<Op>)
    requires Possible(env, s, ops)
    decreases ops
  {
    ops != [] ==> Clean(env, s, ops[0]) && RunClean(env, Apply(env, s, ops[0]).0, ops[1..])
  }

  /** The events a crash-free run owes: those whose Append reported success, and those written
      whose sync alone failed, in call order. */
  function Accepted(env: Env, s: Log, ops: seq<Op>): seq<Event>
    requires Possible(env, s, ops)
    decreases ops
  {
    if ops == [] then []
    else
      var (t, err) := Apply(env, s, ops[0]);
      (if ops[0].AppendOp? && Accepts(env, s, ops[0].event) then [ops[0].event] else []) +
      Accepted(env, t, ops[1..])
  }

  /** The states saved by a run, on top of those saved before it. */
  function SavedBy(saved: States, ops: seq<Op>): States
    decreases ops
  {
    if ops == [] then saved
    else SavedBy(if ops[0].SaveOp? then saved[ops[0].state.service := ops[0].state] else saved, ops[1..])
  }

  lemma {:induction false} RunMoves(env: Env, s: Log, ops: seq<Op>, saved: States) returns (w: seq<Event>)
    requires Sound(env, s) && StatesKept(s, saved)
    requires Possible(env, s, ops) && RunClean(env, s, ops) && forall i :: 0 <= i < |ops| ==> !ops[i].CrashOp?
    ensures var t := Run(env, s, ops);
      && Sound(env, t) && StatesKept(t, SavedBy(saved, ops)) && (Tight(env, s) ==> Tight(env, t))
      && Moves(env, s, t, w, Accepted(env, s, ops))
    decreases ops
  {
    if ops == [] {
      w := [];
      Stays(env, s);
    } else {
      var v, added, now := [], [], saved;
      var t := Apply(env, s, ops[0]).0;
      match ops[0] {
        case AppendOp(e) =>
          v := AppendKeeps(env, s, e, saved);
          added := if Accepts(env, s, e) then [e] else [];
        case SaveOp(state) =>
          v := SaveStateKeeps(env, s, state, saved);
          now := saved[state.service := state];
      }
      w := RunMoves(env, t, ops[1..], now);
      MovesCompose(env, s, t, Run(env, t, ops[1..]), v, added, w, Accepted(env, t, ops[1..]));
      w := v + w;
    }
  }

  lemma MovesConserves(env: Env, s: Log, t: Log, w: seq<Event>, added: seq<Event>)
    requires Faithful(env.codec) && Whole(s.data) && Moves(env, s, t, w, added)
    ensures Held(env, t) == Held(env, s) + added
  {
    ReadAllAppended(env.codec, s.data, w);
    var before := Events(env.codec, s.data);
    Assoc(before, w, t.pending);
    Assoc(before, s.pending, added);
  }

  /** Conservation: whatever fails, as long as no write is torn, file and queue together hold the initial
      records and then every accepted event, exactly once and in call order. */
  lemma RunConserves(env: Env, s: Log, ops: seq<Op>, saved: States)
    requires Faithful(env.codec)
    requires Sound(env, s) && StatesKept(s, saved)
    requires Possible(env, s, ops) && RunClean(env, s, ops) && forall i :: 0 <= i < |ops| ==> !ops[i].CrashOp?
    ensures var t := Run(env, s, ops);
      && Sound(env, t) && StatesKept(t, SavedBy(saved, ops)) && (Tight(env, s) ==> Tight(env, t))
      && Held(env, t) == Held(env, s) + Accepted(env, s, ops)
  {
    var w := RunMoves(env, s, ops, saved);
    MovesConserves(env, s, Run(env, s, ops), w, Accepted(env, s, ops));
  }

  /** What a torn write can do: a full disk that reports the error only after taking every byte,
      and then refuses the truncate, leaves the record in the file and in the queue as well. */
  lemma FailedRollbackDuplicates(env: Env, s: Log, e: Event)
    requires Faithful(env.codec) && Sound(env, s) && s.pending == [] && !s.syncNeeded && !s.stateDirty
    requires var r := env.io(s.clock);
      r.seek == Fine && r.written >= |Line(env.codec, e)| && r.write == NoSpace && !r.rollback
    ensures var (t, err) := Append(env, s, e); err == Fine && Held(env, t) == Held(env, s) + [e, e]
  {
    ReadAppended(env.codec, s.data, e);
    Twice(Events(env.codec, s.data), e);
    StuckInFile(env, s, e);
  }

  lemma StuckInFile(env: Env, s: Log, e: Event)
    requires s.pending == [] && !s.syncNeeded && !s.stateDirty
    requires var r := env.io(s.clock);
      r.seek == Fine && r.written >= |Line(env.codec, e)| && r.write == NoSpace && !r.rollback
    ensures var (t, err) := Append(env, s, e);
      err == Fine && t.data == s.data + Line(env.codec, e) && t.pending == [] + [e]
  {
    var line := Line(env.codec, e);
    assert line[..|line|] == line;
    assert Flush(env, s) == (s, Fine);
  }

  lemma Twice(a: seq<Event>, e: Event)
    ensures a + [e] + ([] + [e]) == a + [] + [e, e]
  {
  }

  /** state.json holds the last state saved for each service. */
  ghost predicate InStateFile(file: StateFile, saved: States) {
    forall k :: k in saved ==> file.Holds? && k in file.states && file.states[k] == saved[k]
  }

  /** One call that reports success and leaves the log writable leaves nothing owed. */
  lemma WritableAfter(env: Env, s: Log, last: Op, saved: States)
    requires Faithful(env.codec) && Sound(env, s) && StatesKept(s, saved)
    requires !last.CrashOp? && Clean(env, s, last)
    requires var r := Apply(env, s, last); r.1 == Fine && !r.0.blocked
    ensures var t := Apply(env, s, last).0;
      var all := Held(env, s) + (if last.AppendOp? then [last.event] else []);
      && t.pending == [] && Events(env.codec, t.data) == all
      && (env.fsync && (last.AppendOp? || Tight(env, s) || s.pending != []) ==> t.synced == |t.data| && Durable(env, t) == all)
      && InStateFile(t.stateFile, if last.SaveOp? then saved[last.state.service := last.state] else saved)
  {
    var t := Apply(env, s, last).0;
    if last.AppendOp? {
      var w := AppendKeeps(env, s, last.event, saved);
      MovesConserves(env, s, t, w, [last.event]);
    } else {
      var w := SaveStateKeeps(env, s, last.state, saved);
      MovesConserves(env, s, t, w, []);
    }
    assert t.data[..|t.data|] == t.data;
    assert Events(env.codec, t.data) + [] == Events(env.codec, t.data);
  }

  /** Writable means durable: whenever a call reports success and leaves the log writable, every
      event accepted since the start is in the file and every saved state is in state.json; with fsync on
      the file is synced, unless the call only saved a state and the log was opened on an unsynced
      file. */
  lemma WritableMeansDurable(env: Env, s: Log, ops: seq<Op>, last: Op, saved: States)
    requires Faithful(env.codec) && Sound(env, s) && StatesKept(s, saved)
    requires Possible(env, s, ops) && RunClean(env, s, ops) && forall i :: 0 <= i < |ops| ==> !ops[i].CrashOp?
    requires !last.CrashOp? && Clean(env, Run(env, s, ops), last)
    requires var r := Apply(env, Run(env, s, ops), last); r.1 == Fine && !r.0.blocked
    ensures var t := Apply(env, Run(env, s, ops), last).0;
      var all := Held(env, s) + Accepted(env, s, ops) + (if last.AppendOp? then [last.event] else []);
      && t.pending == [] && Events(env.codec, t.data) == all
      && (env.fsync && (last.AppendOp? || Tight(env, s)) ==> t.synced == |t.data| && Durable(env, t) == all)
      && InStateFile(t.stateFile, SavedBy(saved, ops + [last]))
  {
    RunConserves(env, s, ops, saved);
    SavedBySnoc(saved, ops, last);
    WritableAfter(env, Run(env, s, ops), last, SavedBy(saved, ops));
  }

  lemma {:induction false} SavedBySnoc(saved: States, ops: seq<Op>, last: Op)
    ensures SavedBy(saved, ops + [last]) ==
            if last.SaveOp? then SavedBy(saved, ops)[last.state.service := last.state] else SavedBy(saved, ops)
    decreases ops
  {
    if ops != [] {
      assert (ops + [last])[1..] == ops[1..] + [last];
      SavedBySnoc(if ops[0].SaveOp? then saved[ops[0].state.service := ops[0].state] else saved, ops[1..], last);
    }
  }

  lemma DurableGrows(env: Env, s: Log, t: Log, w: seq<Event>, added: seq<Event>)
    requires Sound(env, s) && Sound(env, t) && Moves(env, s, t, w, added)
    ensures Durable(env, s) <= Durable(env, t)
  {
    var all := t.data[..t.synced];
    assert all[..s.synced] == s.data[..s.synced];
    ReadPrefix(env.codec, all, s.synced);
  }

  /** Reopening after a crash: nothing durable is lost and nothing is invented. After a power loss all
      that is left is durable; a killed process loses nothing of the file. */
  lemma ReopenKeeps(env: Env, s: Log, crash: Crash)
    requires Faithful(env.codec) && Sound(env, s) && Survives(s, crash)
    ensures var t := Reopen(env, s, crash);
      && Sound(env, t) && StatesKept(t, map[]) && t.pending == []
      && Durable(env, s) <= Durable(env, t) && Held(env, t) <= Events(env.codec, s.data)
      && (crash.PowerLoss? ==> Tight(env, t) && Durable(env, t) == Held(env, t))
      && (crash.Killed? ==> t.data == s.data && t.synced == s.synced && Held(env, t) == Events(env.codec, s.data))
  {
    var t := Reopen(env, s, crash);
    if crash.PowerLoss? {
      AfterPowerLoss(env, s, crash.cut);
    } else {
      AfterKill(env, s);
    }
    assert Events(env.codec, t.data) + [] == Events(env.codec, t.data);
  }

  lemma AfterPowerLoss(env: Env, s: Log, cut: nat)
    requires Faithful(env.codec) && Sound(env, s) && s.synced <= cut <= |s.data|
    ensures var t := Reopen(env, s, PowerLoss(cut));
      && Whole(t.data) && t.synced == |t.data| && t.data[..t.synced] == t.data
      && Durable(env, s) <= Events(env.codec, t.data) <= Events(env.codec, s.data)
  {
    CrashRepairReopen(env.codec, s.data, s.synced, cut, []);
    var t := Reopen(env, s, PowerLoss(cut));
    assert t.data[..|t.data|] == t.data;
  }

  lemma AfterKill(env: Env, s: Log)
    requires Sound(env, s)
    ensures Reopen(env, s, Killed).data == s.data && Reopen(env, s, Killed).synced == s.synced
  {
    assert s.data[..|s.data|] == s.data;
    RepairedIsLastBoundary(env.codec, s.data, |s.data|);
  }

  /** After a kill the log is right about being synced if and only if the file was. */
  lemma KilledIsTightIff(env: Env, s: Log)
    requires Faithful(env.codec) && Sound(env, s)
    ensures Tight(env, Reopen(env, s, Killed)) <==> (env.fsync ==> s.synced == |s.data|)
  {
    ReopenKeeps(env, s, Killed);
  }

  /** With fsync on, a call that reports success and leaves the log writable leaves the file synced if and
      only if it appended an event, wrote a deferred one, or the log was right about its syncs. */
  lemma SyncedIff(env: Env, s: Log, last: Op)
    requires Faithful(env.codec) && Sound(env, s) && env.fsync
    requires !last.CrashOp? && Clean(env, s, last)
    requires var r := Apply(env, s, last); r.1 == Fine && !r.0.blocked
    ensures var t := Apply(env, s, last).0;
      t.synced == |t.data| <==> last.AppendOp? || s.pending != [] || Tight(env, s)
  {
    WritableAfter(env, s, last, map[]);
    if last.SaveOp? && s.pending == [] && !Tight(env, s) {
      assert Drain(env, Owing(s, last.state)) == (Owing(s, last.state), Fine);
    }
  }

  /** So after a kill a saved state suffices to call the log writable while a record is not synced. */
  lemma KilledHidesUnsynced(env: Env, s: Log, state: ServiceState)
    requires Faithful(env.codec) && Sound(env, s) && s.synced < |s.data|
    requires env.io(s.clock).state == StateIo(Fine, Fine, Fine, Fine, Fine, Fine, Fine, Fine, Fine, Fine)
    ensures var (t, err) := SaveState(env, Reopen(env, s, Killed), state);
      err == Fine && !t.blocked && t.synced < |t.data|
  {
    ReopenKeeps(env, s, Killed);
  }

  // ------------------------------------------------------------------ what is durable, whatever fails

  /** The synced part of the file ends at a record boundary; so does the file while a sync is owed. */
  predicate Guarded(s: Log) {
    s.synced <= |s.data| && Whole(s.data[..s.synced]) && (s.syncNeeded ==> Whole(s.data))
  }

  /** From s to t the synced part of the file only grew. */
  predicate Grows(s: Log, t: Log) {
    && s.synced <= t.synced <= |t.data| && s.synced <= |s.data|
    && t.data[..s.synced] == s.data[..s.synced]
  }

  lemma GrowsTwice(s: Log, t: Log, u: Log)
    requires Grows(s, t) && Grows(t, u)
    ensures Grows(s, u)
  {
    assert u.data[..s.synced] == u.data[..t.synced][..s.synced] && t.data[..s.synced] == t.data[..t.synced][..s.synced];
  }

  lemma WriteGrows(env: Env, s: Log, e: Event)
    requires Guarded(s) && !s.syncNeeded
    ensures var t := WriteEvent(env, s, e).0; Guarded(t) && Grows(s, t)
  {
    var t := WriteEvent(env, s, e).0;
    assert t.data[..s.synced] == s.data[..s.synced];
    assert t.data[..|t.data|] == t.data;
  }

  lemma {:induction false} DrainGrows(env: Env, s: Log)
    requires Guarded(s) && !s.syncNeeded
    ensures var t := Drain(env, s).0; Guarded(t) && Grows(s, t)
    decreases |s.pending|
  {
    if s.pending != [] {
      WriteGrows(env, s, s.pending[0]);
      var (t, err) := WriteEvent(env, s, s.pending[0]);
      if !t.syncNeeded && err == Fine {
        var next := t.(pending := s.pending[1..]);
        DrainGrows(env, next);
        GrowsTwice(s, next, Drain(env, next).0);
      }
    }
  }

  lemma FlushGrows(env: Env, s: Log)
    requires Guarded(s)
    ensures var (t, err) := Flush(env, s); Guarded(t) && Grows(s, t) && (err == Fine ==> !t.syncNeeded)
  {
    var (a, err) := Resync(env, s);
    assert s.data[..|s.data|] == s.data;
    assert Guarded(a) && Grows(s, a);
    if err == Fine {
      DrainGrows(env, a);
      DrainSynced(env, a);
      GrowsTwice(s, a, Drain(env, a).0);
    }
  }

  lemma {:induction false} DrainSynced(env: Env, s: Log)
    requires !s.syncNeeded
    ensures var (t, err) := Drain(env, s); err == Fine ==> !t.syncNeeded
    decreases |s.pending|
  {
    if s.pending != [] {
      var (t, err) := WriteEvent(env, s, s.pending[0]);
      if !t.syncNeeded && err == Fine {
        DrainSynced(env, t.(pending := s.pending[1..]));
      }
    }
  }

  lemma AppendGrows(env: Env, s: Log, e: Event)
    requires Guarded(s)
    ensures var t := Append(env, s, e).0; Guarded(t) && Grows(s, t)
  {
    FlushGrows(env, s);
    var (a, err) := Flush(env, s);
    if err == Fine {
      WriteGrows(env, a, e);
      GrowsTwice(s, a, WriteEvent(env, a, e).0);
    }
  }

  lemma ReopenGrows(env: Env, s: Log, crash: Crash)
    requires Guarded(s) && Survives(s, crash)
    ensures var t := Reopen(env, s, crash); Guarded(t) && Grows(s, t)
  {
    var t, cut := Reopen(env, s, crash), if crash.PowerLoss? then crash.cut else |s.data|;
    assert s.data[..|s.data|] == s.data;
    RepairedIsLastBoundary(env.codec, s.data, cut);
    assert t.data[..s.synced] == s.data[..s.synced];
    assert t.data[..|t.data|] == t.data;
  }

  lemma ApplyGrows(env: Env, s: Log, op: Op)
    requires Guarded(s) && (op.CrashOp? ==> Survives(s, op.crash))
    ensures var t := Apply(env, s, op).0; Guarded(t) && Grows(s, t)
  {
    match op
    case AppendOp(e) => AppendGrows(env, s, e);
    case SaveOp(state) => FlushGrows(env, Owing(s, state));
    case CrashOp(crash) => ReopenGrows(env, s, crash);
  }

  /** Over any run at all, with any faults, torn writes, kills and power losses, what is durable only ever
      grows at its end. A failing truncate can lose or repeat accepted events, never durable ones. */
  lemma {:induction false} DurablePrefixGrows(env: Env, s: Log, ops: seq<Op>)
    requires Guarded(s) && Possible(env, s, ops)
    ensures var t := Run(env, s, ops); Guarded(t) && Durable(env, s) <= Durable(env, t)
    decreases ops
  {
    if ops != [] {
      var t := Apply(env, s, ops[0]).0;
      ApplyGrows(env, s, ops[0]);
      assert t.data[..t.synced][..s.synced] == s.data[..s.synced];
      ReadPrefix(env.codec, t.data[..t.synced], s.synced);
      DurablePrefixGrows(env, t, ops[1..]);
    }
  }

  // ------------------------------------------------------------------ exactly when events are conserved

  /** What the call is to add to the log. */
  function Gained(env: Env, s: Log, op: Op): seq<Event> {
    if op.AppendOp? && Accepts(env, s, op.event) then [op.event] else []
  }

  /** The call leaves whole records, those held before and what it is to add. */
  ghost predicate Conserves(env: Env, s: Log, op: Op)
    requires !op.CrashOp?
  {
    var t := Apply(env, s, op).0;
    Whole(t.data) && Held(env, t) == Held(env, s) + Gained(env, s, op)
  }

  /** A torn write of e behind the records w. */
  ghost predicate Tears(env: Env, s: Log, t: Log, w: seq<Event>, e: Event, n: nat) {
    && 0 < n <= |Line(env.codec, e)|
    && t.data == s.data + Lines(env.codec, w) + Line(env.codec, e)[..n]
  }

  lemma {:induction false} DrainTears(env: Env, s: Log) returns (w: seq<Event>, e: Event, n: nat)
    requires Sound(env, s) && !s.syncNeeded && !DrainClean(env, s)
    ensures var (t, err) := Drain(env, s);
      err != Fine && Tears(env, s, t, w, e, n) && |w| + |t.pending| == |s.pending|
    decreases |s.pending|
  {
    e := s.pending[0];
    if Torn(env.io(s.clock), Line(env.codec, e)) {
      w := [];
      n := TornWrite(env, s, e);
    } else {
      var first, next := e, WriteEvent(env, s, e).0.(pending := s.pending[1..]);
      WriteEventSound(env, s, e);
      w, e, n := DrainTears(env, next);
      Deeper(env.codec, s.data, first, w, Line(env.codec, e)[..n]);
      w := [first] + w;
    }
  }

  lemma Deeper(c: Codec, data: seq<Byte>, first: Event, w: seq<Event>, rest: seq<Byte>)
    ensures data + Line(c, first) + Lines(c, w) + rest == data + Lines(c, [first] + w) + rest
  {
    assert ([first] + w)[1..] == w;
    Assoc(data, Line(c, first), Lines(c, w));
  }

  lemma TornWrite(env: Env, s: Log, e: Event) returns (n: nat)
    requires Torn(env.io(s.clock), Line(env.codec, e)) && !s.syncNeeded
    ensures var (t, err) := WriteEvent(env, s, e);
      err != Fine && t.pending == s.pending && !t.syncNeeded && Tears(env, s, t, [], e, n)
      && err == WriteRecord(env.io(s.clock), s.data, Line(env.codec, e)).1
  {
    n := Min(env.io(s.clock).written, |Line(env.codec, e)|);
    assert s.data + [] == s.data;
  }

  /** Behind a torn write the file is not whole, or it holds one record too many. */
  lemma TornIsVisible(env: Env, s: Log, t: Log, w: seq<Event>, e: Event, n: nat)
    requires Faithful(env.codec) && Whole(s.data) && Tears(env, s, t, w, e, n)
    ensures Whole(t.data) ==> |Held(env, t)| == |Events(env.codec, s.data)| + |w| + 1 + |t.pending|
  {
    var before, line := s.data + Lines(env.codec, w), Line(env.codec, e);
    ReadAllAppended(env.codec, s.data, w);
    if n < |line| {
      NoBoundaryInside(env.codec, before, e);
      assert t.data == (before + line)[..|before| + n];
    } else {
      assert line[..n] == line;
      ReadAppended(env.codec, before, e);
    }
  }

  lemma FlushTears(env: Env, s: Log) returns (w: seq<Event>, e: Event, n: nat)
    requires Sound(env, s) && !FlushClean(env, s)
    ensures var (t, err) := Flush(env, s);
      err != Fine && Tears(env, s, t, w, e, n) && |w| + |t.pending| == |s.pending|
  {
    ResyncKeeps(env, s);
    w, e, n := DrainTears(env, Resync(env, s).0);
  }

  lemma TornBreaks(env: Env, s: Log, op: Op)
    requires Faithful(env.codec) && Sound(env, s) && !op.CrashOp? && !Clean(env, s, op)
    ensures !Conserves(env, s, op)
  {
    var t := Apply(env, s, op).0;
    if op.SaveOp? {
      var w, e, n := FlushTears(env, Owing(s, op.state));
      TornIsVisible(env, s, t, w, e, n);
    } else if !FlushClean(env, s) {
      var w, e, n := FlushTears(env, s);
      TornIsVisible(env, s, t, w, e, n);
    } else {
      OwnWriteBreaks(env, s, op.event);
    }
  }

  lemma OwnWriteBreaks(env: Env, s: Log, e: Event)
    requires Faithful(env.codec) && Sound(env, s) && FlushClean(env, s) && !AppendClean(env, s, e)
    ensures !Conserves(env, s, AppendOp(e))
  {
    var a, err, w := FlushKeeps(env, s, map[]);
    var n := TornWrite(env, a, e);
    var t := Append(env, s, e).0;
    MovesConserves(env, s, a, w, []);
    TornIsVisible(env, a, t, [], e, n);
  }

  /** A call conserves the events if and only if none of its writes is torn. */
  lemma ConservesIff(env: Env, s: Log, op: Op)
    requires Faithful(env.codec) && Sound(env, s) && !op.CrashOp?
    ensures Conserves(env, s, op) <==> Clean(env, s, op)
  {
    if !Clean(env, s, op) {
      TornBreaks(env, s, op);
    } else if op.AppendOp? {
      var w := AppendKeeps(env, s, op.event, map[]);
      MovesConserves(env, s, Apply(env, s, op).0, w, Gained(env, s, op));
    } else {
      var w := SaveStateKeeps(env, s, op.state, map[]);
      MovesConserves(env, s, Apply(env, s, op).0, w, []);
    }
  }

  ghost predicate EachConserves(env: Env, s: Log, ops: seq<Op>)
    requires Possible(env, s, ops) && forall i :: 0 <= i < |ops| ==> !ops[i].CrashOp?
    decreases ops
  {
    ops != [] ==> Conserves(env, s, ops[0]) && EachConserves(env, Apply(env, s, ops[0]).0, ops[1..])
  }

  /** Every call of a run conserves the events if and only if no write of the run is torn. */
  lemma {:induction false} RunConservesIff(env: Env, s: Log, ops: seq<Op>)
    requires Faithful(env.codec) && Sound(env, s)
    requires Possible(env, s, ops) && forall i :: 0 <= i < |ops| ==> !ops[i].CrashOp?
    ensures EachConserves(env, s, ops) <==> RunClean(env, s, ops)
    decreases ops
  {
    if ops != [] {
      ConservesIff(env, s, ops[0]);
      if Clean(env, s, ops[0]) {
        StaysSound(env, s, ops[0]);
        RunConservesIff(env, Apply(env, s, ops[0]).0, ops[1..]);
      }
    }
  }

  lemma StaysSound(env: Env, s: Log, op: Op)
    requires Sound(env, s) && !op.CrashOp? && Clean(env, s, op)
    ensures Sound(env, Apply(env, s, op).0)
  {
    if op.AppendOp? {
      var w := AppendKeeps(env, s, op.event, map[]);
    } else {
      var w := SaveStateKeeps(env, s, op.state, map[]);
    }
  }
}
