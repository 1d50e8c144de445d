/** Checkpointed delivery to one receiver (internal/remote_write/remote_write.go). */
module Sender {
  import opened Types
  import opened Sorting

  /** How one request ends. Status carries the HTTP code; NoReply is a transport error. */
  datatype Reply = Status(code: int) | NoReply

  /** How a delivery ends. Cancelled is the end of the context during a retry pause. */
  datatype Outcome = Sent | Permanent(code: int) | Failed | Cancelled | NotSaved

  const FIRST_ATTEMPT := 1
  const MAX_ATTEMPTS := 3

  /** The calls that save a checkpoint, in order; the first one that fails ends the save.
      Up to the rename the old file stays, the synced directory makes the new one permanent. */
  const SAVE_RENAMED := 6
  const SAVE_SYNCED := 8
  const SAVE_DONE := 9

  /** Answers of the environment: reply n, whether the pause behind it is cut short, how many calls of
      save n succeed, and whether the context is cancelled once n requests have been made. */
  datatype Env = Env(
    batchSize: nat,
    reply: nat -> Reply,
    cancelled: nat -> bool,
    saves: nat -> nat,
    stopped: nat -> bool)

  /** file is what reading the checkpoint file yields. A rename whose directory is not synced yet may be
      undone by a power loss: onDisk holds the checkpoints of this process that one may reveal, earlier
      those left by the processes before it. acked is the history of acknowledged events, repeats
      included. */
  datatype State = State(
    lastSent: nat,
    file: nat,
    onDisk: set<nat>,
    earlier: set<nat>,
    acked: seq<Event>,
    successes: nat,
    failures: nat,
    retries: nat,
    requests: nat,
    saveCount: nat)

  /** Every checkpoint a power loss may reveal. */
  function Revealed(s: State): set<nat> { s.onDisk + s.earlier }

  predicate Accepting(r: Reply) { r.Status? && 200 <= r.code < 300 }

  predicate Rejecting(r: Reply) { r.Status? && 400 <= r.code < 500 }

  // ------------------------------------------------------------------ one request with retries

  /** The outcome of a request whose first unanswered attempt is number attempt. */
  function Post(env: Env, s: State, attempt: nat): (State, Outcome)
    requires 1 <= attempt <= MAX_ATTEMPTS
    decreases MAX_ATTEMPTS - attempt
  {
    var n := s.requests;
    var failed := s.(requests := n + 1, failures := s.failures + 1);
    var paused := failed.(retries := s.retries + 1);
    if Accepting(env.reply(n)) then (s.(requests := n + 1, successes := s.successes + 1), Sent)
    else if Rejecting(env.reply(n)) then (failed, Permanent(env.reply(n).code))
    else if attempt == MAX_ATTEMPTS then (failed, Failed)
    else if env.cancelled(n) then (paused, Cancelled)
    else Post(env, paused, attempt + 1)
  }

  /** A request is tried at most three times. It counts as sent exactly when some try is accepted
      and every earlier one was neither accepted, nor rejected, nor followed by a cancelled pause.
      Every try is counted once, and the checkpoint is not touched. */
  lemma {:induction false} PostOutcome(env: Env, s: State, attempt: nat)
    requires 1 <= attempt <= MAX_ATTEMPTS
    ensures var (t, out) := Post(env, s, attempt);
      var tries := t.requests - s.requests;
      && 1 <= tries <= MAX_ATTEMPTS - attempt + 1
      && t.successes + t.failures == s.successes + s.failures + tries
      && t.successes == s.successes + (if out == Sent then 1 else 0)
      && t.retries == s.retries + tries - (if out == Cancelled then 0 else 1)
      && (out == Sent <==> Accepting(env.reply(t.requests - 1)))
      && (out.Permanent? <==> Rejecting(env.reply(t.requests - 1)))
      && (out == Failed ==> tries == MAX_ATTEMPTS - attempt + 1)
      && (forall n :: s.requests <= n < t.requests - 1 ==>
            !Accepting(env.reply(n)) && !Rejecting(env.reply(n)) && !env.cancelled(n))
      && t == s.(successes := t.successes, failures := t.failures, retries := t.retries, requests := t.requests)
    decreases MAX_ATTEMPTS - attempt
  {
    var n := s.requests;
    if !Accepting(env.reply(n)) && !Rejecting(env.reply(n)) && attempt < MAX_ATTEMPTS && !env.cancelled(n) {
      PostOutcome(env, s.(requests := n + 1, failures := s.failures + 1, retries := s.retries + 1), attempt + 1);
    }
  }

  // ------------------------------------------------------------------ the checkpoint

  function SaveCheckpoint(env: Env, s: State, sequence: nat): (State, bool) {
    if sequence <= s.lastSent then (s, true)
    else
      var done := env.saves(s.saveCount);
      var s := s.(saveCount := s.saveCount + 1);
      if done < SAVE_RENAMED then (s, false)
      else
        var s := s.(file := sequence,
                    onDisk := if done < SAVE_SYNCED then s.onDisk + {sequence} else {sequence},
                    earlier := if done < SAVE_SYNCED then s.earlier else {});
        if done < SAVE_DONE then (s, false) else (s.(lastSent := sequence), true)
  }

  // ------------------------------------------------------------------ a delivery

  predicate BySequence(a: Event, b: Event) { a.sequence <= b.sequence }

  function Above(last: nat): Event -> bool { (e: Event) => e.sequence > last }

  /** The events a delivery still has to send, in sequence order. */
  function Unsent(last: nat, events: seq<Event>): seq<Event> {
    Sort(BySequence, Filter(Above(last), events))
  }

  /** One chunk: a request, then the checkpoint of its last event. */
  function SendChunk(env: Env, s: State, chunk: seq<Event>): (State, Outcome)
    requires chunk != []
  {
    var (t, out) := Post(env, s, FIRST_ATTEMPT);
    if out != Sent then (t, out)
    else
      var (u, saved) := SaveCheckpoint(env, t.(acked := t.acked + chunk), chunk[|chunk| - 1].sequence);
      (u, if saved then Sent else NotSaved)
  }

  function SendChunks(env: Env, s: State, pending: seq<Event>): (State, Outcome)
    requires env.batchSize > 0
    decreases |pending|
  {
    if pending == [] then (s, Sent)
    else
      var n := Min(env.batchSize, |pending|);
      var (t, out) := SendChunk(env, s, pending[..n]);
      if out != Sent then (t, out) else SendChunks(env, t, pending[n..])
  }

  function Send(env: Env, s: State, events: seq<Event>): (State, Outcome)
    requires env.batchSize > 0
  {
    SendChunks(env, s, Unsent(s.lastSent, events))
  }

  // ------------------------------------------------------------------ the sender as the program has it

  class RemoteWriter {
    const env: Env
    var lastSent: nat
    var file: nat
    var onDisk: set<nat>
    var earlier: set<nat>
    var acked: seq<Event>
    var successes: nat
    var failures: nat
    var retries: nat
    var requests: nat
    var saveCount: nat

    function View(): State
      reads this
    {
      State(lastSent, file, onDisk, earlier, acked, successes, failures, retries, requests, saveCount)
    }

    /** Opens the sender with the checkpoint read from the file, 0 when there is none. Reading syncs
        nothing: earlier are the checkpoints a power loss may bring back. */
    constructor (env: Env, loaded: nat, earlier: set<nat>)
      requires env.batchSize > 0
      ensures this.env == env && View() == State(loaded, loaded, {loaded}, earlier, [], 0, 0, 0, 0, 0)
    {
      this.env := env;
      lastSent, file, onDisk, this.earlier, acked := loaded, loaded, {loaded}, earlier, [];
      successes, failures, retries, requests, saveCount := 0, 0, 0, 0, 0;
    }

    /** One try; None asks for another one. */
    method TryOnce(attempt: nat) returns (out: Option<Outcome>)
      requires 1 <= attempt <= MAX_ATTEMPTS
      modifies this`successes, this`failures, this`retries, this`requests
      ensures out.Some? ==> Post(env, old(View()), attempt) == (View(), out.value)
      ensures out.None? ==> attempt < MAX_ATTEMPTS && Post(env, old(View()), attempt) == Post(env, View(), attempt + 1)
    {
      var n := requests;
      requests := requests + 1;
      if Accepting(env.reply(n)) {
        successes := successes + 1;
        return Some(Sent);
      }
      failures := failures + 1;
      if Rejecting(env.reply(n)) {
        return Some(Permanent(env.reply(n).code));
      }
      if attempt >= MAX_ATTEMPTS {
        return Some(Failed);
      }
      retries := retries + 1;
      if env.cancelled(n) {
        return Some(Cancelled);
      }
      return None;
    }

    method SendSeries() returns (out: Outcome)
      modifies this`successes, this`failures, this`retries, this`requests
      ensures (View(), out) == Post(env, old(View()), FIRST_ATTEMPT)
    {
      var attempt := FIRST_ATTEMPT;
      var end := TryOnce(attempt);
      while end.None?
        invariant 1 <= attempt <= MAX_ATTEMPTS
        invariant end.Some? ==> Post(env, old(View()), FIRST_ATTEMPT) == (View(), end.value)
        invariant end.None? ==> attempt < MAX_ATTEMPTS && Post(env, old(View()), FIRST_ATTEMPT) == Post(env, View(), attempt + 1)
        decreases MAX_ATTEMPTS - attempt
      {
        attempt := attempt + 1;
        end := TryOnce(attempt);
      }
      out := end.value;
    }

    method Save(sequence: nat) returns (saved: bool)
      modifies this`lastSent, this`file, this`onDisk, this`earlier, this`saveCount
      ensures (View(), saved) == SaveCheckpoint(env, old(View()), sequence)
    {
      if sequence <= lastSent {
        return true;
      }
      var done := env.saves(saveCount);
      saveCount := saveCount + 1;
      if done < SAVE_RENAMED {
        return false;
      }
      file, onDisk := sequence, onDisk + {sequence};
      if done >= SAVE_SYNCED {
        onDisk, earlier := {sequence}, {};
      }
      if done < SAVE_DONE {
        return false;
      }
      lastSent := sequence;
      return true;
    }

    method SendBatch(batch: seq<Event>) returns (out: Outcome)
      requires batch != []
      modifies this
      ensures (View(), out) == SendChunk(env, old(View()), batch)
    {
      out := SendSeries();
      if out != Sent {
        return;
      }
      acked := acked + batch;
      var saved := Save(batch[|batch| - 1].sequence);
      if !saved {
        return NotSaved;
      }
    }

    method PickUnsent(events: seq<Event>) returns (pending: seq<Event>)
      ensures pending == Filter(Above(lastSent), events)
    {
      var last := lastSent;
      pending := [];
      for i := 0 to |events|
        invariant pending == Filter(Above(last), events[..i])
      {
        assert events[..i + 1][..i] == events[..i];
        if events[i].sequence > last {
          pending := pending + [events[i]];
        }
      }
      assert events[..|events|] == events;
    }

    method SendEvents(events: seq<Event>) returns (out: Outcome)
      requires env.batchSize > 0
      modifies this
      ensures (View(), out) == Send(env, old(View()), events)
    {
      var pending := PickUnsent(events);
      pending := Sort(BySequence, pending);
      var start := 0;
      assert pending[start..] == pending;
      while start < |pending|
        invariant 0 <= start <= |pending|
        invariant SendChunks(env, View(), pending[start..]) == SendChunks(env, old(View()), pending)
      {
        var end := start + env.batchSize;
        if end > |pending| {
          end := |pending|;
        }
        var batch := pending[start..end];
        assert pending[start..][..end - start] == batch && pending[start..][end - start..] == pending[end..];
        out := SendBatch(batch);
        if out != Sent {
          return;
        }
        start := end;
      }
      out := Sent;
    }
  }

  // ------------------------------------------------------------------ what deliveries keep

  ghost predicate StrictlyBySequence(s: seq<Event>) {
    forall i, j :: 0 <= i < j < |s| ==> s[i].sequence < s[j].sequence
  }

  ghost predicate UniquelySequenced(s: seq<Event>) {
    forall i, j :: 0 <= i < j < |s| ==> s[i].sequence != s[j].sequence
  }

  /** Repeats removed, first occurrences kept. */
  function Distinct(s: seq<Event>): seq<Event> {
    if s == [] then []
    else
      var front := Distinct(s[..|s| - 1]);
      if s[|s| - 1] in front then front else front + [s[|s| - 1]]
  }

  lemma {:induction false} InsertKeepsStrict(s: seq<Event>, x: Event)
    requires StrictlyBySequence(s) && forall y :: y in s ==> y.sequence != x.sequence
    ensures StrictlyBySequence(Insert(BySequence, s, x))
  {
    if s != [] && !BySequence(s[|s| - 1], x) {
      var front, top := s[..|s| - 1], s[|s| - 1];
      InsertKeepsStrict(front, x);
      var r := Insert(BySequence, front, x);
      InsertMembers(BySequence, front, x);
      forall i | 0 <= i < |r| ensures r[i].sequence < top.sequence {
        assert r[i] in r;
        assert r[i] == x || r[i] in front;
      }
    }
  }

  lemma {:induction false} SortIsStrict(s: seq<Event>)
    requires UniquelySequenced(s)
    ensures StrictlyBySequence(Sort(BySequence, s))
  {
    if s != [] {
      var front := s[..|s| - 1];
      SortIsStrict(front);
      SortMembers(BySequence, front);
      InsertKeepsStrict(Sort(BySequence, front), s[|s| - 1]);
    }
  }

  lemma {:induction false} FilterKeepsUnique(p: Event -> bool, s: seq<Event>)
    requires UniquelySequenced(s)
    ensures UniquelySequenced(Filter(p, s))
  {
    if s != [] {
      var front := Filter(p, s[..|s| - 1]);
      FilterKeepsUnique(p, s[..|s| - 1]);
      FilterMembers(p, s[..|s| - 1]);
      forall i | 0 <= i < |front| ensures front[i].sequence != s[|s| - 1].sequence {
        assert front[i] in s[..|s| - 1];
      }
    }
  }

  /** A strictly ordered list is determined by its members. */
  lemma {:induction false} StrictIsUnique(a: seq<Event>, b: seq<Event>)
    requires StrictlyBySequence(a) && StrictlyBySequence(b)
    requires forall e :: e in a <==> e in b
    ensures a == b
  {
    assert b == [] || b[0] in b;
    if a != [] {
      assert a[0] in b;
      var x, y := a[|a| - 1], b[|b| - 1];
      assert x in b && y in a;
      assert x == y;
      var p, q := a[..|a| - 1], b[..|b| - 1];
      forall e ensures e in p <==> e in q {
        assert e in p <==> e in a && e != x;
        assert e in q <==> e in b && e != x;
      }
      StrictIsUnique(p, q);
    }
  }

  /** Unsent lists exactly the events above the checkpoint, in strict sequence order. */
  lemma UnsentIs(last: nat, events: seq<Event>)
    requires UniquelySequenced(events)
    ensures StrictlyBySequence(Unsent(last, events))
    ensures forall e :: e in Unsent(last, events) <==> e in events && e.sequence > last
  {
    FilterKeepsUnique(Above(last), events);
    SortIsStrict(Filter(Above(last), events));
    SortMembers(BySequence, Filter(Above(last), events));
    FilterMembers(Above(last), events);
  }

  /** The checkpoint that stands for the first j events of work being done. */
  function Mark(start: nat, work: seq<Event>, j: nat): nat
    requires j <= |work|
  {
    if j == 0 then start else work[j - 1].sequence
  }

  /** Work behind a checkpoint: every mark is above the one before it. */
  ghost predicate Ordered(start: nat, work: seq<Event>) {
    work != [] ==>
      && Mark(start, work, |work| - 1) < work[|work| - 1].sequence
      && Ordered(start, work[..|work| - 1])
  }

  lemma {:induction false} MarkGrows(start: nat, work: seq<Event>, i: nat, j: nat)
    requires Ordered(start, work) && i < j <= |work|
    ensures Mark(start, work, i) < Mark(start, work, j)
  {
    var n := |work| - 1;
    if j <= n {
      MarkGrows(start, work[..n], i, j);
    } else if i < n {
      MarkGrows(start, work[..n], i, n);
    }
  }

  lemma {:induction false} StrictIsOrdered(start: nat, work: seq<Event>)
    requires StrictlyBySequence(work) && forall e :: e in work ==> e.sequence > start
    ensures Ordered(start, work)
  {
    if work != [] {
      StrictIsOrdered(start, work[..|work| - 1]);
    }
  }

  lemma UnsentOrdered(last: nat, events: seq<Event>)
    requires UniquelySequenced(events)
    ensures Ordered(last, Unsent(last, events))
  {
    UnsentIs(last, events);
    StrictIsOrdered(last, Unsent(last, events));
  }

  /** Raising the checkpoint to a mark leaves exactly the events behind it. */
  lemma UnsentFromMark(start: nat, events: seq<Event>, j: nat)
    requires UniquelySequenced(events) && j <= |Unsent(start, events)|
    ensures Unsent(Mark(start, Unsent(start, events), j), events) == Unsent(start, events)[j..]
  {
    var work := Unsent(start, events);
    var mark := Mark(start, work, j);
    UnsentIs(start, events);
    UnsentIs(mark, events);
    BehindMark(start, work, j);
    assert StrictlyBySequence(work[j..]);
    StrictIsUnique(Unsent(mark, events), work[j..]);
  }

  lemma BehindMark(start: nat, work: seq<Event>, j: nat)
    requires StrictlyBySequence(work) && (forall e :: e in work ==> e.sequence > start) && j <= |work|
    ensures forall e :: e in work[j..] <==> e in work && e.sequence > Mark(start, work, j)
  {
    forall e | e in work && e.sequence > Mark(start, work, j) ensures e in work[j..] {
      var i :| 0 <= i < |work| && work[i] == e;
      assert i >= j && work[j..][i - j] == e;
    }
  }

  /** A checkpoint that stands for at least j and at most k events of work. */
  ghost predicate MarkBetween(start: nat, work: seq<Event>, c: nat, j: nat, k: nat) {
    exists i :: j <= i <= k && k <= |work| && c == Mark(start, work, i)
  }

  /** The checkpoint in memory stands for j events of work; a crash reveals one standing for at
      least j and at most k of them. */
  ghost predicate Checkpointed(start: nat, work: seq<Event>, s: State, j: nat, k: nat) {
    && j <= k <= |work|
    && s.lastSent == Mark(start, work, j)
    && forall c :: c in s.onDisk ==> MarkBetween(start, work, c, j, k)
  }

  /** j events are checkpointed and exactly the first k acknowledged, in order. */
  ghost predicate Progress(start: nat, work: seq<Event>, s: State, j: nat, k: nat) {
    Checkpointed(start, work, s, j, k) && Distinct(s.acked) == work[..k]
  }

  lemma NewAtMark(start: nat, work: seq<Event>, m: nat, i: nat)
    requires Ordered(start, work) && m <= |work| && i < |work|
    ensures work[i] in work[..m] <==> i < m
  {
    if work[i] in work[..m] && m <= i {
      var h :| 0 <= h < m && work[h] == work[i];
      MarkGrows(start, work, h + 1, i + 1);
    }
    assert i < m ==> work[..m][i] == work[i];
  }

  /** Sending a stretch of work again adds only what was not acknowledged before. */
  lemma {:induction false} DistinctResend(start: nat, work: seq<Event>, acked: seq<Event>, k: nat, j: nat, r: nat)
    requires Ordered(start, work) && j <= k <= |work| && j <= r <= |work|
    requires Distinct(acked) == work[..k]
    ensures Distinct(acked + work[j..r]) == work[..Max(k, r)]
    decreases r
  {
    if r == j {
      assert acked + work[j..j] == acked;
    } else {
      DistinctResend(start, work, acked, k, j, r - 1);
      DistinctStep(start, work, acked, j, r - 1, Max(k, r - 1));
    }
  }

  lemma DistinctStep(start: nat, work: seq<Event>, acked: seq<Event>, j: nat, m: nat, top: nat)
    requires Ordered(start, work) && j <= m < |work| && m <= top <= |work|
    requires Distinct(acked + work[j..m]) == work[..top]
    ensures Distinct(acked + work[j..m + 1]) == work[..Max(top, m + 1)]
  {
    var before := acked + work[j..m];
    NewAtMark(start, work, top, m);
    SnocSlice(acked, work, j, m);
    DistinctSnoc(before, work[m]);
    if m < top {
      assert Distinct(before + [work[m]]) == work[..top];
    } else {
      assert Distinct(before + [work[m]]) == work[..m] + [work[m]];
    }
  }

  lemma SnocSlice(a: seq<Event>, s: seq<Event>, j: nat, m: nat)
    requires j <= m < |s|
    ensures a + s[j..m] + [s[m]] == a + s[j..m + 1]
    ensures s[..m] + [s[m]] == s[..m + 1]
  {
  }

  lemma DistinctSnoc(s: seq<Event>, e: Event)
    ensures Distinct(s + [e]) == if e in Distinct(s) then Distinct(s) else Distinct(s) + [e]
  {
    assert (s + [e])[..|s|] == s;
  }

  lemma SaveAtMark(env: Env, start: nat, work: seq<Event>, s: State, j: nat, k: nat, i: nat)
    requires Ordered(start, work) && Checkpointed(start, work, s, j, k) && j < i <= k
    ensures var (t, saved) := SaveCheckpoint(env, s, Mark(start, work, i));
      t.acked == s.acked && Checkpointed(start, work, t, if saved then i else j, k)
  {
    MarkGrows(start, work, j, i);
    assert MarkBetween(start, work, Mark(start, work, i), i, k);
    assert MarkBetween(start, work, Mark(start, work, i), j, k);
  }

  /** A chunk is acknowledged whole or not at all, and the checkpoint follows it or stays. */
  lemma ChunkOutcome(env: Env, start: nat, work: seq<Event>, s: State, i: nat, j: nat, k: nat, m: nat)
      returns (t: State, out: Outcome, posted: bool)
    requires Ordered(start, work) && Checkpointed(start, work, s, j, k) && j <= i <= k && i < m <= |work|
    ensures (t, out) == SendChunk(env, s, work[i..m])
    ensures out == Sent ==> posted
    ensures t.acked == (if posted then s.acked + work[i..m] else s.acked)
    ensures Checkpointed(start, work, t, if out == Sent then m else j, if posted then Max(k, m) else k)
  {
    PostOutcome(env, s, FIRST_ATTEMPT);
    var p, end := Post(env, s, FIRST_ATTEMPT).0, Post(env, s, FIRST_ATTEMPT).1;
    posted := end == Sent;
    if posted {
      var k', v := Max(k, m), p.(acked := p.acked + work[i..m]);
      forall c | c in v.onDisk ensures MarkBetween(start, work, c, j, k') {
        assert MarkBetween(start, work, c, j, k);
      }
      SaveAtMark(env, start, work, v, j, k', m);
      var (u, saved) := SaveCheckpoint(env, v, Mark(start, work, m));
      t, out := u, if saved then Sent else NotSaved;
    } else {
      t, out := p, end;
    }
  }

  lemma SendChunksStep(env: Env, s: State, work: seq<Event>, i: nat, q: nat, m: nat)
    requires env.batchSize > 0 && i < q <= |work| && m == i + Min(env.batchSize, q - i)
    ensures var (t, out) := SendChunk(env, s, work[i..m]);
      SendChunks(env, s, work[i..q]) == if out != Sent then (t, out) else SendChunks(env, t, work[m..q])
  {
    assert work[i..q][..m - i] == work[i..m] && work[i..q][m - i..] == work[m..q];
  }

  /** Sending the stretch of work from i to q took the sender from s to t: a contiguous first part of
      it, up to r, was acknowledged, and the checkpoints lie between j' and what is acknowledged. */
  ghost predicate StretchSent(start: nat, work: seq<Event>, s: State, t: State, out: Outcome,
                              i: nat, q: nat, j: nat, k: nat, j': nat, r: nat)
  {
    && i <= r <= q <= |work| && j <= j' && t.acked == s.acked + work[i..r]
    && Checkpointed(start, work, t, j', Max(k, r))
    && (out == Sent ==> r == q) && (out == Sent && i < q ==> j' == q) && (i == q ==> j' == j)
  }

  lemma StretchEmpty(start: nat, work: seq<Event>, s: State, i: nat, j: nat, k: nat)
    requires Checkpointed(start, work, s, j, k) && i <= k
    ensures StretchSent(start, work, s, s, Sent, i, i, j, k, j, i)
  {
    Stretch(s.acked, work, i, i, i);
  }

  lemma StretchStopped(start: nat, work: seq<Event>, s: State, t: State, out: Outcome, posted: bool,
                       i: nat, m: nat, q: nat, j: nat, k: nat)
    requires j <= i <= k && i < m <= q <= |work| && out != Sent
    requires t.acked == (if posted then s.acked + work[i..m] else s.acked)
    requires Checkpointed(start, work, t, j, if posted then Max(k, m) else k)
    ensures StretchSent(start, work, s, t, out, i, q, j, k, j, if posted then m else i)
  {
    Stretch(s.acked, work, i, i, i);
  }

  lemma StretchJoins(start: nat, work: seq<Event>, s: State, t: State, u: State, out: Outcome,
                     i: nat, m: nat, q: nat, j: nat, k: nat, j': nat, r: nat)
    requires j <= i <= k && i < m <= q <= |work| && t.acked == s.acked + work[i..m]
    requires StretchSent(start, work, t, u, out, m, q, m, Max(k, m), j', r)
    ensures StretchSent(start, work, s, u, out, i, q, j, k, j', r)
  {
    Stretch(s.acked, work, i, m, r);
  }

  /** Whatever fails, sending a stretch of work gets a contiguous first part of it acknowledged, up
      to r, and leaves the checkpoints between what was and what is acknowledged. */
  lemma {:induction false} ChunksOutcome(env: Env, start: nat, work: seq<Event>, s: State, i: nat, q: nat, j: nat, k: nat)
      returns (u: State, out: Outcome, j': nat, r: nat)
    requires env.batchSize > 0 && Ordered(start, work) && Checkpointed(start, work, s, j, k)
    requires j <= i <= k && i <= q <= |work|
    ensures (u, out) == SendChunks(env, s, work[i..q])
    ensures StretchSent(start, work, s, u, out, i, q, j, k, j', r)
    decreases q - i
  {
    if i == q {
      u, out, j', r := s, Sent, j, i;
      StretchEmpty(start, work, s, i, j, k);
    } else {
      var m := i + Min(env.batchSize, q - i);
      SendChunksStep(env, s, work, i, q, m);
      var t, end, posted := ChunkOutcome(env, start, work, s, i, j, k, m);
      if end == Sent {
        u, out, j', r := ChunksOutcome(env, start, work, t, m, q, m, Max(k, m));
        StretchJoins(start, work, s, t, u, out, i, m, q, j, k, j', r);
      } else {
        u, out, j', r := t, end, j, if posted then m else i;
        StretchStopped(start, work, s, t, out, posted, i, m, q, j, k);
      }
    }
  }

  lemma Stretch(a: seq<Event>, s: seq<Event>, i: nat, m: nat, r: nat)
    requires i <= m <= r <= |s|
    ensures a + s[i..m] + s[m..r] == a + s[i..r]
    ensures a + s[i..i] == a
  {
  }

  /** Calling Send calls times with the same list. */
  function SendAgain(env: Env, s: State, events: seq<Event>, calls: nat): State
    requires env.batchSize > 0
  {
    if calls == 0 then s else Send(env, SendAgain(env, s, events, calls - 1), events).0
  }

  ghost predicate Fresh(s: State) { s.onDisk == {s.lastSent} && s.acked == [] }

  lemma FreshProgress(s: State, work: seq<Event>)
    requires Fresh(s)
    ensures Progress(s.lastSent, work, s, 0, 0)
  {
    assert s.lastSent == Mark(s.lastSent, work, 0);
    assert MarkBetween(s.lastSent, work, s.lastSent, 0, 0);
  }

  lemma {:induction false} SendAgainProgress(env: Env, s: State, events: seq<Event>, calls: nat) returns (j: nat, k: nat)
    requires env.batchSize > 0 && UniquelySequenced(events) && Fresh(s)
    ensures Progress(s.lastSent, Unsent(s.lastSent, events), SendAgain(env, s, events, calls), j, k)
  {
    var work := Unsent(s.lastSent, events);
    if calls == 0 {
      j, k := 0, 0;
      FreshProgress(s, work);
    } else {
      j, k := SendAgainProgress(env, s, events, calls - 1);
      j, k := OneMoreSend(env, s, events, SendAgain(env, s, events, calls - 1), j, k);
    }
  }

  lemma OneMoreSend(env: Env, s: State, events: seq<Event>, t: State, j: nat, k: nat) returns (j': nat, k': nat)
    requires env.batchSize > 0 && UniquelySequenced(events)
    requires Progress(s.lastSent, Unsent(s.lastSent, events), t, j, k)
    ensures var (u, out) := Send(env, t, events);
      && Progress(s.lastSent, Unsent(s.lastSent, events), u, j', k') && t.lastSent <= u.lastSent
      && (out == Sent ==> j' == |Unsent(s.lastSent, events)|)
  {
    var work := Unsent(s.lastSent, events);
    UnsentOrdered(s.lastSent, events);
    UnsentFromMark(s.lastSent, events, j);
    j', k' := SendRest(env, s.lastSent, work, t, j, k);
  }

  lemma SendRest(env: Env, start: nat, work: seq<Event>, s: State, j: nat, k: nat) returns (j': nat, k': nat)
    requires env.batchSize > 0 && Ordered(start, work) && Progress(start, work, s, j, k)
    ensures var (t, out) := SendChunks(env, s, work[j..]);
      && Progress(start, work, t, j', k') && s.lastSent <= t.lastSent
      && (out == Sent ==> j' == |work|)
  {
    assert work[j..] == work[j..|work|];
    var t, out, r;
    t, out, j', r := ChunksOutcome(env, start, work, s, j, |work|, j, k);
    k' := Max(k, r);
    RestProgress(start, work, s, t, out, j, k, j', r);
  }

  lemma RestProgress(start: nat, work: seq<Event>, s: State, t: State, out: Outcome, j: nat, k: nat, j': nat, r: nat)
    requires Ordered(start, work) && Progress(start, work, s, j, k)
    requires StretchSent(start, work, s, t, out, j, |work|, j, k, j', r)
    ensures Progress(start, work, t, j', Max(k, r)) && s.lastSent <= t.lastSent
    ensures out == Sent ==> j' == |work|
  {
    DistinctResend(start, work, s.acked, k, j, r);
    if j < j' {
      MarkGrows(start, work, j, j');
    }
  }

  lemma DiskWithinAcked(start: nat, work: seq<Event>, s: State, j: nat, k: nat, c: nat)
    requires Ordered(start, work) && Progress(start, work, s, j, k) && c in s.onDisk
    ensures start <= s.lastSent <= c && (c == start || exists e :: e in s.acked && c == e.sequence)
  {
    assert MarkBetween(start, work, c, j, k);
    var i :| j <= i <= k && c == Mark(start, work, i);
    if j < i { MarkGrows(start, work, j, i); }
    if 0 < j { MarkGrows(start, work, 0, j); }
    DistinctMembers(s.acked);
    if i > 0 {
      assert work[..k][i - 1] in Distinct(s.acked);
    }
  }

  // ------------------------------------------------------------------ the checkpoint file

  /** The file stands for f events of work and is not behind any checkpoint of this process. */
  ghost predicate Filed(start: nat, work: seq<Event>, s: State, f: nat) {
    && f <= |work| && s.file == Mark(start, work, f) && s.file in s.onDisk
    && forall c :: c in s.onDisk ==> c <= s.file
  }

  /** From s to t the file did not go back, and no checkpoint behind it was added. */
  ghost predicate Advances(s: State, t: State) {
    && s.file <= t.file && t.earlier <= s.earlier
    && forall c :: c in t.onDisk ==> c in s.onDisk || s.file <= c
  }

  lemma MarkOrder(start: nat, work: seq<Event>, i: nat, j: nat)
    requires Ordered(start, work) && i <= j <= |work|
    ensures Mark(start, work, i) <= Mark(start, work, j)
  {
    if i < j {
      MarkGrows(start, work, i, j);
    }
  }

  lemma SaveFiles(env: Env, start: nat, work: seq<Event>, s: State, f: nat, m: nat) returns (f': nat)
    requires Ordered(start, work) && Filed(start, work, s, f) && f <= m <= |work|
    ensures f' <= m
    ensures var t := SaveCheckpoint(env, s, Mark(start, work, m)).0; Filed(start, work, t, f') && Advances(s, t)
  {
    MarkOrder(start, work, f, m);
    var t := SaveCheckpoint(env, s, Mark(start, work, m)).0;
    f' := if t.onDisk == s.onDisk && t.file == s.file then f else m;
  }

  lemma ChunkFiles(env: Env, start: nat, work: seq<Event>, s: State, f: nat, i: nat, m: nat)
      returns (t: State, out: Outcome, f': nat)
    requires Ordered(start, work) && Filed(start, work, s, f) && f <= m && i < m <= |work|
    requires s.lastSent < Mark(start, work, m)
    ensures (t, out) == SendChunk(env, s, work[i..m])
    ensures f' <= m && Filed(start, work, t, f') && Advances(s, t)
    ensures t.lastSent == if out == Sent then Mark(start, work, m) else s.lastSent
  {
    PostOutcome(env, s, FIRST_ATTEMPT);
    var p, end := Post(env, s, FIRST_ATTEMPT).0, Post(env, s, FIRST_ATTEMPT).1;
    if end == Sent {
      var v := p.(acked := p.acked + work[i..m]);
      f' := SaveFiles(env, start, work, v, f, m);
      var (u, saved) := SaveCheckpoint(env, v, Mark(start, work, m));
      t, out := u, if saved then Sent else NotSaved;
    } else {
      t, out, f' := p, end, f;
    }
  }

  /** Sending a stretch again never writes a checkpoint behind the file: the file is at most one batch
      ahead of the place h where the next request would start. */
  lemma {:induction false} ChunksFiled(env: Env, start: nat, work: seq<Event>, s: State, i: nat, q: nat, f: nat)
      returns (u: State, out: Outcome, f': nat, h: nat)
    requires env.batchSize > 0 && Ordered(start, work) && Filed(start, work, s, f)
    requires i <= q <= |work| && f <= q && f <= i + env.batchSize && s.lastSent <= Mark(start, work, i)
    ensures (u, out) == SendChunks(env, s, work[i..q])
    ensures Filed(start, work, u, f') && Advances(s, u) && f' <= q && f' <= h + env.batchSize && h <= q
    ensures (h == i && u.lastSent == s.lastSent) || u.lastSent == Mark(start, work, h)
    decreases q - i
  {
    if i == q {
      u, out, f', h := s, Sent, f, i;
    } else {
      var m := i + Min(env.batchSize, q - i);
      SendChunksStep(env, s, work, i, q, m);
      MarkGrows(start, work, i, m);
      var t, end, g := ChunkFiles(env, start, work, s, f, i, m);
      if end == Sent {
        u, out, f', h := ChunksFiled(env, start, work, t, m, q, g);
      } else {
        u, out, f', h := t, end, g, i;
      }
    }
  }

  /** A delivery can be resumed: however many calls it takes and whatever fails in them, the events
      acknowledged, repeats removed, are the first ones above the starting checkpoint in sequence
      order; the checkpoint in memory never goes back; each checkpoint a power loss could reveal is one
      left by an earlier process, or it is not behind the one in memory and is the starting one or that
      of an acknowledged event. */
  lemma ResumableSend(env: Env, s: State, events: seq<Event>, calls: nat)
    requires env.batchSize > 0 && UniquelySequenced(events) && Fresh(s)
    ensures var t := SendAgain(env, s, events, calls);
      && Distinct(t.acked) <= Unsent(s.lastSent, events)
      && t.lastSent <= SendAgain(env, s, events, calls + 1).lastSent
      && t.earlier <= s.earlier
      && (forall c :: c in t.onDisk ==>
            t.lastSent <= c && (c == s.lastSent || exists e :: e in t.acked && c == e.sequence))
  {
    EarlierShrinks(env, s, events, calls);
    var work := Unsent(s.lastSent, events);
    var t := SendAgain(env, s, events, calls);
    UnsentOrdered(s.lastSent, events);
    var j, k := SendAgainProgress(env, s, events, calls);
    var _, _ := OneMoreSend(env, s, events, t, j, k);
    forall c | c in t.onDisk
      ensures t.lastSent <= c && (c == s.lastSent || exists e :: e in t.acked && c == e.sequence)
    {
      DiskWithinAcked(s.lastSent, work, t, j, k, c);
    }
  }

  lemma {:induction false} EarlierShrinks(env: Env, s: State, events: seq<Event>, calls: nat)
    requires env.batchSize > 0
    ensures SendAgain(env, s, events, calls).earlier <= s.earlier
  {
    if calls > 0 {
      EarlierShrinks(env, s, events, calls - 1);
      var t := SendAgain(env, s, events, calls - 1);
      ChunksShrink(env, t, Unsent(t.lastSent, events));
    }
  }

  lemma {:induction false} ChunksShrink(env: Env, s: State, pending: seq<Event>)
    requires env.batchSize > 0
    ensures SendChunks(env, s, pending).0.earlier <= s.earlier
    decreases |pending|
  {
    if pending != [] {
      var n := Min(env.batchSize, |pending|);
      PostOutcome(env, s, FIRST_ATTEMPT);
      ChunksShrink(env, SendChunk(env, s, pending[..n]).0, pending[n..]);
    }
  }

  /** A call that reports success leaves every event of the list acknowledged or at or below the
      starting checkpoint, and the checkpoint at the last of them. */
  lemma SuccessfulSend(env: Env, s: State, events: seq<Event>, calls: nat)
    requires env.batchSize > 0 && UniquelySequenced(events) && Fresh(s)
    requires Send(env, SendAgain(env, s, events, calls), events).1 == Sent
    ensures var t := SendAgain(env, s, events, calls + 1);
      && Distinct(t.acked) == Unsent(s.lastSent, events)
      && forall e :: e in events ==> e.sequence <= t.lastSent && (e.sequence <= s.lastSent || e in t.acked)
  {
    var start, work := s.lastSent, Unsent(s.lastSent, events);
    UnsentOrdered(start, events);
    var j, k := SendAgainProgress(env, s, events, calls);
    var j', k' := OneMoreSend(env, s, events, SendAgain(env, s, events, calls), j, k);
    var t := SendAgain(env, s, events, calls + 1);
    assert work[..k'] == work;
    DistinctMembers(t.acked);
    forall e | e in events ensures e.sequence <= t.lastSent && (e.sequence <= start || e in t.acked) {
      UnsentIs(start, events);
      BelowLastMark(start, work, e);
    }
  }

  lemma BelowLastMark(start: nat, work: seq<Event>, e: Event)
    requires Ordered(start, work) && (e in work || e.sequence <= start)
    ensures e.sequence <= Mark(start, work, |work|)
  {
    if e in work {
      var i :| 0 <= i < |work| && work[i] == e;
      if i + 1 < |work| { MarkGrows(start, work, i + 1, |work|); }
    } else if work != [] {
      MarkGrows(start, work, 0, |work|);
    }
  }

  lemma {:induction false} DistinctMembers(s: seq<Event>)
    ensures forall e :: e in Distinct(s) <==> e in s
  {
    if s != [] {
      DistinctMembers(s[..|s| - 1]);
      assert s == s[..|s| - 1] + [s[|s| - 1]];
    }
  }
}
