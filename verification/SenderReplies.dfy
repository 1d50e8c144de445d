/** What a delivery comes to, read off the replies of the receiver (internal/remote_write/remote_write.go,
    sendSeries, saveCheckpoint and Send). */
module SenderReplies {
  import opened Types
  import opened Sorting
  import opened Sender

  // ------------------------------------------------------------------ one request with retries

  predicate Undecided(r: Reply) { !Accepting(r) && !Rejecting(r) }

  /** Behind request n another one is made, if fewer than three were. */
  predicate Again(env: Env, n: nat) { Undecided(env.reply(n)) && !env.cancelled(n) }

  /** Request n is made, when from is the first of three at most. */
  predicate Reaches(env: Env, from: nat, n: nat) {
    from <= n < from + 3 && forall i :: from <= i < n ==> Again(env, i)
  }

  /** What the last request made decides: the first 2xx, the first 4xx, a third failure, or a pause that is
      cut short. */
  function Verdict(env: Env, from: nat, last: nat): Outcome {
    if Accepting(env.reply(last)) then Sent
    else if Rejecting(env.reply(last)) then Permanent(env.reply(last).code)
    else if last == from + 2 then Failed
    else Cancelled
  }

  lemma PostDecides(env: Env, s: State) returns (t: State, out: Outcome)
    ensures (t, out) == Post(env, s, FIRST_ATTEMPT)
    ensures var last := t.requests - 1;
      && last >= 0 && Reaches(env, s.requests, last) && Stops(env, s.requests, last)
      && out == Verdict(env, s.requests, last)
  {
    t, out := Post(env, s, FIRST_ATTEMPT).0, Post(env, s, FIRST_ATTEMPT).1;
    PostOutcome(env, s, FIRST_ATTEMPT);
  }

  /** Behind request n no other one is made. */
  predicate Stops(env: Env, from: nat, n: nat) { n == from + 2 || !Again(env, n) }

  lemma OneLast(env: Env, from: nat, a: nat, b: nat)
    requires Reaches(env, from, a) && Stops(env, from, a) && Reaches(env, from, b) && Stops(env, from, b)
    ensures a == b
  {
    assert a < b ==> Again(env, a);
    assert b < a ==> Again(env, b);
  }

  ghost predicate SomeAccepts(env: Env, from: nat) { exists n: nat :: Reaches(env, from, n) && Accepting(env.reply(n)) }

  ghost predicate SomeRejects(env: Env, from: nat) { exists n: nat :: Reaches(env, from, n) && Rejecting(env.reply(n)) }

  ghost predicate SomePauseIsCut(env: Env, from: nat) {
    exists n: nat :: Reaches(env, from, n) && n < from + 2 && Undecided(env.reply(n)) && env.cancelled(n)
  }

  /** A request is sent exactly when one of the first three replies is a 2xx and each one before it is
      neither 2xx nor 4xx nor followed by a cancelled pause; likewise for the other ends. */
  lemma PostIff(env: Env, s: State)
    ensures var out, from := Post(env, s, FIRST_ATTEMPT).1, s.requests;
      && (out == Sent <==> SomeAccepts(env, from))
      && (out.Permanent? <==> SomeRejects(env, from))
      && (out == Cancelled <==> SomePauseIsCut(env, from))
      && (out == Failed <==> Reaches(env, from, from + 2) && Undecided(env.reply(from + 2)))
  {
    var t, out := PostDecides(env, s);
    var from, last: nat := s.requests, t.requests - 1;
    if SomeAccepts(env, from) {
      var n: nat :| Reaches(env, from, n) && Accepting(env.reply(n));
      OneLast(env, from, n, last);
    }
    if SomeRejects(env, from) {
      var n: nat :| Reaches(env, from, n) && Rejecting(env.reply(n));
      OneLast(env, from, n, last);
    }
    if SomePauseIsCut(env, from) {
      var n: nat :| Reaches(env, from, n) && n < from + 2 && Undecided(env.reply(n)) && env.cancelled(n);
      OneLast(env, from, n, last);
    }
    if Reaches(env, from, from + 2) {
      OneLast(env, from, from + 2, last);
    }
  }

  // ------------------------------------------------------------------ the checkpoint

  /** Saving is six calls up to the rename, two more until the directory is synced, and its close. Up to
      the rename nothing changes; then either checkpoint may be found after a power loss, and once the
      directory is synced only the new one. */
  lemma SaveLeaves(env: Env, s: State, sequence: nat)
    requires sequence > s.lastSent
    ensures var (t, saved) := SaveCheckpoint(env, s, sequence);
      var done := env.saves(s.saveCount);
      && saved == (done >= 9) && t.lastSent == (if saved then sequence else s.lastSent)
      && t.file == (if done >= 6 then sequence else s.file)
      && Revealed(t) == (if done < 6 then Revealed(s) else if done < 8 then Revealed(s) + {sequence} else {sequence})
      && t == s.(lastSent := t.lastSent, file := t.file, onDisk := t.onDisk, earlier := t.earlier, saveCount := s.saveCount + 1)
  {
  }

  // ------------------------------------------------------------------ a delivery

  /** How many of the requests from up to but not including to were answered with a 2xx. */
  function Acks(env: Env, from: nat, to: nat): nat
    decreases to
  {
    if to <= from then 0 else Acks(env, from, to - 1) + if Accepting(env.reply(to - 1)) then 1 else 0
  }

  lemma {:induction false} AcksJoin(env: Env, a: nat, b: nat, c: nat)
    requires a <= b <= c
    ensures Acks(env, a, c) == Acks(env, a, b) + Acks(env, b, c)
    decreases c
  {
    if b < c {
      AcksJoin(env, a, b, c - 1);
    }
  }

  lemma {:induction false} NoAcks(env: Env, a: nat, b: nat)
    requires forall n :: a <= n < b ==> !Accepting(env.reply(n))
    ensures Acks(env, a, b) == 0
    decreases b
  {
    if a < b {
      NoAcks(env, a, b - 1);
    }
  }

  /** The last save made failed. */
  predicate SaveFailed(env: Env, s: State, t: State) {
    s.saveCount < t.saveCount && env.saves(t.saveCount - 1) < 9
  }

  /** How a delivery of pending ends, by the last reply and the last save. */
  ghost predicate EndsBy(env: Env, s: State, t: State, pending: seq<Event>, out: Outcome) {
    if pending == [] then out == Sent && t == s
    else
      && s.requests < t.requests
      && var r := env.reply(t.requests - 1);
         && (out.Permanent? <==> Rejecting(r))
         && (out == NotSaved <==> SaveFailed(env, s, t))
         && (out == Sent || out == NotSaved <==> Accepting(r))
  }

  lemma ChunkByReplies(env: Env, s: State, chunk: seq<Event>) returns (t: State, out: Outcome)
    requires chunk != []
    ensures (t, out) == SendChunk(env, s, chunk)
    ensures EndsBy(env, s, t, chunk, out) && s.saveCount <= t.saveCount && (out == Sent ==> !SaveFailed(env, s, t))
    ensures Acks(env, s.requests, t.requests) == (if out == Sent || out == NotSaved then 1 else 0)
    ensures t.acked == s.acked + (if out == Sent || out == NotSaved then chunk else [])
  {
    var p, end := PostDecides(env, s);
    PostOutcome(env, s, FIRST_ATTEMPT);
    t, out := SendChunk(env, s, chunk).0, SendChunk(env, s, chunk).1;
    NoAcks(env, s.requests, t.requests - 1);
    assert s.acked + [] == s.acked;
  }

  lemma FirstChunks(pending: seq<Event>, n: nat, size: nat, k: nat)
    requires n == Min(size, |pending|)
    ensures size * k >= 0 && size * (k + 1) == size * k + size
    ensures pending[..n] + pending[n..][..Min(|pending| - n, size * k)] == pending[..Min(|pending|, size * (k + 1))]
  {
    var a, b := Min(|pending| - n, size * k), Min(|pending|, size * (k + 1));
    assert n + a == b;
    assert pending[..b][..n] == pending[..n] && pending[..b][n..] == pending[n..][..a];
    assert pending[..b] == pending[..b][..n] + pending[..b][n..];
  }

  /** As many whole batches of pending, from the front, as there were 2xx replies; all of it on success. */
  ghost predicate AckedBy(env: Env, s: State, t: State, pending: seq<Event>, all: bool) {
    var k := env.batchSize * Acks(env, s.requests, t.requests);
    && k >= 0 && t.acked == s.acked + pending[..Min(|pending|, k)]
    && (all ==> |pending| <= k)
  }

  /** Whatever fails, what a delivery gets acknowledged is as many whole batches, from the front, as there
      were 2xx replies; it ends the way the last reply and the last save say. */
  lemma {:induction false} ChunksByReplies(env: Env, s: State, pending: seq<Event>) returns (t: State, out: Outcome)
    requires env.batchSize > 0
    ensures (t, out) == SendChunks(env, s, pending)
    ensures EndsBy(env, s, t, pending, out) && s.requests <= t.requests && s.saveCount <= t.saveCount
    ensures AckedBy(env, s, t, pending, out == Sent)
    decreases |pending|
  {
    if pending == [] {
      t, out := s, Sent;
      assert s.acked + [] == s.acked;
    } else {
      var n := Min(env.batchSize, |pending|);
      var u, end := ChunkByReplies(env, s, pending[..n]);
      if end == Sent {
        t, out := ChunksByReplies(env, u, pending[n..]);
        EndsJoin(env, s, u, t, pending, n, out);
        AckedJoin(env, s, u, t, pending, n, out == Sent);
      } else {
        t, out := u, end;
        FirstChunks(pending, n, env.batchSize, 0);
      }
    }
  }

  lemma EndsJoin(env: Env, s: State, u: State, t: State, pending: seq<Event>, n: nat, out: Outcome)
    requires 0 < n <= |pending| && EndsBy(env, s, u, pending[..n], Sent) && EndsBy(env, u, t, pending[n..], out)
    requires s.saveCount <= u.saveCount <= t.saveCount
    ensures EndsBy(env, s, t, pending, out)
  {
  }

  lemma AckedJoin(env: Env, s: State, u: State, t: State, pending: seq<Event>, n: nat, all: bool)
    requires n == Min(env.batchSize, |pending|) && s.requests <= u.requests <= t.requests
    requires Acks(env, s.requests, u.requests) == 1 && u.acked == s.acked + pending[..n] && AckedBy(env, u, t, pending[n..], all)
    ensures AckedBy(env, s, t, pending, all)
  {
    var k := Acks(env, u.requests, t.requests);
    AcksJoin(env, s.requests, u.requests, t.requests);
    FirstChunks(pending, n, env.batchSize, k);
    ChunksJoin(s.acked, pending, n, Min(|pending| - n, env.batchSize * k), t.acked);
  }

  lemma ChunksJoin(acked: seq<Event>, pending: seq<Event>, n: nat, m: nat, after: seq<Event>)
    requires n <= |pending| && m <= |pending| - n && after == acked + pending[..n] + pending[n..][..m]
    ensures after == acked + (pending[..n] + pending[n..][..m])
  {
  }
}
