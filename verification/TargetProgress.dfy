/** One target over the events given to it since it started: its batch and queue are what is left of
    them, its checkpoint and what it settled are the first of them
    (internal/delivery/worker.go, internal/remote_write/remote_write.go). */
module TargetProgress {
  import opened Types
  import opened Sorting
  import opened Sender
  import opened Pipeline

  predicate SettledAt(t: Target, all: seq<Event>, i: nat)
    requires i < |all|
  {
    Settled(t, all[i])
  }

  ghost predicate SettledUpTo(t: Target, all: seq<Event>, n: nat) {
    n <= |all| && forall i :: 0 <= i < n ==> SettledAt(t, all, i)
  }

  /** a events of all are checkpointed, the batch starts at b, and the first n are settled. */
  ghost predicate TargetAt(start: nat, all: seq<Event>, t: Target, a: nat, b: nat, n: nat) {
    && Checkpointed(start, all, t.sender, a, n)
    && b <= n && n + |t.queue| <= |all|
    && t.batch + t.queue == all[b..]
    && SettledUpTo(t, all, n)
  }

  ghost predicate TargetOk(start: nat, all: seq<Event>, t: Target) {
    exists a: nat, b: nat, n: nat :: TargetAt(start, all, t, a, b, n)
  }

  /** The checkpoint file is at most one batch ahead of the place where the next request starts: at the
      batch, or at the checkpoint in memory. */
  ghost predicate FileOk(size: nat, start: nat, all: seq<Event>, t: Target) {
    exists h: nat, f: nat :: FileAt(size, start, all, t, h, f)
  }

  ghost predicate FileAt(size: nat, start: nat, all: seq<Event>, t: Target, h: nat, f: nat) {
    && Filed(start, all, t.sender, f) && f <= |all| - |t.queue| && f <= h + size
    && (h <= |all| - |t.queue| - |t.batch| || (h <= |all| && t.sender.lastSent == Mark(start, all, h)))
  }

  /** From t to u only events of all were settled, and no checkpoint went back. */
  ghost predicate Handles(t: Target, u: Target, all: seq<Event>) {
    && t.sender.lastSent <= u.sender.lastSent && Advances(t.sender, u.sender)
    && (forall e :: Settled(t, e) ==> Settled(u, e))
    && (forall e :: Settled(u, e) ==> Settled(t, e) || e in all)
  }

  /** A batch is a stretch of the log; what is left to send of it is the part above the checkpoint. */
  lemma UnsentOfStretch(start: nat, all: seq<Event>, a: nat, b: nat, q: nat)
    requires Ordered(start, all) && b <= q <= |all| && a <= q
    ensures Unsent(Mark(start, all, a), all[b..q]) == all[Max(a, b)..q]
  {
    AboveMark(start, all, a, b, q);
    SortStretch(start, all, Max(a, b), q);
  }

  lemma SortStretch(start: nat, all: seq<Event>, i: nat, q: nat)
    requires Ordered(start, all) && i <= q <= |all|
    ensures Sort(BySequence, all[i..q]) == all[i..q]
  {
    OrderedIsSorted(start, all, i, q);
    SortOfSorted(BySequence, all[i..q]);
  }

  lemma AboveMark(start: nat, all: seq<Event>, a: nat, b: nat, q: nat)
    requires Ordered(start, all) && b <= q <= |all| && a <= q
    ensures Filter(Above(Mark(start, all, a)), all[b..q]) == all[Max(a, b)..q]
  {
    var p, m := Above(Mark(start, all, a)), Max(a, b);
    var below, rest := all[b..m], all[m..q];
    NoneAbove(start, all, a, b, m);
    AllAbove(start, all, a, m, q);
    FilterConcat(p, below, rest);
    Glue(all, b, m, q);
  }

  lemma Glue(s: seq<Event>, b: nat, m: nat, q: nat)
    requires b <= m <= q <= |s|
    ensures s[b..m] + s[m..q] == s[b..q] && [] + s[m..q] == s[m..q]
  {
  }

  lemma SequenceAgainstMark(start: nat, all: seq<Event>, a: nat, i: nat)
    requires Ordered(start, all) && a <= |all| && i < |all|
    ensures all[i].sequence > Mark(start, all, a) <==> a <= i
  {
    if i + 1 < a {
      MarkGrows(start, all, i + 1, a);
    } else if a <= i {
      MarkGrows(start, all, a, i + 1);
    }
  }

  lemma NoneAbove(start: nat, all: seq<Event>, a: nat, b: nat, m: nat)
    requires Ordered(start, all) && b <= m <= |all| && a <= |all| && (b < m ==> m <= a)
    ensures Filter(Above(Mark(start, all, a)), all[b..m]) == []
  {
    var below, p := all[b..m], Above(Mark(start, all, a));
    forall i | 0 <= i < |below| ensures !p(below[i]) {
      assert below[i] == all[b + i];
      SequenceAgainstMark(start, all, a, b + i);
    }
    FilterNone(p, below);
  }

  lemma AllAbove(start: nat, all: seq<Event>, a: nat, m: nat, q: nat)
    requires Ordered(start, all) && a <= m <= q <= |all|
    ensures Filter(Above(Mark(start, all, a)), all[m..q]) == all[m..q]
  {
    var rest, p := all[m..q], Above(Mark(start, all, a));
    forall i | 0 <= i < |rest| ensures p(rest[i]) {
      assert rest[i] == all[m + i];
      SequenceAgainstMark(start, all, a, m + i);
    }
    FilterAll(p, rest);
  }

  lemma OrderedIsSorted(start: nat, all: seq<Event>, i: nat, q: nat)
    requires Ordered(start, all) && i <= q <= |all|
    ensures SortedBy(BySequence, all[i..q])
  {
    var part := all[i..q];
    forall x, y | 0 <= x < y < |part| ensures BySequence(part[x], part[y]) {
      MarkGrows(start, all, i + x + 1, i + y + 1);
      assert part[x] == all[i + x] && part[y] == all[i + y];
    }
  }

  /** Sending a stretch of the log, whatever fails: a contiguous part of what is above the
      checkpoint, up to r, gets acknowledged; the settled part of the log only grows. */
  lemma SendStretch(env: Env, start: nat, all: seq<Event>, t: Target, a: nat, n: nat, lo: nat, q: nat)
      returns (s: State, out: Outcome, a': nat, r: nat)
    requires env.batchSize > 0 && Ordered(start, all) && Checkpointed(start, all, t.sender, a, n)
    requires SettledUpTo(t, all, n)
    requires lo <= n && Max(a, lo) <= q <= |all|
    ensures (s, out) == Send(env, t.sender, all[lo..q])
    ensures Max(a, lo) <= r <= q && a <= a' && s.acked == t.sender.acked + all[Max(a, lo)..r]
    ensures Checkpointed(start, all, s, a', Max(n, r))
    ensures SettledUpTo(t.(sender := s), all, Max(n, r))
    ensures out == Sent ==> r == q && a' == Max(a, if Max(a, lo) < q then q else a)
  {
    var from := Max(a, lo);
    UnsentOfStretch(start, all, a, lo, q);
    s, out, a', r := ChunksOutcome(env, start, all, t.sender, from, q, a, n);
    MoreSettled(t, all, n, from, r, s);
  }

  lemma MoreSettled(t: Target, all: seq<Event>, n: nat, from: nat, r: nat, s: State)
    requires SettledUpTo(t, all, n) && from <= n <= |all| && from <= r <= |all|
    requires s.acked == t.sender.acked + all[from..r]
    ensures SettledUpTo(t.(sender := s), all, Max(n, r))
  {
    forall i | 0 <= i < Max(n, r) ensures SettledAt(t.(sender := s), all, i) {
      assert SettledAt(t, all, i) || all[i] == all[from..r][i - from];
    }
  }

  lemma CheckpointedWidens(start: nat, all: seq<Event>, s: State, a: nat, n: nat, m: nat)
    requires Checkpointed(start, all, s, a, n) && n <= m <= |all|
    ensures Checkpointed(start, all, s, a, m)
  {
    forall c | c in s.onDisk ensures MarkBetween(start, all, c, a, m) {
      assert MarkBetween(start, all, c, a, n);
    }
  }

  /** The batch is the stretch of the log from b on, the queue the rest. */
  lemma Parts(all: seq<Event>, t: Target, b: nat)
    requires b <= |all| && t.batch + t.queue == all[b..]
    ensures var q := |all| - |t.queue|;
      b <= q && t.batch == all[b..q] && t.queue == all[q..]
  {
    var q := |all| - |t.queue|;
    assert t.batch == (t.batch + t.queue)[..|t.batch|] == all[b..][..q - b];
    assert t.queue == (t.batch + t.queue)[|t.batch|..] == all[b..][q - b..];
  }

  lemma AfterSendAt(start: nat, all: seq<Event>, t: Target, s: State, out: Outcome, stopped: bool, a: nat, b: nat, n: nat)
      returns (b': nat, n': nat)
    requires b <= n && n + |t.queue| <= |all| && t.batch + t.queue == all[b..]
    requires Checkpointed(start, all, s, a, n) && SettledUpTo(t.(sender := s), all, n)
    requires out == Sent ==> n == |all| - |t.queue|
    ensures TargetAt(start, all, AfterSend(t, s, out, stopped), a, b', n')
  {
    var q, u := |all| - |t.queue|, AfterSend(t, s, out, stopped);
    Parts(all, t, b);
    b', n' := b, n;
    if out == Sent || (out.Permanent? && !stopped) {
      EmptyBatch(t.queue);
      b', n' := q, q;
    }
    if out.Permanent? && !stopped {
      CheckpointedWidens(start, all, s, a, n, q);
      DroppedSettles(all, t.(sender := s), b, n, q);
    } else {
      SameSettled(all, t.(sender := s), u, n');
    }
  }

  lemma FlushIs(env: Env, t: Target, s: State, out: Outcome)
    requires env.batchSize > 0 && t.batch != [] && (s, out) == Send(env, t.sender, t.batch)
    ensures FlushTarget(env, t) == AfterSend(t, s, out, env.stopped(s.requests))
  {
  }

  lemma FlushAt(env: Env, start: nat, all: seq<Event>, t: Target, a: nat, b: nat, n: nat)
      returns (s: State, out: Outcome, a': nat, b': nat, n': nat)
    requires env.batchSize > 0 && Ordered(start, all) && TargetAt(start, all, t, a, b, n) && t.batch != []
    requires FileOk(env.batchSize, start, all, t)
    ensures (s, out) == Send(env, t.sender, t.batch)
    ensures var u := AfterSend(t, s, out, env.stopped(s.requests));
      TargetAt(start, all, u, a', b', n') && Handles(t, u, all) && FileOk(env.batchSize, start, all, u)
  {
    var m, f, r;
    s, out, a', m, f, r := SendBatch(env, start, all, t, a, b, n);
    var stopped := env.stopped(s.requests);
    b', n' := AfterSendAt(start, all, t, s, out, stopped, a', b, m);
    BatchFiled(env, start, all, t, a, b, n, s, out, stopped);
    AfterSendHandles(all, t, s, out, stopped, b, f, r);
  }

  lemma SendBatch(env: Env, start: nat, all: seq<Event>, t: Target, a: nat, b: nat, n: nat)
      returns (s: State, out: Outcome, a': nat, m: nat, f: nat, r: nat)
    requires env.batchSize > 0 && Ordered(start, all) && TargetAt(start, all, t, a, b, n)
    ensures (s, out) == Send(env, t.sender, t.batch)
    ensures n <= m <= |all| - |t.queue| && Checkpointed(start, all, s, a', m) && SettledUpTo(t.(sender := s), all, m)
    ensures out == Sent ==> m == |all| - |t.queue|
    ensures f <= r <= |all| && s.acked == t.sender.acked + all[f..r] && t.sender.lastSent <= s.lastSent
  {
    var q := |all| - |t.queue|;
    Parts(all, t, b);
    s, out, a', r := SendAll(env, start, all, t, t.batch, a, b, n, q);
    m, f := Max(n, r), Max(a, b);
  }

  lemma SendAll(env: Env, start: nat, all: seq<Event>, t: Target, batch: seq<Event>, a: nat, b: nat, n: nat, q: nat)
      returns (s: State, out: Outcome, a': nat, r: nat)
    requires env.batchSize > 0 && Ordered(start, all) && Checkpointed(start, all, t.sender, a, n) && SettledUpTo(t, all, n)
    requires b <= n <= q <= |all| && batch == all[b..q]
    ensures (s, out) == Send(env, t.sender, batch)
    ensures Max(a, b) <= r <= q && s.acked == t.sender.acked + all[Max(a, b)..r]
    ensures Checkpointed(start, all, s, a', Max(n, r)) && SettledUpTo(t.(sender := s), all, Max(n, r))
    ensures (out == Sent ==> r == q) && t.sender.lastSent <= s.lastSent
  {
    s, out, a', r := SendStretch(env, start, all, t, a, n, b, q);
    MarkOrder(start, all, a, a');
  }

  lemma BatchFiled(env: Env, start: nat, all: seq<Event>, t: Target, a: nat, b: nat, n: nat, s: State, out: Outcome, stopped: bool)
    requires env.batchSize > 0 && Ordered(start, all) && TargetAt(start, all, t, a, b, n)
    requires FileOk(env.batchSize, start, all, t) && (s, out) == Send(env, t.sender, t.batch)
    ensures FileOk(env.batchSize, start, all, AfterSend(t, s, out, stopped)) && Advances(t.sender, s)
  {
    var h: nat, f: nat :| FileAt(env.batchSize, start, all, t, h, f);
    Parts(all, t, b);
    NextPlace(env.batchSize, start, all, t, a, b, h, f);
    var u, end, f', h' := BatchSent(env, start, all, t.sender, t.batch, a, b, |all| - |t.queue|, f);
    FiledAfter(env.batchSize, start, all, t, a, b, u, end, stopped, f', h');
  }

  lemma NextPlace(size: nat, start: nat, all: seq<Event>, t: Target, a: nat, b: nat, h: nat, f: nat)
    requires Ordered(start, all) && FileAt(size, start, all, t, h, f) && a <= |all| && t.sender.lastSent == Mark(start, all, a)
    requires b == |all| - |t.queue| - |t.batch|
    ensures f <= Max(a, b) + size
  {
    if h > b {
      SameMark(start, all, a, h);
    }
  }

  lemma BatchSent(env: Env, start: nat, all: seq<Event>, s: State, batch: seq<Event>, a: nat, b: nat, q: nat, f: nat)
      returns (u: State, out: Outcome, f': nat, h: nat)
    requires env.batchSize > 0 && Ordered(start, all) && a <= q && b <= q <= |all| && batch == all[b..q]
    requires s.lastSent == Mark(start, all, a) && Filed(start, all, s, f) && f <= q && f <= Max(a, b) + env.batchSize
    ensures (u, out) == Send(env, s, batch)
    ensures Filed(start, all, u, f') && Advances(s, u) && f' <= q && f' <= h + env.batchSize && h <= q
    ensures (h == Max(a, b) && u.lastSent == s.lastSent) || u.lastSent == Mark(start, all, h)
  {
    UnsentOfStretch(start, all, a, b, q);
    MarkOrder(start, all, a, Max(a, b));
    u, out, f', h := ChunksFiled(env, start, all, s, Max(a, b), q, f);
  }

  lemma SameMark(start: nat, all: seq<Event>, a: nat, h: nat)
    requires Ordered(start, all) && a <= |all| && h <= |all| && Mark(start, all, a) == Mark(start, all, h)
    ensures a == h
  {
    if a < h { MarkGrows(start, all, a, h); }
    if h < a { MarkGrows(start, all, h, a); }
  }

  lemma FiledAfter(size: nat, start: nat, all: seq<Event>, t: Target, a: nat, b: nat, s: State, out: Outcome, stopped: bool,
                   f: nat, h: nat)
    requires a <= |all| - |t.queue| && b == |all| - |t.queue| - |t.batch| && t.sender.lastSent == Mark(start, all, a)
    requires Filed(start, all, s, f) && f <= |all| - |t.queue| && f <= h + size && h <= |all| - |t.queue|
    requires (h == Max(a, b) && s.lastSent == t.sender.lastSent) || s.lastSent == Mark(start, all, h)
    ensures FileOk(size, start, all, AfterSend(t, s, out, stopped))
  {
    var u := AfterSend(t, s, out, stopped);
    assert FileAt(size, start, all, u, h, f);
  }

  lemma AfterSendHandles(all: seq<Event>, t: Target, s: State, out: Outcome, stopped: bool, b: nat, f: nat, r: nat)
    requires b <= |all| && t.batch + t.queue == all[b..] && f <= r <= |all|
    requires s.acked == t.sender.acked + all[f..r] && t.sender.lastSent <= s.lastSent && Advances(t.sender, s)
    ensures Handles(t, AfterSend(t, s, out, stopped), all)
  {
    var u := AfterSend(t, s, out, stopped);
    Parts(all, t, b);
    forall e | Settled(u, e) ensures Settled(t, e) || e in all {
      assert e in all[f..r] ==> e in all;
      assert e in t.batch ==> e in all;
    }
  }

  lemma EmptyBatch(queue: seq<Event>)
    ensures [] + queue == queue
  {
  }

  lemma FlushKeeps(env: Env, start: nat, all: seq<Event>, t: Target)
    requires env.batchSize > 0 && Ordered(start, all) && TargetOk(start, all, t) && FileOk(env.batchSize, start, all, t)
    ensures var u := FlushTarget(env, t);
      TargetOk(start, all, u) && Handles(t, u, all) && FileOk(env.batchSize, start, all, u)
  {
    if t.batch != [] {
      var a: nat, b: nat, n: nat :| TargetAt(start, all, t, a, b, n);
      var s, out, a', b', n' := FlushAt(env, start, all, t, a, b, n);
      FlushIs(env, t, s, out);
    }
  }

  lemma DroppedSettles(all: seq<Event>, t: Target, b: nat, n: nat, q: nat)
    requires SettledUpTo(t, all, n) && b <= n <= q <= |all|
    ensures SettledUpTo(t.(batch := [], dropped := t.dropped + all[b..q]), all, q)
  {
    var u := t.(batch := [], dropped := t.dropped + all[b..q]);
    forall i | 0 <= i < q ensures SettledAt(u, all, i) {
      assert i < n ==> SettledAt(t, all, i);
      assert b <= i ==> all[b..q][i - b] == all[i];
    }
  }

  lemma DequeueKeeps(env: Env, start: nat, all: seq<Event>, t: Target)
    requires env.batchSize > 0 && Ordered(start, all) && TargetOk(start, all, t) && FileOk(env.batchSize, start, all, t)
    ensures var u := DequeueTarget(env, t);
      TargetOk(start, all, u) && Handles(t, u, all) && FileOk(env.batchSize, start, all, u)
  {
    if t.queue != [] {
      var a: nat, b: nat, n: nat :| TargetAt(start, all, t, a, b, n);
      var u := t.(batch := t.batch + [t.queue[0]], queue := t.queue[1..]);
      MovedAt(start, all, t, u, a, b, n);
      MovedFile(env.batchSize, start, all, t, u);
      FlushKeeps(env, start, all, u);
      MovedHandles(t, u, FlushTarget(env, u), all);
    }
  }

  lemma MovedFile(size: nat, start: nat, all: seq<Event>, t: Target, u: Target)
    requires FileOk(size, start, all, t) && u.sender == t.sender && |u.batch| + |u.queue| == |t.batch| + |t.queue|
    requires |u.queue| <= |t.queue|
    ensures FileOk(size, start, all, u)
  {
    var h: nat, f: nat :| FileAt(size, start, all, t, h, f);
    assert FileAt(size, start, all, u, h, f);
  }

  lemma MovedHandles(t: Target, u: Target, v: Target, all: seq<Event>)
    requires u.sender == t.sender && u.dropped == t.dropped && Handles(u, v, all)
    ensures Handles(t, v, all) && Handles(t, u, all)
  {
    assert forall e :: Settled(t, e) <==> Settled(u, e);
  }

  /** The first event of the queue moves to the batch. */
  lemma MovedAt(start: nat, all: seq<Event>, t: Target, u: Target, a: nat, b: nat, n: nat)
    requires TargetAt(start, all, t, a, b, n) && t.queue != []
    requires u == t.(batch := t.batch + [t.queue[0]], queue := t.queue[1..])
    ensures TargetAt(start, all, u, a, b, n)
  {
    assert u.batch + u.queue == t.batch + t.queue;
    SameSettled(all, t, u, n);
  }

  lemma SameSettled(all: seq<Event>, t: Target, u: Target, n: nat)
    requires SettledUpTo(t, all, n) && u.sender.acked == t.sender.acked && u.dropped == t.dropped
    ensures SettledUpTo(u, all, n)
  {
    forall i | 0 <= i < n ensures SettledAt(u, all, i) {
      assert SettledAt(t, all, i);
    }
  }

  // ------------------------------------------------------------------ what a target has settled

  lemma SettledBelow(start: nat, all: seq<Event>, t: Target, c: nat, e: Event)
    requires Ordered(start, all) && TargetOk(start, all, t) && c in t.sender.onDisk && e in all && e.sequence <= c
    ensures Settled(t, e)
  {
    var a: nat, b: nat, n: nat :| TargetAt(start, all, t, a, b, n);
    assert MarkBetween(start, all, c, a, n);
    var i :| a <= i <= n && c == Mark(start, all, i);
    var k :| 0 <= k < |all| && all[k] == e;
    if i < k + 1 { MarkGrows(start, all, i, k + 1); }
    assert SettledAt(t, all, k);
  }

  lemma SettledOrWaiting(start: nat, all: seq<Event>, t: Target, e: Event)
    requires TargetOk(start, all, t) && e in all
    ensures Settled(t, e) || e in t.batch || e in t.queue
  {
    var a: nat, b: nat, n: nat :| TargetAt(start, all, t, a, b, n);
    var k :| 0 <= k < |all| && all[k] == e;
    if n <= k {
      assert (t.batch + t.queue)[k - b] == e;
    } else {
      assert SettledAt(t, all, k);
    }
  }

  /** What waits in a target was given to it. */
  lemma WaitingIsGiven(start: nat, all: seq<Event>, t: Target, e: Event)
    requires TargetOk(start, all, t) && (e in t.batch || e in t.queue)
    ensures e in all
  {
    var a: nat, b: nat, n: nat :| TargetAt(start, all, t, a, b, n);
    assert e in t.batch + t.queue;
    assert e in all[b..];
  }

  /** A checkpoint is the one the target started from, or that of an event given to it. */
  lemma CheckpointIsMark(start: nat, all: seq<Event>, t: Target, c: nat)
    requires Ordered(start, all) && TargetOk(start, all, t) && c in t.sender.onDisk
    ensures t.sender.lastSent <= c <= Mark(start, all, |all|)
    ensures c == start || exists e :: e in all && e.sequence == c
  {
    var a: nat, b: nat, n: nat :| TargetAt(start, all, t, a, b, n);
    assert MarkBetween(start, all, c, a, n);
    var i :| a <= i <= n && c == Mark(start, all, i);
    MarkBounds(start, all, a, i);
    if i > 0 {
      assert all[i - 1] in all;
    }
  }

  lemma MarkBounds(start: nat, all: seq<Event>, a: nat, i: nat)
    requires Ordered(start, all) && a <= i <= |all|
    ensures Mark(start, all, a) <= Mark(start, all, i) <= Mark(start, all, |all|)
  {
    if a < i { MarkGrows(start, all, a, i); }
    if i < |all| { MarkGrows(start, all, i, |all|); }
  }

  /** One more event is given to the target. */
  lemma ExtendTarget(start: nat, all: seq<Event>, t: Target, e: Event)
    requires TargetOk(start, all, t)
    ensures TargetOk(start, all + [e], t.(queue := t.queue + [e]))
  {
    var a: nat, b: nat, n: nat :| TargetAt(start, all, t, a, b, n);
    var more, u := all + [e], t.(queue := t.queue + [e]);
    assert u.batch + u.queue == (t.batch + t.queue) + [e] == more[b..];
    forall i | 0 <= i < n ensures SettledAt(u, more, i) {
      assert SettledAt(t, all, i);
    }
    forall c | c in t.sender.onDisk ensures MarkBetween(start, more, c, a, n) {
      assert MarkBetween(start, all, c, a, n);
      var i :| a <= i <= n && c == Mark(start, all, i);
      assert c == Mark(start, more, i);
    }
    assert TargetAt(start, more, u, a, b, n);
  }

  lemma ExtendFile(size: nat, start: nat, all: seq<Event>, t: Target, e: Event)
    requires FileOk(size, start, all, t)
    ensures FileOk(size, start, all + [e], t.(queue := t.queue + [e]))
  {
    var h: nat, f: nat :| FileAt(size, start, all, t, h, f);
    var more, u := all + [e], t.(queue := t.queue + [e]);
    assert Mark(start, more, f) == Mark(start, all, f);
    assert h <= |all| ==> Mark(start, more, h) == Mark(start, all, h);
    assert FileAt(size, start, more, u, h, f);
  }

  /** The file is not behind any checkpoint of this process, nor behind the one it started from. */
  lemma FileIsLast(size: nat, start: nat, all: seq<Event>, t: Target)
    requires Ordered(start, all) && FileOk(size, start, all, t)
    ensures start <= t.sender.file && t.sender.file in t.sender.onDisk
    ensures forall c :: c in t.sender.onDisk ==> c <= t.sender.file
  {
    var h: nat, f: nat :| FileAt(size, start, all, t, h, f);
    MarkOrder(start, all, 0, f);
  }

  // ------------------------------------------------------------------ a restart

  /** The part of an ordered log above any checkpoint is ordered behind it. */
  lemma {:induction false} AboveIsOrdered(c: nat, log: seq<Event>)
    requires Ordered(0, log)
    ensures var given := Filter(Above(c), log);
      Ordered(c, given) && Mark(c, given, |given|) == Max(c, Mark(0, log, |log|))
  {
    if log != [] {
      var front, x := log[..|log| - 1], log[|log| - 1];
      AboveIsOrdered(c, front);
      var given := Filter(Above(c), front);
      if x.sequence > c {
        assert Filter(Above(c), log) == given + [x];
        assert (given + [x])[..|given|] == given;
      } else {
        assert Filter(Above(c), log) == given + [] == given;
      }
    }
  }

  /** The worker's start, once the log above the checkpoint has been picked out. */
  lemma StartupOf(env: Env, sender: State, log: seq<Event>, slot: Option<int>, pending: seq<Event>) returns (m: nat)
    requires env.batchSize > 0 && pending == Filter(Above(sender.lastSent), log)
    ensures m <= |pending|
    ensures var first := Send(env, sender, pending[0..m]);
      var second := Send(env, first.0, pending[m..|pending|]);
      Startup(env, sender, log, slot) ==
        if first.1 != Sent then (first.0, pending) else (second.0, if second.1 != Sent then pending[m..] else [])
  {
    m := BeforeSlot(slot, pending);
    assert pending[..m] == pending[0..m] && pending[m..] == pending[m..|pending|];
  }

  lemma StartupAt(env: Env, log: seq<Event>, t: Target, slot: Option<int>, given: seq<Event>)
      returns (s: State, batch: seq<Event>, a: nat, b: nat, n: nat, r: nat)
    requires env.batchSize > 0 && t.sender.onDisk == {t.sender.lastSent} && t.sender.file == t.sender.lastSent
    requires given == Filter(Above(t.sender.lastSent), log) && Ordered(t.sender.lastSent, given)
    ensures (s, batch) == Startup(env, t.sender, log, slot)
    ensures TargetAt(t.sender.lastSent, given, Target(s, batch, [], t.dropped), a, b, n)
    ensures b <= r <= |given| && s.acked == t.sender.acked + given[..r] && batch == given[b..]
    ensures FileOk(env.batchSize, t.sender.lastSent, given, Target(s, batch, [], t.dropped)) && Advances(t.sender, s)
  {
    var start := t.sender.lastSent;
    var m := StartupOf(env, t.sender, log, slot, given);
    FreshTarget(t, given);
    var first, out, a1, r1 := SendStretch(env, start, given, t, 0, 0, 0, m);
    var f1, h1 := StretchFiled(env, start, given, t.sender, 0, 0, m, 0, first, out);
    assert given[0..r1] == given[..r1];
    if out != Sent {
      s, batch, a, b, n, r := first, given, a1, 0, r1, r1;
      assert given[0..] == given;
      StartedFile(env.batchSize, start, given, t, s, b, f1, h1);
    } else {
      var out2;
      s, out2, a, r := SendStretch(env, start, given, t.(sender := first), m, m, m, |given|);
      var f2, h2 := StretchFiled(env, start, given, first, m, m, |given|, f1, s, out2);
      b, n := if out2 != Sent then m else |given|, r;
      batch := given[b..];
      Stretch(t.sender.acked, given, 0, m, r);
      assert given[0..r] == given[..r];
      StartedFile(env.batchSize, start, given, t, s, b, f2, h2);
    }
    StartedAt(start, given, t, s, a, b, n);
  }

  /** Where the file stands after a stretch from the checkpoint on. */
  lemma StretchFiled(env: Env, start: nat, all: seq<Event>, s: State, a: nat, lo: nat, q: nat, f: nat, u: State, out: Outcome)
      returns (f': nat, h: nat)
    requires env.batchSize > 0 && Ordered(start, all) && a == lo <= q <= |all| && s.lastSent == Mark(start, all, a)
    requires Filed(start, all, s, f) && f <= a && (u, out) == Send(env, s, all[lo..q])
    ensures Filed(start, all, u, f') && Advances(s, u) && f' <= q && f' <= h + env.batchSize && h <= q
    ensures h == a || u.lastSent == Mark(start, all, h)
  {
    UnsentOfStretch(start, all, a, lo, q);
    var v, end;
    v, end, f', h := ChunksFiled(env, start, all, s, a, q, f);
  }

  lemma StartedFile(size: nat, start: nat, given: seq<Event>, t: Target, s: State, b: nat, f: nat, h: nat)
    requires b <= |given| && Filed(start, given, s, f) && f <= h + size && h <= |given|
    requires h <= b || s.lastSent == Mark(start, given, h)
    ensures FileOk(size, start, given, Target(s, given[b..], [], t.dropped))
  {
    assert FileAt(size, start, given, Target(s, given[b..], [], t.dropped), h, f);
  }

  lemma FreshTarget(t: Target, given: seq<Event>)
    requires t.sender.onDisk == {t.sender.lastSent} && t.sender.file == t.sender.lastSent
    ensures Checkpointed(t.sender.lastSent, given, t.sender, 0, 0) && SettledUpTo(t, given, 0)
    ensures Filed(t.sender.lastSent, given, t.sender, 0)
  {
    assert t.sender.lastSent == Mark(t.sender.lastSent, given, 0);
    assert MarkBetween(t.sender.lastSent, given, t.sender.lastSent, 0, 0);
  }

  lemma StartedAt(start: nat, given: seq<Event>, t: Target, s: State, a: nat, b: nat, n: nat)
    requires Checkpointed(start, given, s, a, n) && b <= n && SettledUpTo(t.(sender := s), given, n)
    ensures TargetAt(start, given, Target(s, given[b..], [], t.dropped), a, b, n)
  {
    SameSettled(given, t.(sender := s), Target(s, given[b..], [], t.dropped), n);
    assert given[b..] + [] == given[b..];
  }

  /** A restart from checkpoint c: the log above c, and nothing else, is acknowledged anew or waits in
      the batch. */
  lemma RestartIs(env: Env, log: seq<Event>, t: Target, slot: Option<int>, c: nat, killed: bool) returns (b: nat, r: nat)
    requires env.batchSize > 0 && Ordered(0, log)
    ensures var u, given := RestartTarget(env, t, log, slot, c, killed), Filter(Above(c), log);
      && TargetOk(c, given, u) && FileOk(env.batchSize, c, given, u) && u.queue == [] && u.dropped == t.dropped
      && b <= r <= |given| && u.sender.acked == t.sender.acked + given[..r] && u.batch == given[b..]
      && Advances(Reopened(t.sender, c, killed), u.sender)
  {
    var given := Filter(Above(c), log);
    AboveIsOrdered(c, log);
    var found := t.(sender := Reopened(t.sender, c, killed));
    var s, batch, a, b', n, r' := StartupAt(env, log, found, slot, given);
    b, r := b', r';
    assert RestartTarget(env, t, log, slot, c, killed) == Target(s, batch, [], t.dropped);
  }
}
