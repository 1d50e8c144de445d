/** events.jsonl at byte level: reading records, repairing a torn tail, surviving a crash
    (internal/wal/wal.go, readRecords, ReadAll and Repair). */
module LogBytes {
  import opened Types

  type Byte = bv8

  const NEWLINE: Byte := 10

  /** The record encoding. It stands for encoding/json on model.Event. */
  datatype Codec = Codec(encode: Event -> seq<Byte>, decode: seq<Byte> -> Option<Event>)

  predicate IsSpace(b: Byte) {
    b == 9 || b == 10 || b == 11 || b == 12 || b == 13 || b == 32
  }

  /** What the log relies on: an encoding is one line with no space at its ends, and decoding undoes it. */
  ghost predicate Faithful(c: Codec) {
    forall e :: var text := c.encode(e);
      && text != [] && !IsSpace(text[0]) && !IsSpace(text[|text| - 1])
      && NEWLINE !in text
      && c.decode(text) == Some(e)
  }

  function TrimLeft(b: seq<Byte>): seq<Byte> {
    if b != [] && IsSpace(b[0]) then TrimLeft(b[1..]) else b
  }

  function TrimRight(b: seq<Byte>): seq<Byte> {
    if b != [] && IsSpace(b[|b| - 1]) then TrimRight(b[..|b| - 1]) else b
  }

  /** Length of the first line with its newline, or of everything when no newline follows. */
  function LineLength(b: seq<Byte>): (n: nat)
    ensures n <= |b| && (b != [] ==> n > 0)
    ensures forall i :: 0 <= i < n - 1 ==> b[i] != NEWLINE
    ensures n < |b| ==> n > 0 && b[n - 1] == NEWLINE
  {
    if b == [] then 0 else if b[0] == NEWLINE then 1 else 1 + LineLength(b[1..])
  }

  /** What reading a log yields; complete is the offset behind the last whole line. */
  datatype Scan = Scan(events: seq<Event>, skipped: nat, truncated: nat, complete: nat)

  function Join(a: Scan, b: Scan): Scan {
    Scan(a.events + b.events, a.skipped + b.skipped, a.truncated + b.truncated, a.complete + b.complete)
  }

  /** One whole line: blank lines are ignored, undecodable ones counted. */
  function ReadLine(c: Codec, line: seq<Byte>): Scan {
    var payload := TrimRight(TrimLeft(line));
    if payload == [] then Scan([], 0, 0, |line|)
    else match c.decode(payload)
      case None => Scan([], 1, 0, |line|)
      case Some(event) => Scan([event], 0, 0, |line|)
  }

  function Read(c: Codec, b: seq<Byte>): Scan
    decreases |b|
  {
    if b == [] then Scan([], 0, 0, 0)
    else
      var n := LineLength(b);
      if b[n - 1] != NEWLINE then Scan([], 0, n, 0)
      else Join(ReadLine(c, b[..n]), Read(c, b[n..]))
  }

  function Events(c: Codec, b: seq<Byte>): seq<Event> { Read(c, b).events }

  /** The reading loop computes Read. */
  method ReadRecords(c: Codec, b: seq<Byte>) returns (events: seq<Event>, skipped: nat, truncated: nat, complete: nat)
    ensures Scan(events, skipped, truncated, complete) == Read(c, b)
  {
    events, skipped, truncated, complete := [], 0, 0, 0;
    var rest := b;
    JoinLaws(Read(c, b), Read(c, b), Read(c, b));
    while rest != []
      invariant Read(c, b) == Join(Scan(events, skipped, truncated, complete), Read(c, rest))
      decreases |rest|
    {
      var n := LineLength(rest);
      var line := rest[..n];
      ghost var before, tail := Scan(events, skipped, truncated, complete), rest[n..];
      ReadFirst(c, rest);
      if line[n - 1] != NEWLINE {
        truncated := truncated + n;
      } else {
        var payload := TrimRight(TrimLeft(line));
        if payload != [] {
          match c.decode(payload) {
            case None => skipped := skipped + 1;
            case Some(event) => events := events + [event];
          }
        }
        complete := complete + n;
        JoinLaws(before, ReadLine(c, line), Read(c, tail));
      }
      rest := rest[n..];
    }
  }

  /** Unfolds one line of reading. */
  lemma ReadFirst(c: Codec, b: seq<Byte>)
    requires b != []
    ensures var n := LineLength(b);
      Read(c, b) == if b[n - 1] != NEWLINE then Scan([], 0, n, 0) else Join(ReadLine(c, b[..n]), Read(c, b[n..]))
  {
  }

  lemma JoinLaws(x: Scan, y: Scan, z: Scan)
    ensures Join(x, Join(y, z)) == Join(Join(x, y), z)
    ensures Join(Scan([], 0, 0, 0), x) == x == Join(x, Scan([], 0, 0, 0))
  {
    assert x.events + (y.events + z.events) == (x.events + y.events) + z.events;
    assert [] + x.events == x.events == x.events + [];
  }

  /** A log that ends at a record boundary. */
  predicate Whole(b: seq<Byte>) { b == [] || b[|b| - 1] == NEWLINE }

  /** Cuts an interrupted trailing record. */
  method Repair(c: Codec, b: seq<Byte>) returns (fixed: seq<Byte>, truncated: nat)
    ensures fixed == Repaired(c, b)
    ensures Whole(fixed) && fixed <= b && truncated == |b| - |fixed|
    ensures forall k :: |fixed| < k <= |b| ==> !Whole(b[..k])
  {
    var _, _, t, complete := ReadRecords(c, b);
    CompleteIsLastBoundary(c, b);
    truncated := t;
    fixed := if t > 0 then b[..complete] else b;
  }

  function Repaired(c: Codec, b: seq<Byte>): seq<Byte> {
    var r := Read(c, b);
    if r.truncated > 0 && r.complete <= |b| then b[..r.complete] else b
  }

  lemma {:induction false} LineOfConcat(a: seq<Byte>, b: seq<Byte>)
    requires NEWLINE in a
    ensures LineLength(a + b) == LineLength(a) && LineLength(a) <= |a| && a[LineLength(a) - 1] == NEWLINE
  {
    if a[0] != NEWLINE {
      assert (a + b)[1..] == a[1..] + b;
      LineOfConcat(a[1..], b);
    }
  }

  /** Reading is additive at record boundaries. */
  lemma {:induction false} ReadConcat(c: Codec, a: seq<Byte>, b: seq<Byte>)
    requires Whole(a)
    ensures Read(c, a + b) == Join(Read(c, a), Read(c, b))
    decreases |a|
  {
    if a == [] {
      assert a + b == b;
      JoinLaws(Read(c, b), Read(c, b), Read(c, b));
    } else {
      var n := LineLength(a);
      ReadFirstOfConcat(c, a, b);
      ReadConcat(c, a[n..], b);
      JoinLaws(ReadLine(c, a[..n]), Read(c, a[n..]), Read(c, b));
    }
  }

  lemma ReadFirstOfConcat(c: Codec, a: seq<Byte>, b: seq<Byte>)
    requires Whole(a) && a != []
    ensures var n := LineLength(a);
      && Whole(a[n..])
      && Read(c, a) == Join(ReadLine(c, a[..n]), Read(c, a[n..]))
      && Read(c, a + b) == Join(ReadLine(c, a[..n]), Read(c, a[n..] + b))
  {
    LineOfConcat(a, b);
    CutConcat(a, b, LineLength(a));
    ReadFirst(c, a + b);
    ReadFirst(c, a);
  }

  lemma CutConcat(a: seq<Byte>, b: seq<Byte>, n: nat)
    requires n <= |a|
    ensures (a + b)[..n] == a[..n] && (a + b)[n..] == a[n..] + b
    ensures n > 0 ==> (a + b)[n - 1] == a[n - 1]
    ensures Whole(a) ==> Whole(a[n..])
  {
  }

  /** complete is the last record boundary, truncated what lies behind it. */
  lemma {:induction false} CompleteIsLastBoundary(c: Codec, b: seq<Byte>)
    ensures var r := Read(c, b); r.complete + r.truncated == |b| && Whole(b[..r.complete])
    ensures forall k :: Read(c, b).complete < k <= |b| ==> !Whole(b[..k])
    decreases |b|
  {
    if b != [] {
      var n := LineLength(b);
      ReadFirst(c, b);
      if b[n - 1] == NEWLINE {
        CompleteIsLastBoundary(c, b[n..]);
        WholeBehind(b, n);
      }
    }
  }

  lemma WholeBehind(b: seq<Byte>, n: nat)
    requires 0 < n <= |b| && b[n - 1] == NEWLINE
    ensures forall k :: n <= k <= |b| ==> Whole(b[..k]) == Whole(b[n..][..k - n])
  {
    forall k | n <= k <= |b| ensures Whole(b[..k]) == Whole(b[n..][..k - n]) {
      if k > n {
        assert b[..k][k - 1] == b[n..][..k - n][k - n - 1];
      }
    }
  }

  /** The line a record occupies. */
  function Line(c: Codec, e: Event): seq<Byte> { c.encode(e) + [NEWLINE] }

  function Lines(c: Codec, es: seq<Event>): seq<Byte> {
    if es == [] then [] else Line(c, es[0]) + Lines(c, es[1..])
  }

  lemma {:induction false} LinesConcat(c: Codec, a: seq<Event>, b: seq<Event>)
    ensures Lines(c, a + b) == Lines(c, a) + Lines(c, b)
  {
    if a == [] {
      assert a + b == b;
    } else {
      assert (a + b)[1..] == a[1..] + b;
      LinesConcat(c, a[1..], b);
    }
  }

  lemma TrimOfLine(c: Codec, e: Event)
    requires Faithful(c)
    ensures TrimRight(TrimLeft(Line(c, e))) == c.encode(e)
  {
    var text := c.encode(e);
    assert Line(c, e)[0] == text[0];
    assert Line(c, e)[..|text|] == text;
  }

  lemma LineOfRecord(c: Codec, e: Event)
    requires Faithful(c)
    ensures LineLength(Line(c, e)) == |Line(c, e)|
  {
    var text := c.encode(e);
    forall i | 0 <= i < |text| ensures Line(c, e)[i] != NEWLINE {
      assert Line(c, e)[i] == text[i];
    }
    LineEndsAt(Line(c, e), |Line(c, e)|);
  }

  lemma ReadOneRecord(c: Codec, e: Event)
    requires Faithful(c)
    ensures Read(c, Line(c, e)) == Scan([e], 0, 0, |Line(c, e)|)
  {
    var line := Line(c, e);
    LineOfRecord(c, e);
    ReadFirst(c, line);
    assert line[..|line|] == line && line[|line|..] == [];
    TrimOfLine(c, e);
    JoinLaws(ReadLine(c, line), Read(c, []), Read(c, []));
  }

  /** Appending an encoded record appends exactly its event to what is read. */
  lemma ReadAppended(c: Codec, b: seq<Byte>, e: Event)
    requires Faithful(c) && Whole(b)
    ensures Whole(b + Line(c, e))
    ensures Events(c, b + Line(c, e)) == Events(c, b) + [e]
    ensures Read(c, b + Line(c, e)).skipped == Read(c, b).skipped
  {
    ReadConcat(c, b, Line(c, e));
    ReadOneRecord(c, e);
  }

  lemma {:induction false} LineEndsAt(b: seq<Byte>, n: nat)
    requires 0 < n <= |b| && b[n - 1] == NEWLINE && forall i :: 0 <= i < n - 1 ==> b[i] != NEWLINE
    ensures LineLength(b) == n
  {
    if n > 1 {
      LineEndsAt(b[1..], n - 1);
    }
  }

  lemma {:induction false} ReadAllAppended(c: Codec, b: seq<Byte>, es: seq<Event>)
    requires Faithful(c) && Whole(b)
    ensures Whole(b + Lines(c, es)) && Events(c, b + Lines(c, es)) == Events(c, b) + es
    decreases es
  {
    if es == [] {
      assert b + Lines(c, es) == b;
    } else {
      var next := b + Line(c, es[0]);
      ReadAppended(c, b, es[0]);
      ReadAllAppended(c, next, es[1..]);
      LinesFirst(c, b, es);
      FirstBack(Events(c, b), es);
    }
  }

  lemma FirstBack<T>(a: seq<T>, s: seq<T>)
    requires s != []
    ensures a + [s[0]] + s[1..] == a + s
  {
  }

  lemma LinesFirst(c: Codec, b: seq<Byte>, es: seq<Event>)
    requires es != []
    ensures b + Lines(c, es) == b + Line(c, es[0]) + Lines(c, es[1..])
  {
  }

  /** What is read of a whole prefix is a prefix of what is read. */
  lemma ReadPrefix(c: Codec, f: seq<Byte>, k: nat)
    requires k <= |f| && Whole(f[..k])
    ensures Events(c, f[..k]) <= Events(c, f)
  {
    ReadSplit(c, f, k);
  }

  /** A crash leaves the first cut bytes of the file, with everything up to the synced boundary
      among them. Opening repairs that prefix. What is then read are exactly the events whose
      whole line survived, every synced one among them; later appends come behind them. */
  lemma CrashRepairReopen(c: Codec, f: seq<Byte>, synced: nat, cut: nat, more: seq<Event>)
    requires Faithful(c)
    requires synced <= cut <= |f| && Whole(f[..synced])
    ensures var fixed := Repaired(c, f[..cut]);
      && Whole(fixed) && fixed <= f
      && (forall k :: 0 <= k <= cut && Whole(f[..k]) ==> k <= |fixed|)
      && Events(c, f[..synced]) <= Events(c, fixed) <= Events(c, f)
      && Events(c, fixed) == Events(c, f[..cut])
      && Events(c, fixed + Lines(c, more)) == Events(c, fixed) + more
  {
    var fixed := Repaired(c, f[..cut]);
    RepairedIsLastBoundary(c, f, cut);
    assert fixed[..synced] == f[..synced];
    ReadPrefix(c, fixed, synced);
    ReadPrefix(c, f, |fixed|);
    ReadAllAppended(c, fixed, more);
  }

  lemma RepairedIsLastBoundary(c: Codec, f: seq<Byte>, cut: nat)
    requires cut <= |f|
    ensures var fixed := Repaired(c, f[..cut]);
      && |fixed| <= cut && fixed == f[..|fixed|] && Whole(fixed)
      && (forall k :: 0 <= k <= cut && Whole(f[..k]) ==> k <= |fixed|)
      && Events(c, fixed) == Events(c, f[..cut])
  {
    var p := f[..cut];
    CompleteIsLastBoundary(c, p);
    var complete := Read(c, p).complete;
    assert Repaired(c, p) == p[..complete];
    TornTailReadsNothing(c, p, complete);
    SlicesOfSlice(f, cut);
    ReadSplit(c, p, complete);
  }

  lemma SlicesOfSlice(f: seq<Byte>, cut: nat)
    requires cut <= |f|
    ensures forall k :: 0 <= k <= cut ==> f[..cut][..k] == f[..k]
  {
  }

  lemma ReadSplit(c: Codec, b: seq<Byte>, k: nat)
    requires k <= |b| && Whole(b[..k])
    ensures Events(c, b) == Events(c, b[..k]) + Events(c, b[k..])
  {
    ReadConcat(c, b[..k], b[k..]);
    assert b[..k] + b[k..] == b;
  }

  lemma TornTailReadsNothing(c: Codec, p: seq<Byte>, complete: nat)
    requires complete <= |p| && Whole(p[..complete])
    requires forall k :: complete < k <= |p| ==> !Whole(p[..k])
    ensures Events(c, p[complete..]) == []
  {
    var tail := p[complete..];
    if tail != [] {
      var n := LineLength(tail);
      assert p[..complete + n][complete + n - 1] == tail[n - 1];
    }
  }

  /** A crash in the middle of appending e to a synced log loses nothing and may keep e, never a part of it. */
  lemma CrashDuringAppend(c: Codec, f: seq<Byte>, e: Event, cut: nat)
    requires Faithful(c) && Whole(f)
    requires |f| <= cut <= |f + Line(c, e)|
    ensures Events(c, Repaired(c, (f + Line(c, e))[..cut])) ==
            if cut == |f + Line(c, e)| then Events(c, f) + [e] else Events(c, f)
  {
    var g := f + Line(c, e);
    RepairedIsLastBoundary(c, g, cut);
    ReadAppended(c, f, e);
    assert g[..|f|] == f && g[..|g|] == g;
    if cut < |g| {
      NoBoundaryInside(c, f, e);
      assert |Repaired(c, g[..cut])| == |f|;
    } else {
      assert |Repaired(c, g[..cut])| == |g|;
    }
  }

  lemma NoBoundaryInside(c: Codec, f: seq<Byte>, e: Event)
    requires Faithful(c)
    ensures var g := f + Line(c, e); forall k :: |f| < k < |g| ==> !Whole(g[..k])
  {
    var g := f + Line(c, e);
    forall k | |f| < k < |g| ensures !Whole(g[..k]) {
      assert g[..k][k - 1] == c.encode(e)[k - 1 - |f|];
    }
  }
}
