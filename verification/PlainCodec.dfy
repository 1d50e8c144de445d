/** A record encoding that meets what the log asks of one: events as numbers, numbers in unary. */
module PlainCodec {
  import opened Types
  import opened LogBytes

  const ONE: Byte := 97
  const END: Byte := 98

  // ------------------------------------------------------------------ numbers as bytes

  function Ones(n: nat): seq<Byte> { if n == 0 then [] else [ONE] + Ones(n - 1) }

  function Text(ns: seq<nat>): seq<Byte> {
    if ns == [] then [] else Ones(ns[0]) + [END] + Text(ns[1..])
  }

  /** The numbers of a text, the first of which has n ones already. */
  function Numbers(b: seq<Byte>, n: nat): seq<nat> {
    if b == [] then []
    else if b[0] == ONE then Numbers(b[1..], n + 1)
    else [n] + Numbers(b[1..], 0)
  }

  lemma {:induction false} NumbersOfOnes(k: nat, rest: seq<Byte>, n: nat)
    ensures Numbers(Ones(k) + [END] + rest, n) == [n + k] + Numbers(rest, 0)
  {
    var b := Ones(k) + [END] + rest;
    if k == 0 {
      assert b[0] == END && b[1..] == rest;
    } else {
      assert b[0] == ONE && b[1..] == Ones(k - 1) + [END] + rest;
      NumbersOfOnes(k - 1, rest, n + 1);
    }
  }

  lemma {:induction false} NumbersOfText(ns: seq<nat>)
    ensures Numbers(Text(ns), 0) == ns
  {
    if ns != [] {
      NumbersOfOnes(ns[0], Text(ns[1..]), 0);
      NumbersOfText(ns[1..]);
      assert ns == [ns[0]] + ns[1..];
    }
  }

  lemma {:induction false} OnlyOnes(n: nat)
    ensures forall b :: b in Ones(n) ==> b == ONE
  {
    if n > 0 {
      OnlyOnes(n - 1);
    }
  }

  lemma {:induction false} PlainText(ns: seq<nat>)
    ensures forall b :: b in Text(ns) ==> b == ONE || b == END
    ensures ns != [] ==> Text(ns) != []
  {
    if ns != [] {
      OnlyOnes(ns[0]);
      PlainText(ns[1..]);
    }
  }

  // ------------------------------------------------------------------ strings as numbers

  function Codes(s: string): seq<nat> { seq(|s|, i requires 0 <= i < |s| => s[i] as nat) }

  function Letter(n: nat): char { if n < 0xD800 || 0xE000 <= n < 0x11_0000 then n as char else ' ' }

  function Letters(ns: seq<nat>): string { seq(|ns|, i requires 0 <= i < |ns| => Letter(ns[i])) }

  function Put(s: string): seq<nat> { [|s|] + Codes(s) }

  datatype Taken = Taken(text: string, rest: seq<nat>)

  function Take(ns: seq<nat>): Taken {
    if ns == [] || ns[0] >= |ns| then Taken("", []) else Taken(Letters(ns[1..1 + ns[0]]), ns[1 + ns[0]..])
  }

  lemma TakePut(s: string, rest: seq<nat>)
    ensures Take(Put(s) + rest) == Taken(s, rest)
  {
    var ns := Put(s) + rest;
    assert ns[1..1 + |s|] == Codes(s) && ns[1 + |s|..] == rest;
    assert Letters(Codes(s)) == s;
  }

  // ------------------------------------------------------------------ events as numbers

  function StateCode(a: Availability): nat {
    match a
    case Unknown => 0
    case Up => 1
    case Down => 2
  }

  function CodeState(n: nat): Availability { if n == 0 then Unknown else if n == 1 then Up else Down }

  function SourceCode(s: Source): nat {
    match s
    case Systemd => 0
    case HostReboot => 1
    case Recovery => 2
    case Sip => 3
    case Dns => 4
    case Agw => 5
  }

  function CodeSource(n: nat): Source {
    if n == 0 then Systemd else if n == 1 then HostReboot else if n == 2 then Recovery
    else if n == 3 then Sip else if n == 4 then Dns else Agw
  }

  datatype Four = Four(a: string, b: string, c: string, d: string)

  function PutFour(f: Four): seq<nat> { Put(f.a) + (Put(f.b) + (Put(f.c) + Put(f.d))) }

  function TakeFour(ns: seq<nat>): Four {
    var a := Take(ns);
    var b := Take(a.rest);
    var c := Take(b.rest);
    Four(a.text, b.text, c.text, Take(c.rest).text)
  }

  lemma FourRoundTrip(f: Four)
    ensures TakeFour(PutFour(f)) == f
  {
    var d := Put(f.d);
    var c := Put(f.c) + d;
    var b := Put(f.b) + c;
    assert d + [] == d;
    TakePut(f.d, []);
    TakePut(f.c, d);
    TakePut(f.b, c);
    TakePut(f.a, b);
  }

  function Head(e: Event): seq<nat> {
    [e.sequence, StateCode(e.state), if e.timeMs < 0 then 1 else 0, if e.timeMs < 0 then -e.timeMs else e.timeMs,
     e.monoUs, SourceCode(e.source)]
  }

  function FromParts(h: seq<nat>, f: Four): Event
    requires |h| == 6
  {
    Event(h[0], f.a, CodeState(h[1]), if h[2] == 1 then -(h[3] as int) else h[3], h[4], f.b, CodeSource(h[5]), f.c, f.d)
  }

  function ToNumbers(e: Event): seq<nat> { Head(e) + PutFour(Four(e.service, e.bootId, e.activeState, e.subState)) }

  function FromNumbers(ns: seq<nat>): Option<Event> {
    if |ns| < 6 then None else Some(FromParts(ns[..6], TakeFour(ns[6..])))
  }

  lemma PartsRoundTrip(e: Event)
    ensures FromParts(Head(e), Four(e.service, e.bootId, e.activeState, e.subState)) == e
  {
  }

  lemma Cut(h: seq<nat>, t: seq<nat>)
    ensures (h + t)[..|h|] == h && (h + t)[|h|..] == t
  {
  }

  lemma NumbersRoundTrip(e: Event)
    ensures FromNumbers(ToNumbers(e)) == Some(e) && ToNumbers(e) != []
  {
    var h, f := Head(e), Four(e.service, e.bootId, e.activeState, e.subState);
    Cut(h, PutFour(f));
    FourRoundTrip(f);
    PartsRoundTrip(e);
  }

  function Encode(e: Event): seq<Byte> { Text(ToNumbers(e)) }

  function Decode(b: seq<Byte>): Option<Event> { FromNumbers(Numbers(b, 0)) }

  function Plain(): Codec { Codec(Encode, Decode) }

  lemma EncodeIsPlain(e: Event)
    ensures var text := Encode(e);
      && text != [] && !IsSpace(text[0]) && !IsSpace(text[|text| - 1])
      && NEWLINE !in text && Decode(text) == Some(e)
  {
    NumbersRoundTrip(e);
    NumbersOfText(ToNumbers(e));
    OneLine(ToNumbers(e), Text(ToNumbers(e)));
  }

  lemma OneLine(ns: seq<nat>, text: seq<Byte>)
    requires ns != [] && text == Text(ns)
    ensures text != [] && !IsSpace(text[0]) && !IsSpace(text[|text| - 1]) && NEWLINE !in text
  {
    PlainText(ns);
    Visible(text);
  }

  lemma Visible(text: seq<Byte>)
    requires text != [] && forall b :: b in text ==> b == ONE || b == END
    ensures !IsSpace(text[0]) && !IsSpace(text[|text| - 1]) && NEWLINE !in text
  {
    assert text[0] in text && text[|text| - 1] in text;
  }

  /** What the log asks of an encoding can be met. */
  lemma PlainIsFaithful()
    ensures Faithful(Plain())
  {
    forall e: Event
      ensures var text := Plain().encode(e);
        && text != [] && !IsSpace(text[0]) && !IsSpace(text[|text| - 1])
        && NEWLINE !in text && Plain().decode(text) == Some(e)
    {
      EncodeIsPlain(e);
    }
  }
}
