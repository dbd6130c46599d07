/** Debug Adapter Protocol framing: the sender's header printer and the reader's parser, on
    bytes, and the proof that the reader recovers what was sent, wherever the stream is cut. */
module DapFraming {
  import opened Common

  type Byte = x: int | 0 <= x < 256

  const CR: Byte := 13
  const LF: Byte := 10
  const FIELD: string := "content-length"
  const NAME: string := "Content-Length"
  const HEADER: string := NAME + ": "

  // ----- decimal numbers -----

  predicate IsDigit(c: char) {
    '0' <= c <= '9'
  }

  function DigitOf(d: nat): char
    requires d < 10
  {
    d as char + '0'
  }

  function Decimal(n: nat): string {
    if n < 10 then [DigitOf(n)] else Decimal(n / 10) + [DigitOf(n % 10)]
  }

  /** Digits with single underscores between them, as Python's `int` accepts. */
  predicate Digits(t: string) {
    t != "" && IsDigit(t[|t| - 1])
    && (|t| == 1 || Digits(t[..|t| - 1]) || (t[|t| - 2] == '_' && Digits(t[..|t| - 2])))
  }

  function Value(t: string): nat {
    if t == "" then 0
    else
      var c := t[|t| - 1];
      if IsDigit(c) then 10 * Value(t[..|t| - 1]) + (c as int - '0' as int) else Value(t[..|t| - 1])
  }

  function ParseInt(t: string): Option<int> {
    if t != "" && (t[0] == '-' || t[0] == '+') then
      if Digits(t[1..]) then Some(if t[0] == '-' then 0 - Value(t[1..]) else Value(t[1..])) else None
    else if Digits(t) then Some(Value(t))
    else None
  }

  lemma {:induction false} DecimalDigits(n: nat)
    ensures Decimal(n) != "" && forall i | 0 <= i < |Decimal(n)| :: IsDigit(Decimal(n)[i])
    ensures Digits(Decimal(n)) && Value(Decimal(n)) == n
  {
    if n >= 10 {
      DecimalDigits(n / 10);
      assert Decimal(n)[..|Decimal(n)| - 1] == Decimal(n / 10);
    } else {
      assert Decimal(n)[..0] == "";
    }
  }

  /** Reading a printed length gives the length back. */
  lemma {:induction false} ParsePrinted(n: nat)
    ensures ParseInt(Decimal(n)) == Some(n)
  {
    DecimalDigits(n);
    assert IsDigit(Decimal(n)[0]);
  }

  // ----- lines and header fields -----

  /** The length of the first line with its line feed, or of all there is. */
  function LineEnd(s: seq<Byte>): (n: nat)
    ensures n <= |s| && (n == 0 <==> s == [])
  {
    if s == [] then 0 else if s[0] == LF then 1 else 1 + LineEnd(s[1..])
  }

  function Decode(line: seq<Byte>): (t: string)
    ensures |t| == |line|
  {
    seq(|line|, i requires 0 <= i < |line| => if line[i] < 128 then line[i] as char else '\U{FFFD}')
  }

  function Ascii(t: string): (s: seq<Byte>)
    requires forall i | 0 <= i < |t| :: t[i] as int < 128
    ensures |s| == |t|
  {
    seq(|t|, i requires 0 <= i < |t| => t[i] as int)
  }

  function LowerChar(c: char): char {
    if 'A' <= c <= 'Z' then c + ' ' else c
  }

  function Lower(t: string): string {
    seq(|t|, i requires 0 <= i < |t| => LowerChar(t[i]))
  }

  /** Where the first colon is. */
  function Colon(t: string): (k: Option<nat>)
    ensures k.Some? ==> k.value < |t| && t[k.value] == ':' && forall i | 0 <= i < k.value :: t[i] != ':'
    ensures k.None? ==> forall i | 0 <= i < |t| :: t[i] != ':'
  {
    if t == "" then None
    else if t[0] == ':' then Some(0)
    else match Colon(t[1..]) case None => None case Some(k) => Some(k + 1)
  }

  function AddField(fields: map<string, string>, line: seq<Byte>): map<string, string> {
    var t := Strip(Decode(line));
    match Colon(t)
    case None => fields
    case Some(k) => fields[Lower(t[..k]) := Strip(t[k + 1..])]
  }

  predicate EmptyLine(line: seq<Byte>) {
    line == [CR, LF] || line == [LF]
  }

  // ----- reading -----

  datatype Headers = Closed | Headers(fields: map<string, string>, rest: seq<Byte>)

  function ReadHeaders(s: seq<Byte>, fields: map<string, string>): (h: Headers)
    ensures h.Headers? ==> |h.rest| < |s|
    decreases |s|
  {
    var n := LineEnd(s);
    if n == 0 then Closed
    else if EmptyLine(s[..n]) then Headers(fields, s[n..])
    else ReadHeaders(s[n..], AddField(fields, s[..n]))
  }

  /** Why the reader stops: the stream ended in a header, a length is no number, the stream
      ended in a body, or a body is not a message. */
  datatype Ending = EndOfStream | BadLength | CutBody | BadBody

  datatype Frame = Stop(why: Ending) | Frame(body: seq<Byte>, rest: seq<Byte>)

  function TakeBody(length: string, rest: seq<Byte>): (f: Frame)
    ensures f.Frame? ==> |f.rest| <= |rest|
  {
    match ParseInt(length)
    case None => Stop(BadLength)
    case Some(n) =>
      if n < 0 then Stop(BadLength) else if n > |rest| then Stop(CutBody) else Frame(rest[..n], rest[n..])
  }

  /** One message; header blocks without a length are skipped. */
  function ReadFrame(s: seq<Byte>): (f: Frame)
    ensures f.Frame? ==> |f.rest| < |s|
    decreases |s|
  {
    match ReadHeaders(s, map[])
    case Closed => Stop(EndOfStream)
    case Headers(fields, rest) =>
      if FIELD !in fields || fields[FIELD] == "" then ReadFrame(rest) else TakeBody(fields[FIELD], rest)
  }

  datatype Reading = Reading(bodies: seq<seq<Byte>>, why: Ending)

  /** Everything the reader loop hands on before it stops. */
  function ReadAll(s: seq<Byte>, parses: seq<Byte> -> bool): Reading
    decreases |s|
  {
    match ReadFrame(s)
    case Stop(why) => Reading([], why)
    case Frame(body, rest) =>
      if !parses(body) then Reading([], BadBody)
      else
        var later := ReadAll(rest, parses);
        Reading([body] + later.bodies, later.why)
  }

  // ----- sending -----

  function FieldLine(n: nat): (s: seq<Byte>)
  {
    DecimalDigits(n);
    Ascii(HEADER) + Ascii(Decimal(n)) + [CR, LF]
  }

  function Packet(body: seq<Byte>): seq<Byte> {
    FieldLine(|body|) + [CR, LF] + body
  }

  function Wire(bodies: seq<seq<Byte>>): seq<Byte> {
    if bodies == [] then [] else Packet(bodies[0]) + Wire(bodies[1..])
  }

  // ----- the reader understands the sender -----

  lemma {:induction false} LineEndAt(a: seq<Byte>, rest: seq<Byte>)
    requires forall i | 0 <= i < |a| :: a[i] != LF
    ensures LineEnd(a + [LF] + rest) == |a| + 1
    ensures LineEnd(a) == |a|
  {
    var s := a + [LF] + rest;
    if a == [] {
    } else {
      LineEndAt(a[1..], rest);
      assert s[1..] == a[1..] + [LF] + rest;
    }
  }

  /** The header line without its line feed. */
  function FieldText(n: nat): string {
    HEADER + Decimal(n) + "\r"
  }

  lemma {:induction false} FieldBytes(n: nat)
    ensures forall i | 0 <= i < |FieldText(n)| :: FieldText(n)[i] as int < 128 && FieldText(n)[i] as int != LF
    ensures FieldLine(n) == Ascii(FieldText(n)) + [LF]
  {
    DecimalDigits(n);
    var d, t := Decimal(n), FieldText(n);
    forall i | 0 <= i < |t| ensures t[i] as int < 128 && t[i] as int != LF {
      if |HEADER| <= i < |HEADER| + |d| {
        assert t[i] == d[i - |HEADER|] && IsDigit(d[i - |HEADER|]);
      }
    }
  }

  lemma {:induction false} DecodeAscii(t: string)
    requires forall i | 0 <= i < |t| :: t[i] as int < 128
    ensures Decode(Ascii(t)) == t
    ensures Decode(Ascii(t) + [LF]) == t + "\n"
  {
  }

  lemma {:induction false} StripTail(t: string, tail: string)
    requires t != "" && !IsSpace(t[|t| - 1]) && forall i | 0 <= i < |tail| :: IsSpace(tail[i])
    ensures StripRight(t + tail) == t
  {
    var s := t + tail;
    if tail == "" {
      assert s == t;
    } else {
      StripTail(t, tail[..|tail| - 1]);
      assert s[..|s| - 1] == t + tail[..|tail| - 1];
    }
  }

  lemma {:induction false} StrippedField(n: nat)
    ensures Strip(FieldText(n) + "\n") == HEADER + Decimal(n)
    ensures Strip(" " + Decimal(n)) == Decimal(n)
  {
    DecimalDigits(n);
    var d := Decimal(n);
    assert IsDigit(d[|d| - 1]) && IsDigit(d[0]);
    var t := HEADER + d;
    assert FieldText(n) + "\n" == t + "\r\n";
    assert t[|t| - 1] == d[|d| - 1];
    StripTail(t, "\r\n");
    StripTail(d, "");
    assert d + "" == d;
    assert (" " + d)[1..] == d;
    assert StripLeft(d) == d;
  }

  lemma {:induction false} ColonAt(a: string, rest: string)
    requires forall i | 0 <= i < |a| :: a[i] != ':'
    ensures Colon(a + ":" + rest) == Some(|a|)
  {
    var s := a + ":" + rest;
    if a != "" {
      ColonAt(a[1..], rest);
      assert s[1..] == a[1..] + ":" + rest;
    }
  }

  lemma {:induction false} NameIsField()
    ensures forall i | 0 <= i < |NAME| :: NAME[i] != ':'
    ensures Lower(NAME) == FIELD
  {
    assert |NAME| == |FIELD| == 14;
    forall i | 0 <= i < 14 ensures LowerChar(NAME[i]) == FIELD[i] && NAME[i] != ':' {
    }
  }

  lemma {:induction false} HeaderColon(n: nat)
    ensures var t := HEADER + Decimal(n);
            Colon(t) == Some(|NAME|) && Lower(t[..|NAME|]) == FIELD && t[|NAME| + 1..] == " " + Decimal(n)
  {
    var d := Decimal(n);
    NameIsField();
    ColonAt(NAME, " " + d);
    hide Colon, Lower, Decimal;
    assert HEADER + d == NAME + ":" + (" " + d);
    assert (NAME + ":" + (" " + d))[..|NAME|] == NAME;
    assert (NAME + ":" + (" " + d))[|NAME| + 1..] == " " + d;
  }

  lemma {:induction false} FieldAdded(n: nat)
    ensures AddField(map[], FieldLine(n)) == map[FIELD := Decimal(n)]
  {
    FieldBytes(n);
    DecodeAscii(FieldText(n));
    StrippedField(n);
    HeaderColon(n);
    hide Decimal, Strip, Lower, Decode, Ascii, FieldLine, FieldText;
  }

  /** A header block the sender wrote. */
  lemma {:induction false} ReadSentHeaders(n: nat, rest: seq<Byte>)
    ensures ReadHeaders(FieldLine(n) + [CR, LF] + rest, map[]) == Headers(map[FIELD := Decimal(n)], rest)
  {
    FieldBytes(n);
    FieldAdded(n);
    var line, s := FieldLine(n), FieldLine(n) + [CR, LF] + rest;
    var a := Ascii(FieldText(n));
    assert s == a + [LF] + ([CR, LF] + rest);
    LineEndAt(a, [CR, LF] + rest);
    var k := LineEnd(s);
    assert k == |line| && s[..k] == line && s[k..] == [CR, LF] + rest;
    assert |line| > 2;
    BlankRead([CR], rest, map[FIELD := Decimal(n)]);
    assert [CR] + [LF] + rest == [CR, LF] + rest;
    hide AddField, FieldLine, FieldText, Ascii, Decimal, LineEnd;
    assert !EmptyLine(line);
  }

  lemma {:induction false} BlankRead(a: seq<Byte>, rest: seq<Byte>, fields: map<string, string>)
    requires a == [CR] || a == []
    ensures ReadHeaders(a + [LF] + rest, fields) == Headers(fields, rest)
  {
    var s := a + [LF] + rest;
    LineEndAt(a, rest);
    assert s[..|a| + 1] == a + [LF] && s[|a| + 1..] == rest;
  }

  lemma {:induction false} ReadSentFrame(body: seq<Byte>, tail: seq<Byte>)
    ensures ReadFrame(Packet(body) + tail) == Frame(body, tail)
  {
    var n := |body|;
    assert Packet(body) + tail == FieldLine(n) + [CR, LF] + (body + tail);
    ReadSentHeaders(n, body + tail);
    ParsePrinted(n);
    DecimalDigits(n);
    hide FieldLine, ReadHeaders, Decimal, ParseInt, Packet;
    assert (body + tail)[..n] == body && (body + tail)[n..] == tail;
  }

  function Prefixed(bodies: seq<seq<Byte>>, later: Reading): Reading {
    Reading(bodies + later.bodies, later.why)
  }

  lemma {:induction false} PrefixedOn(a: seq<seq<Byte>>, b: seq<seq<Byte>>, later: Reading)
    ensures Prefixed(a, Prefixed(b, later)) == Prefixed(a + b, later)
  {
    assert a + (b + later.bodies) == a + b + later.bodies;
  }

  lemma {:induction false} SentOne(body: seq<Byte>, rest: seq<Byte>, parses: seq<Byte> -> bool)
    requires parses(body)
    ensures ReadAll(Packet(body) + rest, parses) == Prefixed([body], ReadAll(rest, parses))
  {
    ReadSentFrame(body, rest);
    hide ReadFrame, Packet;
    ReadOne(Packet(body) + rest, body, rest, parses);
  }

  /** Whatever follows on the stream, the messages sent before it are read first, whole and in
      order, whatever bytes they are made of. */
  lemma {:induction false} SentThenTail(bodies: seq<seq<Byte>>, tail: seq<Byte>, parses: seq<Byte> -> bool)
    requires forall i | 0 <= i < |bodies| :: parses(bodies[i])
    ensures ReadAll(Wire(bodies) + tail, parses) == Prefixed(bodies, ReadAll(tail, parses))
  {
    hide ReadAll, Packet;
    if bodies == [] {
      assert Wire(bodies) + tail == tail;
    } else {
      var rest := Wire(bodies[1..]) + tail;
      assert Wire(bodies) + tail == Packet(bodies[0]) + rest;
      SentThenTail(bodies[1..], tail, parses);
      SentOne(bodies[0], rest, parses);
      hide Prefixed;
      PrefixedOn([bodies[0]], bodies[1..], ReadAll(tail, parses));
      assert [bodies[0]] + bodies[1..] == bodies;
    }
  }

  lemma {:induction false} ReadOne(s: seq<Byte>, body: seq<Byte>, rest: seq<Byte>, parses: seq<Byte> -> bool)
    requires ReadFrame(s) == Frame(body, rest)
    ensures parses(body) ==> var later := ReadAll(rest, parses);
                             ReadAll(s, parses) == Reading([body] + later.bodies, later.why)
    ensures !parses(body) ==> ReadAll(s, parses) == Reading([], BadBody)
  {
    hide ReadFrame;
  }

  /** The round trip: reading the concatenated packets gives exactly the bodies and uses up the
      whole stream. */
  lemma {:induction false} RoundTrip(bodies: seq<seq<Byte>>, parses: seq<Byte> -> bool)
    requires forall i | 0 <= i < |bodies| :: parses(bodies[i])
    ensures ReadAll(Wire(bodies), parses) == Reading(bodies, EndOfStream)
  {
    SentThenTail(bodies, [], parses);
    assert Wire(bodies) + [] == Wire(bodies);
  }

  /** A body the JSON decoder rejects ends the reading there. */
  lemma {:induction false} RejectedBody(bodies: seq<seq<Byte>>, bad: seq<Byte>, tail: seq<Byte>,
      parses: seq<Byte> -> bool)
    requires !parses(bad) && forall i | 0 <= i < |bodies| :: parses(bodies[i])
    ensures ReadAll(Wire(bodies) + (Packet(bad) + tail), parses) == Reading(bodies, BadBody)
  {
    SentThenTail(bodies, Packet(bad) + tail, parses);
    ReadSentFrame(bad, tail);
    hide ReadFrame, Packet, Wire;
  }

  // ----- cut streams -----

  /** A packet cut anywhere is no packet. */
  lemma {:induction false} CutPacket(body: seq<Byte>, k: nat)
    requires k < |Packet(body)|
    ensures ReadFrame(Packet(body)[..k]) == Stop(if k < |FieldLine(|body|)| + 2 then EndOfStream else CutBody)
  {
    var n, line, p := |body|, FieldLine(|body|), Packet(body)[..k];
    FieldBytes(n);
    if k >= |line| + 2 {
      var part := body[..k - |line| - 2];
      assert p == line + [CR, LF] + part;
      ReadSentHeaders(n, part);
      ParsePrinted(n);
      DecimalDigits(n);
      hide FieldLine, ReadHeaders, Decimal, ParseInt, Packet;
    } else {
      CutHeader(n, k, p) by {
        assert p == (line + [CR, LF])[..k];
      }
    }
  }

  lemma {:induction false} CutHeader(n: nat, k: nat, p: seq<Byte>)
    requires k < |FieldLine(n)| + 2 && p == (FieldLine(n) + [CR, LF])[..k]
    ensures ReadHeaders(p, map[]) == Closed
  {
    var line := FieldLine(n);
    FieldBytes(n);
    var a := Ascii(FieldText(n));
    if k < |line| {
      assert p == a[..k];
      LineEndAt(p, []);
      if k > 0 {
        assert p[0] == a[0] == 'C' as int;
        assert p[k..] == [];
      }
    } else {
      assert p == a + [LF] + p[|line|..];
      LineEndAt(a, p[|line|..]);
      assert p[..|line|] == line && a[0] == 'C' as int;
      LastBytes(p[|line|..], AddField(map[], line));
    }
  }

  lemma {:induction false} LastBytes(s: seq<Byte>, fields: map<string, string>)
    requires s == [] || s == [CR]
    ensures ReadHeaders(s, fields) == Closed
  {
    if s == [CR] {
      assert s[1..] == [];
    }
  }

  /** How many whole packets the first k bytes hold. */
  function Whole(bodies: seq<seq<Byte>>, k: nat): (n: nat)
    ensures n <= |bodies|
  {
    if bodies == [] || k < |Packet(bodies[0])| then 0 else 1 + Whole(bodies[1..], k - |Packet(bodies[0])|)
  }

  /** A stream cut anywhere gives exactly the messages it holds whole. */
  lemma {:induction false} CutStream(bodies: seq<seq<Byte>>, k: nat, parses: seq<Byte> -> bool)
    requires k <= |Wire(bodies)| && forall i | 0 <= i < |bodies| :: parses(bodies[i])
    ensures ReadAll(Wire(bodies)[..k], parses).bodies == bodies[..Whole(bodies, k)]
    ensures ReadAll(Wire(bodies)[..k], parses).why == EndOfStream || ReadAll(Wire(bodies)[..k], parses).why == CutBody
  {
    hide ReadAll, Packet;
    if bodies == [] {
      assert Wire(bodies)[..k] == [];
      ReadNothing(parses);
    } else if k < |Packet(bodies[0])| {
      assert Wire(bodies)[..k] == Packet(bodies[0])[..k];
      CutFirst(bodies[0], k, parses);
    } else {
      var p, rest := Packet(bodies[0]), Wire(bodies[1..])[..k - |Packet(bodies[0])|];
      CutStream(bodies[1..], k - |p|, parses);
      assert Wire(bodies)[..k] == p + rest;
      SentOne(bodies[0], rest, parses);
      WholeMore(bodies, k);
    }
  }

  lemma {:induction false} ReadNothing(parses: seq<Byte> -> bool)
    ensures ReadAll([], parses) == Reading([], EndOfStream)
  {
  }

  lemma {:induction false} CutFirst(body: seq<Byte>, k: nat, parses: seq<Byte> -> bool)
    requires k < |Packet(body)|
    ensures var r := ReadAll(Packet(body)[..k], parses); r.bodies == [] && (r.why == EndOfStream || r.why == CutBody)
  {
    CutPacket(body, k);
    hide ReadFrame, Packet;
  }

  lemma {:induction false} WholeMore(bodies: seq<seq<Byte>>, k: nat)
    requires bodies != [] && k >= |Packet(bodies[0])|
    ensures bodies[..Whole(bodies, k)] == [bodies[0]] + bodies[1..][..Whole(bodies[1..], k - |Packet(bodies[0])|)]
  {
    hide Packet;
  }

  // ----- the loops -----

  method SendAll(bodies: seq<seq<Byte>>) returns (wire: seq<Byte>)
    ensures wire == Wire(bodies)
  {
    wire := [];
    var i := 0;
    while i < |bodies|
      invariant i <= |bodies| && wire + Wire(bodies[i..]) == Wire(bodies)
    {
      hide Packet;
      wire := wire + Packet(bodies[i]);
      assert bodies[i..][1..] == bodies[i + 1..];
      i := i + 1;
    }
  }

  method ReadHeaderLines(s: seq<Byte>) returns (h: Headers)
    ensures h == ReadHeaders(s, map[])
  {
    var rest, fields := s, map[];
    while true
      invariant ReadHeaders(rest, fields) == ReadHeaders(s, map[])
      decreases |rest|
    {
      var n := LineEnd(rest);
      if n == 0 {
        return Closed;
      }
      var line := rest[..n];
      rest := rest[n..];
      if EmptyLine(line) {
        return Headers(fields, rest);
      }
      hide Colon, Strip, Decode, Lower;
      var text := Strip(Decode(line));
      var k := Colon(text);
      if k.Some? {
        fields := fields[Lower(text[..k.value]) := Strip(text[k.value + 1..])];
      }
    }
  }

  /** The part of the loop up to a whole body; a block without a length starts over. */
  method ReadBody(s: seq<Byte>) returns (f: Frame)
    ensures f == ReadFrame(s)
  {
    var rest := s;
    while true
      invariant ReadFrame(rest) == ReadFrame(s)
      decreases |rest|
    {
      hide ReadHeaders, TakeBody;
      var h := ReadHeaderLines(rest);
      if h.Closed? {
        return Stop(EndOfStream);
      }
      if FIELD in h.fields && h.fields[FIELD] != "" {
        return TakeBody(h.fields[FIELD], h.rest);
      }
      rest := h.rest;
    }
  }

  /** The reader loop up to the failure that ends it. */
  method ReaderLoop(s: seq<Byte>, parses: seq<Byte> -> bool) returns (bodies: seq<seq<Byte>>, why: Ending)
    ensures Reading(bodies, why) == ReadAll(s, parses)
  {
    var rest := s;
    bodies := [];
    while true
      invariant Prefixed(bodies, ReadAll(rest, parses)) == ReadAll(s, parses)
      decreases |rest|
    {
      hide ReadFrame;
      var f := ReadBody(rest);
      if f.Stop? {
        return bodies, f.why;
      }
      if !parses(f.body) {
        return bodies, BadBody;
      }
      PrefixedMore(bodies, f.body, ReadAll(f.rest, parses));
      bodies := bodies + [f.body];
      rest := f.rest;
    }
  }

  lemma {:induction false} PrefixedMore(bodies: seq<seq<Byte>>, body: seq<Byte>, later: Reading)
    ensures Prefixed(bodies + [body], later) == Prefixed(bodies, Reading([body] + later.bodies, later.why))
  {
    PrefixedOn(bodies, [body], later);
  }
}
