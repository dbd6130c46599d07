/** What the reader makes of streams the client's own sender would not write: any header lines, names in
    any capitals, and any text in place of a length. */
module DapReading {
  import opened Common
  import opened DapFraming

  // ----- what counts as an integer -----

  function Unsigned(t: string): string {
    if t != "" && (t[0] == '-' || t[0] == '+') then t[1..] else t
  }

  /** Digits at both ends, digits or single underscores between. */
  ghost predicate Spaced(t: string) {
    && t != "" && '0' <= t[0] <= '9' && '0' <= t[|t| - 1] <= '9'
    && (forall i | 0 <= i < |t| :: '0' <= t[i] <= '9' || t[i] == '_')
    && (forall i | 0 < i < |t| :: t[i] == '_' ==> t[i - 1] != '_')
  }

  lemma {:induction false} SpacedMore(t: string)
    requires |t| > 1
    ensures IsDigit(t[|t| - 1]) && Spaced(t[..|t| - 1]) ==> Spaced(t)
    ensures Spaced(t) && IsDigit(t[|t| - 2]) ==> Spaced(t[..|t| - 1])
  {
    var init := t[..|t| - 1];
    assert init[|init| - 1] == t[|t| - 2];
  }

  lemma {:induction false} SpacedOver(t: string)
    requires |t| > 2 && t[|t| - 2] == '_'
    ensures Spaced(t) <==> IsDigit(t[|t| - 1]) && Spaced(t[..|t| - 2])
  {
    var init := t[..|t| - 2];
    assert init[|init| - 1] == t[|t| - 3];
    if Spaced(init) && IsDigit(t[|t| - 1]) {
      forall i | 0 <= i < |t| ensures '0' <= t[i] <= '9' || t[i] == '_' {
        assert i < |init| ==> t[i] == init[i];
      }
      forall i | 0 < i < |t| ensures t[i] == '_' ==> t[i - 1] != '_' {
        assert i < |init| ==> t[i] == init[i] && t[i - 1] == init[i - 1];
      }
    }
  }

  lemma {:induction false} DigitsIff(t: string)
    ensures Digits(t) <==> Spaced(t)
  {
    if |t| > 1 {
      DigitsIff(t[..|t| - 1]);
      SpacedMore(t);
      if t[|t| - 2] == '_' {
        if |t| > 2 {
          DigitsIff(t[..|t| - 2]);
          SpacedOver(t);
        }
        assert !Spaced(t[..|t| - 1]);
      }
    }
  }

  lemma {:induction false} ValueWithout(a: string, b: string)
    ensures Value(a + "_" + b) == Value(a + b)
  {
    if b == "" {
      assert (a + "_" + b)[..|a|] == a + b;
    } else {
      var init := b[..|b| - 1];
      ValueWithout(a, init);
      assert (a + "_" + b)[..|a + "_" + b| - 1] == a + "_" + init;
      assert (a + b)[..|a + b| - 1] == a + init;
    }
  }

  /** A text is an integer exactly if behind at most one sign it has digits at both ends and digits or
      single underscores between them; a minus changes the sign, an underscore nothing. */
  lemma {:induction false} IntegerIff(t: string)
    ensures ParseInt(t).Some? <==> Spaced(Unsigned(t))
    ensures Spaced(t) ==> ParseInt("+" + t) == ParseInt(t) && ParseInt("-" + t) == Some(-ParseInt(t).value)
    ensures forall a, b :: Spaced(t) && t == a + "_" + b ==> ParseInt(a + b) == ParseInt(t)
  {
    DigitsIff(t);
    DigitsIff(Unsigned(t));
    assert ("+" + t)[1..] == t && ("-" + t)[1..] == t;
    hide Digits, Value;
    forall a, b | Spaced(t) && t == a + "_" + b ensures ParseInt(a + b) == ParseInt(t) {
      UnderscoreAside(a, b);
    }
  }

  lemma {:induction false} UnderscoreAside(a: string, b: string)
    requires Spaced(a + "_" + b)
    ensures ParseInt(a + b) == ParseInt(a + "_" + b)
  {
    ValueWithout(a, b);
    WithoutUnderscore(a, b);
    DigitsIff(a + b);
    DigitsIff(a + "_" + b);
    hide Digits, Value;
  }

  lemma {:induction false} WithoutUnderscore(a: string, b: string)
    requires Spaced(a + "_" + b)
    ensures Spaced(a + b)
  {
    var t := a + "_" + b;
    assert t[|a|] == '_';
    assert a != "" && b != "";
    forall i | 0 <= i < |a + b| ensures (a + b)[i] == t[if i < |a| then i else i + 1] {
    }
  }

  // ----- header lines -----

  /** A header line with its line feed, not the empty line that ends a header. */
  predicate IsLine(line: seq<Byte>) {
    && line != [] && line[|line| - 1] == LF && (forall i | 0 <= i < |line| - 1 :: line[i] != LF)
    && line != [CR, LF] && line != [LF]
  }

  /** The bytes as ASCII, with a replacement for every other byte. */
  ghost predicate Spells(line: seq<Byte>, t: string) {
    |t| == |line| && forall i | 0 <= i < |t| :: t[i] == if line[i] < 128 then line[i] as char else '\U{FFFD}'
  }

  /** The same letters, those of `a` in lower case. */
  ghost predicate InLowerCase(a: string, name: string) {
    |a| == |name|
    && forall i | 0 <= i < |a| ::
         if 'A' <= a[i] <= 'Z' then name[i] as int - 'a' as int == a[i] as int - 'A' as int else name[i] == a[i]
  }

  /** The line, without white space around it, is a name in any capitals, a colon and then the value,
      perhaps with white space around. */
  ghost predicate Names(line: seq<Byte>, name: string, value: string) {
    exists t, a, b :: Spells(line, t) && Trims(t, a + ":" + b) && ':' !in a && InLowerCase(a, name) && Trims(b, value)
  }

  function Said(line: seq<Byte>): Option<(string, string)> {
    var t := Strip(Decode(line));
    match Colon(t)
    case None => None
    case Some(k) => Some((Lower(t[..k]), Strip(t[k + 1..])))
  }

  lemma {:induction false} LowerIff(a: string, name: string)
    ensures Lower(a) == name <==> InLowerCase(a, name)
  {
    if InLowerCase(a, name) {
      forall i | 0 <= i < |a| ensures Lower(a)[i] == name[i] {
      }
    }
  }

  lemma {:induction false} SpellsIff(line: seq<Byte>, t: string)
    ensures Decode(line) == t <==> Spells(line, t)
  {
  }

  lemma {:induction false} FirstColon(a: string, b: string)
    requires ':' !in a
    ensures Colon(a + ":" + b) == Some(|a|) && (a + ":" + b)[..|a|] == a && (a + ":" + b)[|a| + 1..] == b
  {
    ColonAt(a, b);
  }

  lemma {:induction false} SaidIsNamed(line: seq<Byte>)
    requires Said(line).Some?
    ensures Names(line, Said(line).value.0, Said(line).value.1)
  {
    hide Decode, Strip, Trims, Lower, InLowerCase, Spells, Names;
    var t := Strip(Decode(line));
    var k := Colon(t).value;
    var a, b := t[..k], t[k + 1..];
    SpellsIff(line, Decode(line));
    StripTrims(Decode(line));
    StripTrims(b);
    LowerIff(a, Lower(a));
    assert t == a + ":" + b;
    NamedBy(line, Decode(line), a, b, Lower(a), Strip(b));
  }

  lemma {:induction false} NamedBy(line: seq<Byte>, t: string, a: string, b: string, name: string, value: string)
    requires Spells(line, t) && Trims(t, a + ":" + b) && ':' !in a && InLowerCase(a, name) && Trims(b, value)
    ensures Names(line, name, value)
  {
    hide Spells, Trims, InLowerCase;
  }

  lemma {:induction false} NamedIsSaid(line: seq<Byte>, name: string, value: string)
    requires Names(line, name, value)
    ensures Said(line) == Some((name, value))
  {
    hide Decode, Strip, Trims, Lower, InLowerCase, Spells;
    var t, a, b :| Spells(line, t) && Trims(t, a + ":" + b) && ':' !in a && InLowerCase(a, name) && Trims(b, value);
    SpellsIff(line, t);
    StripTrims(t);
    TrimsOnce(t, a + ":" + b, Strip(t));
    StripTrims(b);
    TrimsOnce(b, value, Strip(b));
    LowerIff(a, name);
    FirstColon(a, b);
  }

  // ----- header blocks -----

  function Joined(lines: seq<seq<Byte>>): seq<Byte> {
    if lines == [] then [] else lines[0] + Joined(lines[1..])
  }

  function Collect(fields: map<string, string>, lines: seq<seq<Byte>>): map<string, string>
    decreases |lines|
  {
    if lines == [] then fields else Collect(AddField(fields, lines[0]), lines[1..])
  }

  lemma {:induction false} OneLine(line: seq<Byte>, rest: seq<Byte>, fields: map<string, string>)
    requires IsLine(line)
    ensures ReadHeaders(line + rest, fields) == ReadHeaders(rest, AddField(fields, line))
  {
    var a := line[..|line| - 1];
    assert line + rest == a + [LF] + rest && line == a + [LF];
    LineEndAt(a, rest);
    assert (line + rest)[..|line|] == line && (line + rest)[|line|..] == rest;
    hide AddField, LineEnd;
  }

  lemma {:induction false} Collected(lines: seq<seq<Byte>>, end: seq<Byte>, rest: seq<Byte>,
                                     fields: map<string, string>)
    requires (forall i | 0 <= i < |lines| :: IsLine(lines[i])) && EmptyLine(end)
    ensures ReadHeaders(Joined(lines) + end + rest, fields) == Headers(Collect(fields, lines), rest)
    decreases |lines|
  {
    if lines == [] {
      var a := if end == [LF] then [] else [CR];
      assert end == a + [LF];
      assert [] + end + rest == a + [LF] + rest;
      BlankRead(a, rest, fields);
    } else {
      hide ReadHeaders, AddField, IsLine, EmptyLine;
      Collected(lines[1..], end, rest, AddField(fields, lines[0]));
      OneLine(lines[0], Joined(lines[1..]) + end + rest, fields);
      assert Joined(lines) + end + rest == lines[0] + (Joined(lines[1..]) + end + rest);
    }
  }

  /** Line i is the last one that names the field. */
  ghost predicate LastNaming(lines: seq<seq<Byte>>, i: nat, name: string, value: string) {
    i < |lines| && Names(lines[i], name, value) && forall j, v | i < j < |lines| :: !Names(lines[j], name, v)
  }

  lemma {:induction false} LineAdds(fields: map<string, string>, line: seq<Byte>, name: string)
    ensures forall v :: Names(line, name, v) ==> name in AddField(fields, line) && AddField(fields, line)[name] == v
    ensures (forall v :: !Names(line, name, v)) ==>
              (name in AddField(fields, line) <==> name in fields)
              && (name in fields ==> AddField(fields, line)[name] == fields[name])
  {
    forall v | Names(line, name, v) ensures Said(line) == Some((name, v)) {
      NamedIsSaid(line, name, v);
    }
    if Said(line).Some? {
      SaidIsNamed(line);
    }
    hide Names, Strip, Lower, Decode;
  }

  lemma {:induction false} CollectSays(fields: map<string, string>, lines: seq<seq<Byte>>, name: string)
    ensures forall i, v :: LastNaming(lines, i, name, v) ==>
              name in Collect(fields, lines) && Collect(fields, lines)[name] == v
    ensures (forall i, v :: 0 <= i < |lines| ==> !Names(lines[i], name, v)) ==>
              (name in Collect(fields, lines) <==> name in fields)
              && (name in fields ==> Collect(fields, lines)[name] == fields[name])
    decreases |lines|
  {
    hide Names, AddField;
    if lines != [] {
      var first, rest := lines[0], lines[1..];
      CollectSays(AddField(fields, first), rest, name);
      LineAdds(fields, first, name);
      forall i: nat, v | LastNaming(lines, i, name, v)
        ensures name in Collect(fields, lines) && Collect(fields, lines)[name] == v
      {
        if i > 0 {
          assert LastNaming(rest, i - 1, name, v);
        } else {
          assert forall j, w | 0 <= j < |rest| :: rest[j] == lines[j + 1] && !Names(rest[j], name, w);
        }
      }
    }
  }

  /** Of any header block the reader keeps, under a name in lower case, the value of the last line with
      that name in any capitals, and no other name. */
  lemma {:induction false} HeadersRead(lines: seq<seq<Byte>>, end: seq<Byte>, rest: seq<Byte>, name: string)
    requires (forall i | 0 <= i < |lines| :: IsLine(lines[i])) && (end == [CR, LF] || end == [LF])
    ensures var h := ReadHeaders(Joined(lines) + end + rest, map[]);
            && h.Headers? && h.rest == rest
            && (forall i, v :: LastNaming(lines, i, name, v) ==> name in h.fields && h.fields[name] == v)
            && ((forall i, v :: 0 <= i < |lines| ==> !Names(lines[i], name, v)) ==> name !in h.fields)
  {
    Collected(lines, end, rest, map[]);
    CollectSays(map[], lines, name);
    hide Names, ReadHeaders, Collect;
  }

  /** A block without a length is passed over. */
  lemma {:induction false} NoLength(lines: seq<seq<Byte>>, end: seq<Byte>, rest: seq<Byte>)
    requires (forall i | 0 <= i < |lines| :: IsLine(lines[i])) && (end == [CR, LF] || end == [LF])
    requires forall i, v | 0 <= i < |lines| :: !Names(lines[i], "content-length", v)
    ensures ReadFrame(Joined(lines) + end + rest) == ReadFrame(rest)
  {
    HeadersRead(lines, end, rest, "content-length");
    hide Names, ReadHeaders, Joined, IsLine;
  }

  /** The length that counts is that of the last line for it. An empty one is passed over like none; a text
      that is no integer, or a negative one, ends the reading, and so does a stream without that many
      bytes left; otherwise exactly that many are the body. */
  lemma {:induction false} LengthIsTaken(lines: seq<seq<Byte>>, end: seq<Byte>, rest: seq<Byte>, i: nat, v: string)
    requires (forall i | 0 <= i < |lines| :: IsLine(lines[i])) && (end == [CR, LF] || end == [LF])
    requires LastNaming(lines, i, "content-length", v)
    ensures var s := Joined(lines) + end + rest;
            && (v == "" ==> ReadFrame(s) == ReadFrame(rest))
            && (v != "" && !Spaced(Unsigned(v)) ==> ReadFrame(s) == Stop(BadLength))
            && forall n :: v != "" && ParseInt(v) == Some(n) ==>
                 ReadFrame(s) == if n < 0 then Stop(BadLength)
                                 else if |rest| < n then Stop(CutBody) else Frame(rest[..n], rest[n..])
  {
    HeadersRead(lines, end, rest, "content-length");
    IntegerIff(v);
    hide Names, ReadHeaders, ParseInt, Joined, Spaced, Unsigned, IsLine, LastNaming;
    if v != "" {
      assert ReadFrame(Joined(lines) + end + rest) == TakeBody(v, rest);
    }
  }
}
