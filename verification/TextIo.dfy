/** Text files whose newline convention and byte order mark survive reading and writing. */
module TextIo {
  import opened Common

  const CRLF: string := "\r\n"
  const LF: string := "\n"
  const CR: string := "\r"

  predicate IsNewline(s: string) {
    s == LF || s == CR || s == CRLF
  }

  // ----- string replacement and counting -----

  predicate StartsWith(s: string, p: string) {
    |p| <= |s| && s[..|p|] == p
  }

  /** Replace every occurrence, from the left, not looking into what was replaced. */
  function Replace(s: string, old': string, new': string): string
    requires old' != ""
  {
    if s == "" then ""
    else if StartsWith(s, old') then new' + Replace(s[|old'|..], old', new')
    else [s[0]] + Replace(s[1..], old', new')
  }

  /** Occurrences that do not overlap, from the left. */
  function Count(s: string, p: string): nat
    requires p != ""
  {
    if s == "" then 0
    else if StartsWith(s, p) then 1 + Count(s[|p|..], p)
    else Count(s[1..], p)
  }

  function Normalize(text: string, newline: string): string {
    var normalized := Replace(Replace(text, CRLF, LF), CR, LF);
    if newline == LF then normalized else Replace(normalized, LF, newline)
  }

  function Detect(text: string): Option<string> {
    var crlf := Count(text, CRLF);
    var lf, cr := Count(text, LF) - crlf, Count(text, CR) - crlf;
    var best := if crlf >= lf && crlf >= cr then crlf else if lf >= cr then lf else cr;
    if best == 0 then None
    else if crlf >= lf && crlf >= cr then Some(CRLF)
    else if lf >= cr then Some(LF)
    else Some(CR)
  }

  // ----- line breaks -----

  /** The line breaks of a text, in order; a CR and the LF behind it are one. */
  function Breaks(s: string): seq<string> {
    if s == "" then []
    else if StartsWith(s, CRLF) then [CRLF] + Breaks(s[2..])
    else if s[0] == '\r' then [CR] + Breaks(s[1..])
    else if s[0] == '\n' then [LF] + Breaks(s[1..])
    else Breaks(s[1..])
  }

  /** The text with every break as LF. */
  function Unify(s: string): string {
    if s == "" then ""
    else if StartsWith(s, CRLF) then LF + Unify(s[2..])
    else if s[0] == '\r' then LF + Unify(s[1..])
    else [s[0]] + Unify(s[1..])
  }

  /** The text, free of CR, with every LF replaced. */
  function Expand(u: string, newline: string): string {
    if u == "" then ""
    else if u[0] == '\n' then newline + Expand(u[1..], newline)
    else [u[0]] + Expand(u[1..], newline)
  }

  predicate NoCr(s: string) {
    forall i | 0 <= i < |s| :: s[i] != '\r'
  }

  lemma {:induction false} UnifyIsReplace(s: string)
    ensures Replace(Replace(s, CRLF, LF), CR, LF) == Unify(s)
  {
    if s != "" {
      if StartsWith(s, CRLF) {
        UnifyIsReplace(s[2..]);
        var r := Replace(s[2..], CRLF, LF);
        assert (LF + r)[1..] == r && !StartsWith(LF + r, CR);
      } else {
        UnifyIsReplace(s[1..]);
        var r := Replace(s[1..], CRLF, LF);
        assert ([s[0]] + r)[1..] == r;
        assert StartsWith([s[0]] + r, CR) <==> s[0] == '\r';
      }
    }
  }

  lemma {:induction false} UnifyHasNoCr(s: string)
    ensures NoCr(Unify(s))
  {
    if s != "" {
      UnifyHasNoCr(if StartsWith(s, CRLF) then s[2..] else s[1..]);
    }
  }

  lemma {:induction false} ExpandIsReplace(u: string, newline: string)
    ensures Replace(u, LF, newline) == Expand(u, newline)
  {
    if u != "" {
      ExpandIsReplace(u[1..], newline);
      assert StartsWith(u, LF) <==> u[0] == '\n';
    }
  }

  lemma {:induction false} ExpandLf(u: string)
    ensures Expand(u, LF) == u
  {
    if u != "" {
      ExpandLf(u[1..]);
      assert u == [u[0]] + u[1..];
    }
  }

  lemma {:induction false} NormalizeIs(text: string, newline: string)
    ensures Normalize(text, newline) == Expand(Unify(text), newline)
  {
    UnifyIsReplace(text);
    ExpandIsReplace(Unify(text), newline);
    ExpandLf(Unify(text));
    hide Unify, Expand, Replace;
  }

  lemma {:induction false} UnifyExpanded(u: string, newline: string)
    requires NoCr(u) && IsNewline(newline)
    ensures Unify(Expand(u, newline)) == u
  {
    if u != "" {
      UnifyExpanded(u[1..], newline);
      var e, s := Expand(u[1..], newline), Expand(u, newline);
      assert u == [u[0]] + u[1..];
      if u[0] == '\n' {
        assert s == newline + e;
        assert s[|newline|..] == e;
        ExpandStart(u[1..], newline);
      } else {
        assert s[1..] == e;
      }
    }
  }

  /** An expanded text begins with an LF only if that is the newline. */
  lemma {:induction false} ExpandStart(u: string, newline: string)
    requires NoCr(u) && IsNewline(newline)
    ensures var e := Expand(u, newline); e != "" && e[0] == '\n' ==> newline == LF
  {
  }

  /** Normalizing twice is normalizing to the last newline. */
  lemma {:induction false} NormalizeAgain(text: string, a: string, b: string)
    requires IsNewline(a)
    ensures Normalize(Normalize(text, a), b) == Normalize(text, b)
  {
    NormalizeIs(text, a);
    NormalizeIs(Normalize(text, a), b);
    NormalizeIs(text, b);
    UnifyHasNoCr(text);
    UnifyExpanded(Unify(text), a);
    hide Unify, Expand, Normalize;
  }

  ghost predicate Uniform(text: string, newline: string) {
    forall i | 0 <= i < |Breaks(text)| :: Breaks(text)[i] == newline
  }

  predicate AtBreak(s: string) {
    s != "" && (s[0] == '\r' || s[0] == '\n')
  }

  /** The length of the break, or of the single character, at the front. */
  function Front(s: string): nat
    requires s != ""
    ensures 1 <= Front(s) <= |s|
  {
    if StartsWith(s, CRLF) then 2 else 1
  }

  lemma {:induction false} FrontBreak(s: string)
    requires AtBreak(s)
    ensures var n := Front(s);
            IsNewline(s[..n]) && Breaks(s) == [s[..n]] + Breaks(s[n..]) && Unify(s) == LF + Unify(s[n..])
            && (s[..n] == CR && n < |s| ==> s[n] != '\n')
  {
    assert |s| > 1 && s[0] == '\r' && s[1] == '\n' ==> StartsWith(s, CRLF);
    if StartsWith(s, CRLF) {
      assert s[..2] == CRLF;
    } else if s[0] == '\r' {
      assert s[..1] == CR;
    } else {
      assert s[..1] == LF;
    }
  }

  lemma {:induction false} FrontChar(s: string)
    requires s != "" && !AtBreak(s)
    ensures Front(s) == 1 && Breaks(s) == Breaks(s[1..]) && Unify(s) == [s[0]] + Unify(s[1..])
  {
  }

  lemma {:induction false} UniformFront(s: string, newline: string)
    requires AtBreak(s)
    ensures Uniform(s, newline) <==> s[..Front(s)] == newline && Uniform(s[Front(s)..], newline)
  {
    FrontBreak(s);
    var b, rest := s[..Front(s)], Breaks(s[Front(s)..]);
    hide Breaks, Unify, IsNewline, Front;
    assert Breaks(s)[0] == b;
    assert forall i | 0 <= i < |rest| :: Breaks(s)[i + 1] == rest[i];
  }

  /** Another newline in front cannot give the same text. */
  lemma {:induction false} OtherFront(s: string, newline: string)
    requires AtBreak(s) && IsNewline(newline) && newline != s[..Front(s)]
    ensures newline + Expand(Unify(s[Front(s)..]), newline) != s
  {
    FrontBreak(s);
    var n := Front(s);
    var u := Unify(s[n..]);
    UnifyHasNoCr(s[n..]);
    ExpandStart(u, newline);
    var t := newline + Expand(u, newline);
    hide Breaks, Unify, Expand;
    assert s[..n] + s[n..] == s && s[..n][0] == s[0];
    assert n == 2 ==> s[..n][1] == s[1];
    assert t[0] == newline[0];
    assert newline == CRLF ==> t[1] == '\n';
    assert newline == CR && |t| > 1 ==> t[1] == Expand(u, newline)[0];
  }

  lemma {:induction false} ExpandUniform(s: string, newline: string)
    requires IsNewline(newline)
    ensures Expand(Unify(s), newline) == s <==> Uniform(s, newline)
  {
    if s != "" {
      var n := Front(s);
      var rest, e := s[n..], Expand(Unify(s[n..]), newline);
      ExpandUniform(rest, newline);
      assert s == s[..n] + rest;
      if AtBreak(s) {
        FrontBreak(s);
        UniformFront(s, newline);
        assert Expand(Unify(s), newline) == newline + e by {
          assert (LF + Unify(rest))[1..] == Unify(rest);
        }
        if newline == s[..n] {
          SameTail(newline, e, rest);
        } else {
          OtherFront(s, newline);
        }
      } else {
        FrontChar(s);
        assert Expand(Unify(s), newline) == [s[0]] + e by {
          assert ([s[0]] + Unify(rest))[1..] == Unify(rest);
        }
        SameTail([s[0]], e, rest);
      }
    }
  }

  lemma {:induction false} SameTail(a: string, b: string, c: string)
    ensures a + b == a + c <==> b == c
  {
    assert (a + b)[|a|..] == b && (a + c)[|a|..] == c;
  }

  /** Normalizing changes nothing exactly when every line break is already that newline. */
  lemma {:induction false} NormalizeIsIdentity(text: string, newline: string)
    requires IsNewline(newline)
    ensures Normalize(text, newline) == text <==> Uniform(text, newline)
  {
    NormalizeIs(text, newline);
    ExpandUniform(text, newline);
    hide Unify, Expand, Normalize, Uniform;
  }

  function Occurs(breaks: seq<string>, newline: string): nat {
    if breaks == [] then 0 else (if breaks[0] == newline then 1 else 0) + Occurs(breaks[1..], newline)
  }

  // ----- the detected newline -----

  lemma {:induction false} CountBreaks(s: string)
    ensures Count(s, CRLF) == Occurs(Breaks(s), CRLF)
    ensures Count(s, LF) == Occurs(Breaks(s), CRLF) + Occurs(Breaks(s), LF)
    ensures Count(s, CR) == Occurs(Breaks(s), CRLF) + Occurs(Breaks(s), CR)
  {
    if s != "" {
      var n := Front(s);
      CountBreaks(s[n..]);
      CountFront(s);
      if AtBreak(s) {
        FrontBreak(s);
        var rest := Breaks(s[n..]);
        assert ([s[..n]] + rest)[1..] == rest;
      } else {
        FrontChar(s);
      }
      hide Count, Breaks;
    }
  }

  lemma {:induction false} CountFront(s: string)
    requires s != ""
    ensures var n := Front(s);
            && Count(s, CRLF) == Count(s[n..], CRLF) + (if s[..n] == CRLF then 1 else 0)
            && Count(s, LF) == Count(s[n..], LF) + (if s[..n] == CRLF || s[..n] == LF then 1 else 0)
            && Count(s, CR) == Count(s[n..], CR) + (if s[..n] == CRLF || s[..n] == CR then 1 else 0)
  {
    assert StartsWith(s, LF) <==> s[0] == '\n';
    assert StartsWith(s, CR) <==> s[0] == '\r';
    if StartsWith(s, CRLF) {
      assert s[..2] == CRLF && s[1..][1..] == s[2..];
      assert !StartsWith(s[1..], CR) && StartsWith(s[1..], LF);
      assert s[1..][|LF|..] == s[2..];
    } else {
      assert s[..1] == [s[0]];
    }
  }

  lemma {:induction false} OccursAll(breaks: seq<string>, newline: string)
    requires forall i | 0 <= i < |breaks| :: IsNewline(breaks[i])
    ensures Occurs(breaks, newline) <= |breaks|
    ensures Occurs(breaks, newline) == |breaks| <==> forall i | 0 <= i < |breaks| :: breaks[i] == newline
    ensures Occurs(breaks, CRLF) + Occurs(breaks, LF) + Occurs(breaks, CR) == |breaks|
  {
    if breaks != [] {
      OccursAll(breaks[1..], newline);
      assert CRLF != LF && CR != LF && CR != CRLF by {
        assert |CRLF| == 2 && LF[0] == '\n' && CR[0] == '\r';
      }
      assert breaks == [breaks[0]] + breaks[1..];
    }
  }

  lemma {:induction false} BreaksAreNewlines(s: string)
    ensures forall i | 0 <= i < |Breaks(s)| :: IsNewline(Breaks(s)[i])
  {
    if s != "" {
      BreaksAreNewlines(s[Front(s)..]);
      if AtBreak(s) {
        FrontBreak(s);
      } else {
        FrontChar(s);
      }
      hide Breaks, Unify;
    }
  }

  /** The detected newline is a most frequent one; none is detected only if there is no break. */
  lemma {:induction false} DetectIsMostFrequent(text: string)
    ensures Detect(text).None? <==> Breaks(text) == []
    ensures Detect(text).Some? ==>
              IsNewline(Detect(text).value)
              && Occurs(Breaks(text), Detect(text).value) > 0
              && forall nl | IsNewline(nl) :: Occurs(Breaks(text), nl) <= Occurs(Breaks(text), Detect(text).value)
    ensures Detect(text) == Some("\n") ==> Occurs(Breaks(text), "\r\n") < Occurs(Breaks(text), "\n")
    ensures Detect(text) == Some("\r") ==>
              Occurs(Breaks(text), "\r\n") < Occurs(Breaks(text), "\r")
              && Occurs(Breaks(text), "\n") < Occurs(Breaks(text), "\r")
  {
    CountBreaks(text);
    BreaksAreNewlines(text);
    OccursAll(Breaks(text), LF);
    hide Count, Breaks;
  }

  /** Rewriting a text with its own detected newline changes nothing exactly when all its breaks
      are alike. */
  lemma {:induction false} DetectedIsIdentity(text: string)
    requires Detect(text).Some?
    ensures Normalize(text, Detect(text).value) == text <==>
              forall i, j | 0 <= i < |Breaks(text)| && 0 <= j < |Breaks(text)| :: Breaks(text)[i] == Breaks(text)[j]
  {
    var nl, breaks := Detect(text).value, Breaks(text);
    DetectIsMostFrequent(text);
    NormalizeIsIdentity(text, nl);
    hide Detect, Breaks, Normalize;
    Somewhere(breaks, nl);
    assert Uniform(text, nl) <==> forall i | 0 <= i < |breaks| :: breaks[i] == nl;
  }

  lemma {:induction false} Somewhere(breaks: seq<string>, newline: string)
    requires Occurs(breaks, newline) > 0
    ensures exists i :: 0 <= i < |breaks| && breaks[i] == newline
  {
    if breaks[0] != newline {
      Somewhere(breaks[1..], newline);
      var i :| 0 <= i < |breaks[1..]| && breaks[1..][i] == newline;
      assert breaks[i + 1] == newline;
    }
  }

  // ----- files -----

  type Byte = x: int | 0 <= x < 256

  const BOM: seq<Byte> := [0xEF, 0xBB, 0xBF]
  const BOM_CHAR: string := "\U{FEFF}"

  datatype Utf8Text = Utf8Text(text: string, newline: Option<string>, hasBom: bool)

  /** Decoding and encoding undo each other; the mark is the code of its character. */
  ghost predicate Codec(decode: seq<Byte> -> Option<string>, encode: string -> Option<seq<Byte>>) {
    && (forall b, t :: decode(b) == Some(t) <==> encode(t) == Some(b))
    && (forall b :: decode(BOM + b) == match decode(b) case None => None case Some(t) => Some(BOM_CHAR + t))
    && (forall t :: encode(BOM_CHAR + t) == match encode(t) case None => None case Some(b) => Some(BOM + b))
  }

  predicate HasBom(raw: seq<Byte>) {
    |raw| >= 3 && raw[..3] == BOM
  }

  /** Reading fails on bytes that are no UTF-8. */
  function Read(raw: seq<Byte>, decode: seq<Byte> -> Option<string>): Option<Utf8Text> {
    var body := if HasBom(raw) then raw[3..] else raw;
    match decode(body)
    case None => None
    case Some(text) => Some(Utf8Text(text, Detect(text), HasBom(raw)))
  }

  /** Writing fails on text that has no UTF-8 encoding. */
  function Write(text: string, newline: Option<string>, hasBom: bool,
      encode: string -> Option<seq<Byte>>): Option<seq<Byte>> {
    var normalized := if newline.Some? then Normalize(text, newline.value) else text;
    match encode(normalized)
    case None => None
    case Some(body) => Some(if hasBom then BOM + body else body)
  }

  /** Reading a file and writing it back with its own mark gives the same bytes. */
  lemma {:induction false} ReadThenWrite(raw: seq<Byte>, decode: seq<Byte> -> Option<string>,
      encode: string -> Option<seq<Byte>>)
    requires Codec(decode, encode) && Read(raw, decode).Some?
    ensures var file := Read(raw, decode).value; Write(file.text, None, file.hasBom, encode) == Some(raw)
  {
    if HasBom(raw) {
      assert raw == BOM + raw[3..];
    }
  }

  /** Writing it back with its detected newline gives the same bytes exactly when its line breaks
      are all alike. */
  lemma {:induction false} ReadThenRewrite(raw: seq<Byte>, decode: seq<Byte> -> Option<string>,
      encode: string -> Option<seq<Byte>>)
    requires Codec(decode, encode) && Read(raw, decode).Some? && Read(raw, decode).value.newline.Some?
    ensures var file := Read(raw, decode).value;
            Write(file.text, file.newline, file.hasBom, encode) == Some(raw) <==>
              forall i, j | 0 <= i < |Breaks(file.text)| && 0 <= j < |Breaks(file.text)| ::
                Breaks(file.text)[i] == Breaks(file.text)[j]
  {
    var file := Read(raw, decode).value;
    DetectedIsIdentity(file.text);
    ReadThenWrite(raw, decode, encode);
    var body := if HasBom(raw) then raw[3..] else raw;
    assert encode(file.text) == Some(body);
    var text := Normalize(file.text, file.newline.value);
    hide Normalize, Detect, Breaks;
    assert encode(text) == Some(body) <==> text == file.text;
    if encode(text).Some? {
      assert (BOM + encode(text).value)[3..] == encode(text).value;
    }
  }

  /** What is written comes back as written, mark and all, exactly when it carries a mark or does
      not itself begin with the mark's character. */
  lemma {:induction false} WriteThenRead(text: string, newline: Option<string>, hasBom: bool,
      decode: seq<Byte> -> Option<string>,
                      encode: string -> Option<seq<Byte>>)
    requires Codec(decode, encode) && Write(text, newline, hasBom, encode).Some?
    ensures var written := if newline.Some? then Normalize(text, newline.value) else text;
            var back := Read(Write(text, newline, hasBom, encode).value, decode);
            back == Some(Utf8Text(written, Detect(written), hasBom)) <==> hasBom || !StartsWith(written, BOM_CHAR)
  {
    var written := if newline.Some? then Normalize(text, newline.value) else text;
    var body := encode(written).value;
    hide Normalize, Detect;
    assert decode(body) == Some(written);
    if hasBom {
      assert (BOM + body)[..3] == BOM && (BOM + body)[3..] == body;
    } else if HasBom(body) {
      assert body == BOM + body[3..];
      assert decode(BOM + body[3..]) == Some(written);
      assert StartsWith(written, BOM_CHAR);
    } else {
      MarkOnlyFromBom(written, body, decode, encode);
    }
  }

  lemma {:induction false} MarkOnlyFromBom(text: string, body: seq<Byte>, decode: seq<Byte> -> Option<string>,
      encode: string -> Option<seq<Byte>>)
    requires Codec(decode, encode) && encode(text) == Some(body) && !HasBom(body)
    ensures !StartsWith(text, BOM_CHAR)
  {
    var rest := if text == "" then "" else text[1..];
    var marked := encode(BOM_CHAR + rest);
    if marked.Some? {
      assert marked.value == BOM + encode(rest).value;
      assert marked.value[..3] == BOM;
      assert marked.value != body;
    }
    assert StartsWith(text, BOM_CHAR) ==> text == BOM_CHAR + rest;
  }
}
