/** Shared vocabulary: optional values and the text helpers the models use. */
module Common {

  datatype Option<+T> = None | Some(value: T)

  /** The characters Python's `str.strip()` removes. */
  predicate IsSpace(c: char) {
    var n := c as int;
    9 <= n <= 13 || 28 <= n <= 32 || n == 0x85 || n == 0xA0 || n == 0x1680
    || 0x2000 <= n <= 0x200A || n == 0x2028 || n == 0x2029 || n == 0x202F || n == 0x205F || n == 0x3000
  }

  predicate Blank(s: string) {
    forall i | 0 <= i < |s| :: IsSpace(s[i])
  }

  function StripLeft(s: string): string {
    if s != "" && IsSpace(s[0]) then StripLeft(s[1..]) else s
  }

  function StripRight(s: string): string {
    if s != "" && IsSpace(s[|s| - 1]) then StripRight(s[..|s| - 1]) else s
  }

  function Strip(s: string): string {
    StripRight(StripLeft(s))
  }

  function Flatten(chunks: seq<string>): string {
    if chunks == [] then "" else Flatten(chunks[..|chunks| - 1]) + chunks[|chunks| - 1]
  }

  ghost predicate Distinct<T>(s: seq<T>) {
    forall i, j | 0 <= i < j < |s| :: s[i] != s[j]
  }

  lemma {:induction false} FlattenAppend(chunks: seq<string>, last: string)
    ensures Flatten(chunks + [last]) == Flatten(chunks) + last
  {
    assert (chunks + [last])[..|chunks|] == chunks;
  }

  // ----- what stripping does -----

  /** The text without the white space at its ends. */
  ghost predicate Trims(text: string, result: string) {
    exists a, b :: 0 <= a <= b <= |text| && result == text[a..b]
                   && (forall k | 0 <= k < a :: IsSpace(text[k])) && (forall k | b <= k < |text| :: IsSpace(text[k]))
                   && (result == "" || (!IsSpace(result[0]) && !IsSpace(result[|result| - 1])))
  }

  lemma {:induction false} LeftIsStripped(text: string) returns (a: nat)
    ensures a <= |text| && StripLeft(text) == text[a..] && forall k | 0 <= k < a :: IsSpace(text[k])
    ensures a < |text| ==> !IsSpace(text[a])
  {
    if text != "" && IsSpace(text[0]) {
      var b := LeftIsStripped(text[1..]);
      a := b + 1;
      forall k | 0 <= k < a ensures IsSpace(text[k]) {
        assert k > 0 ==> text[k] == text[1..][k - 1];
      }
    } else {
      a := 0;
    }
  }

  lemma {:induction false} RightIsStripped(text: string) returns (b: nat)
    ensures b <= |text| && StripRight(text) == text[..b] && forall k | b <= k < |text| :: IsSpace(text[k])
    ensures b > 0 ==> !IsSpace(text[b - 1])
  {
    if text != "" && IsSpace(text[|text| - 1]) {
      b := RightIsStripped(text[..|text| - 1]);
    } else {
      b := |text|;
    }
  }

  lemma {:induction false} StripTrims(text: string)
    ensures Trims(text, Strip(text))
  {
    var a := LeftIsStripped(text);
    var b := RightIsStripped(text[a..]);
    assert Strip(text) == text[a..][..b] == text[a..a + b];
    hide IsSpace, StripLeft, StripRight;
    forall k | a + b <= k < |text| ensures IsSpace(text[k]) {
      assert text[k] == text[a..][k - a];
    }
  }

  /** From a to b is what is left of the text between the white space at its ends. */
  ghost predicate Between(text: string, a: int, b: int) {
    && 0 <= a <= b <= |text|
    && (forall k | 0 <= k < a :: IsSpace(text[k])) && (forall k | b <= k < |text| :: IsSpace(text[k]))
    && (a < b ==> !IsSpace(text[a]) && !IsSpace(text[b - 1]))
  }

  lemma {:induction false} BetweenOnce(text: string, a: int, b: int, c: int, d: int)
    requires Between(text, a, b) && Between(text, c, d) && a < b
    ensures c == a && d == b
  {
    hide IsSpace;
    assert !IsSpace(text[a]) && !IsSpace(text[b - 1]);
  }

  lemma {:induction false} TrimsBetween(text: string, r: string) returns (a: int, b: int)
    requires Trims(text, r)
    ensures Between(text, a, b) && a <= b && r == text[a..b]
  {
    hide IsSpace;
    a, b :| 0 <= a <= b <= |text| && r == text[a..b]
      && (forall k | 0 <= k < a :: IsSpace(text[k])) && (forall k | b <= k < |text| :: IsSpace(text[k]))
      && (r == "" || (!IsSpace(r[0]) && !IsSpace(r[|r| - 1])));
  }

  lemma {:induction false} TrimsOnce(text: string, r: string, r': string)
    requires Trims(text, r) && Trims(text, r')
    ensures r == r'
  {
    var a, b := TrimsBetween(text, r);
    var c, d := TrimsBetween(text, r');
    hide Trims, IsSpace;
    if a < b {
      BetweenOnce(text, a, b, c, d);
    } else if c < d {
      BetweenOnce(text, c, d, a, b);
    }
  }
}
