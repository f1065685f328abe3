/** The JavaScript string operations the core relies on, on `seq<char>`. */
module Strings {

  /** `pat` occurs in `s` starting at index `i`. */
  predicate OccursAt(s: string, pat: string, i: int) {
    0 <= i && i + |pat| <= |s| && s[i..i + |pat|] == pat
  }

  predicate StartsWith(s: string, pat: string) {
    OccursAt(s, pat, 0)
  }

  predicate EndsWith(s: string, pat: string) {
    OccursAt(s, pat, |s| - |pat|)
  }

  /** A string built as `pre + mid + post` starts with `pre` and ends with `post`. */
  lemma Framed(pre: string, mid: string, post: string)
    ensures StartsWith(pre + mid + post, pre) && EndsWith(pre + mid + post, post)
  {
    var r := pre + mid + post;
    assert r[..|pre|] == pre;
    assert r[|r| - |post|..] == post;
  }

  /** `s.indexOf(pat, from)`: the first occurrence at or after `from`, or -1. */
  function IndexOf(s: string, pat: string, from: nat): (r: int)
    ensures r == -1 || (from <= r && OccursAt(s, pat, r))
    ensures forall i :: from <= i && (r == -1 || i < r) ==> !OccursAt(s, pat, i)
    decreases |s| - from
  {
    if from + |pat| > |s| then -1
    else if s[from..from + |pat|] == pat then from
    else IndexOf(s, pat, from + 1)
  }

  /** `s.lastIndexOf(pat)` searched from index `upTo` downwards: the last occurrence at or before `upTo`, or -1. */
  function LastIndexOfFrom(s: string, pat: string, upTo: int): (r: int)
    ensures r == -1 || (0 <= r <= upTo && OccursAt(s, pat, r))
    ensures forall i :: i <= upTo && r < i ==> !OccursAt(s, pat, i)
    decreases upTo + 1
  {
    if upTo < 0 then -1
    else if OccursAt(s, pat, upTo) then upTo
    else LastIndexOfFrom(s, pat, upTo - 1)
  }

  /** `s.lastIndexOf(pat)`: the last occurrence, or -1. */
  function LastIndexOf(s: string, pat: string): (r: int)
    ensures r == -1 || OccursAt(s, pat, r)
    ensures forall i :: r < i ==> !OccursAt(s, pat, i)
  {
    LastIndexOfFrom(s, pat, |s| - |pat|)
  }

  /** `indexOf` finds the first occurrence. */
  lemma IndexOfFirst(s: string, pat: string, d: nat)
    requires OccursAt(s, pat, d) && forall i :: 0 <= i < d ==> !OccursAt(s, pat, i)
    ensures IndexOf(s, pat, 0) == d
  {
  }

  /** `lastIndexOf` finds the last occurrence. */
  lemma LastIndexOfLast(s: string, pat: string, h: nat)
    requires OccursAt(s, pat, h) && forall i :: h < i ==> !OccursAt(s, pat, i)
    ensures LastIndexOf(s, pat) == h
  {
  }

  predicate Contains(s: string, pat: string) {
    IndexOf(s, pat, 0) >= 0
  }

  /** The characters JavaScript's `String.prototype.trim` removes (WhiteSpace and LineTerminator of ECMA-262). */
  predicate IsJsWhitespace(c: char) {
    c == ' ' || c == '\t' || c == '\n' || c == '\r' || c == '\U{000B}' || c == '\U{000C}'
    || c == '\U{00A0}' || c == '\U{1680}' || ('\U{2000}' <= c <= '\U{200A}')
    || c == '\U{2028}' || c == '\U{2029}' || c == '\U{202F}' || c == '\U{205F}'
    || c == '\U{3000}' || c == '\U{FEFF}'
  }

  predicate IsBlank(s: string) {
    forall i :: 0 <= i < |s| ==> IsJsWhitespace(s[i])
  }

  function TrimStart(s: string): string {
    if s != [] && IsJsWhitespace(s[0]) then TrimStart(s[1..]) else s
  }

  function TrimEnd(s: string): string {
    if s != [] && IsJsWhitespace(s[|s| - 1]) then TrimEnd(s[..|s| - 1]) else s
  }

  /** `TrimStart` drops a prefix of white space and stops at the first other character. */
  lemma {:induction false} TrimStartShape(s: string)
    ensures var r := TrimStart(s); |r| <= |s| && r == s[|s| - |r|..] && (r == [] || !IsJsWhitespace(r[0]))
    ensures forall i :: 0 <= i < |s| - |TrimStart(s)| ==> IsJsWhitespace(s[i])
  {
    if s != [] && IsJsWhitespace(s[0]) {
      TrimStartShape(s[1..]);
      var r := TrimStart(s[1..]);
      assert s[1..][|s| - 1 - |r|..] == s[|s| - |r|..];
    }
  }

  /** `TrimEnd` drops a suffix of white space and stops at the last other character. */
  lemma {:induction false} TrimEndShape(s: string)
    ensures var r := TrimEnd(s); |r| <= |s| && r == s[..|r|] && (r == [] || !IsJsWhitespace(r[|r| - 1]))
    ensures forall i :: |TrimEnd(s)| <= i < |s| ==> IsJsWhitespace(s[i])
  {
    if s != [] && IsJsWhitespace(s[|s| - 1]) {
      TrimEndShape(s[..|s| - 1]);
      var r := TrimEnd(s[..|s| - 1]);
      assert s[..|s| - 1][..|r|] == s[..|r|];
    }
  }

  /** `s.trim()`: `s` with the white space at both of its ends removed, and nothing else. */
  function Trim(s: string): (r: string)
    ensures |r| <= |s|
    ensures r == [] || (!IsJsWhitespace(r[0]) && !IsJsWhitespace(r[|r| - 1]))
    ensures exists k :: 0 <= k <= |s| - |r| && r == s[k..k + |r|] && IsBlank(s[..k]) && IsBlank(s[k + |r|..])
  {
    TrimFrame(s);
    TrimEnd(TrimStart(s))
  }

  /** Trimming both ends keeps a middle slice of `s` whose two sides are blank; `k` is where it starts. */
  lemma TrimFrame(s: string)
    ensures var t := TrimStart(s); var r := TrimEnd(t); var k := |s| - |t|;
      0 <= k <= |s| - |r| && r == s[k..k + |r|] && IsBlank(s[..k]) && IsBlank(s[k + |r|..])
      && (r == [] || (!IsJsWhitespace(r[0]) && !IsJsWhitespace(r[|r| - 1])))
  {
    TrimStartShape(s);
    var t := TrimStart(s);
    TrimEndShape(t);
    var r := TrimEnd(t);
    var k := |s| - |t|;
    assert t == s[k..];
    assert r == t[..|r|];
    assert r == s[k..k + |r|];
    assert forall i :: k + |r| <= i < |s| ==> s[i] == t[i - k];
  }

  /** `s.trim()` is falsy (empty) exactly when every character of `s` is white space. */
  lemma {:induction false} TrimEmptyIffBlank(s: string)
    ensures Trim(s) == [] <==> IsBlank(s)
  {
    if s != [] && IsJsWhitespace(s[0]) {
      TrimEmptyIffBlank(s[1..]);
      assert IsBlank(s) <==> IsBlank(s[1..]) by {
        assert forall i :: 0 < i < |s| ==> s[i] == s[1..][i - 1];
        assert forall i :: 0 <= i < |s| - 1 ==> s[1..][i] == s[i + 1];
      }
    } else if s != [] {
      assert TrimStart(s) == s;
      TrimEndNonEmpty(s);
    }
  }

  lemma TrimEndNonEmpty(s: string)
    requires s != [] && !IsJsWhitespace(s[0])
    ensures TrimEnd(s) != []
  {
    if TrimEnd(s) == [] {
      TrimEndKeepsNonBlank(s);
    }
  }

  lemma {:induction false} TrimEndKeepsNonBlank(s: string)
    requires s != [] && !IsJsWhitespace(s[0])
    ensures |TrimEnd(s)| >= 1
  {
    if IsJsWhitespace(s[|s| - 1]) {
      assert |s| > 1;
      TrimEndKeepsNonBlank(s[..|s| - 1]);
    }
  }

  /** `url.replace(/\/+$/, '')`: removes the run of slashes at the end of `s`. */
  function StripTrailingSlashes(s: string): (r: string)
    ensures |r| <= |s| && r == s[..|r|]
    ensures forall i :: |r| <= i < |s| ==> s[i] == '/'
    ensures r == [] || r[|r| - 1] != '/'
  {
    if s != [] && s[|s| - 1] == '/' then StripTrailingSlashes(s[..|s| - 1]) else s
  }

  /** `String(n)` for a natural number: its decimal digits, with no leading zero. */
  function NatToString(n: nat): (r: string)
    ensures r != []
    ensures forall i :: 0 <= i < |r| ==> '0' <= r[i] <= '9'
    ensures n >= 10 ==> r[0] != '0'
  {
    if n < 10 then [DigitChar(n)] else NatToString(n / 10) + [DigitChar(n % 10)]
  }

  /** The character of the decimal digit `d`. */
  function DigitChar(d: nat): (c: char)
    requires d < 10
    ensures '0' <= c <= '9'
    ensures c as int - '0' as int == d
  {
    ['0', '1', '2', '3', '4', '5', '6', '7', '8', '9'][d]
  }

  /** The number a string of decimal digits denotes, read left to right. */
  function DecimalValue(r: string): int {
    if r == [] then 0 else DecimalValue(r[..|r| - 1]) * 10 + (r[|r| - 1] as int - '0' as int)
  }

  /** `String(n)` denotes `n`: reading its digits back gives the number. */
  lemma {:induction false} NatToStringValue(n: nat)
    ensures DecimalValue(NatToString(n)) == n
  {
    if n >= 10 {
      NatToStringValue(n / 10);
      assert NatToString(n)[..|NatToString(n)| - 1] == NatToString(n / 10);
    }
  }

  /** `parts.join(sep)`. */
  function Join(parts: seq<string>, sep: string): (r: string)
    ensures (forall i :: 0 <= i < |parts| ==> parts[i] != []) ==> (r == [] <==> parts == [])
  {
    if parts == [] then []
    else if |parts| == 1 then parts[0]
    else parts[0] + sep + Join(parts[1..], sep)
  }

  /** An occurrence anywhere makes `indexOf` succeed. */
  lemma OccursContains(s: string, pat: string, j: int)
    requires OccursAt(s, pat, j)
    ensures Contains(s, pat)
  {
  }

  /** Every part occurs in the joined string; `j` is where. */
  lemma {:induction false} JoinOccurs(parts: seq<string>, sep: string, i: nat) returns (j: nat)
    requires i < |parts|
    ensures OccursAt(Join(parts, sep), parts[i], j)
  {
    var r := Join(parts, sep);
    if |parts| == 1 {
      j := 0;
      assert r[0..|parts[0]|] == parts[0];
    } else if i == 0 {
      j := 0;
      assert r[0..|parts[0]|] == parts[0];
    } else {
      var j' := JoinOccurs(parts[1..], sep, i - 1);
      var tail := Join(parts[1..], sep);
      var off := |parts[0] + sep|;
      j := off + j';
      assert r == (parts[0] + sep) + tail;
      assert r[j..j + |parts[i]|] == tail[j'..j' + |parts[i]|];
    }
  }

  /** Every part occurs in the joined string however it is framed. */
  lemma FramedJoinContains(pre: string, parts: seq<string>, sep: string, post: string)
    ensures forall i :: 0 <= i < |parts| ==> Contains(pre + Join(parts, sep) + post, parts[i])
  {
    var joined := Join(parts, sep);
    var m := pre + joined + post;
    forall i | 0 <= i < |parts|
      ensures Contains(m, parts[i])
    {
      var j := JoinOccurs(parts, sep, i);
      assert m[|pre| + j..|pre| + j + |parts[i]|] == joined[j..j + |parts[i]|];
      OccursContains(m, parts[i], |pre| + j);
    }
  }
}
