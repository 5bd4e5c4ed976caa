/**
 * Python's `str` operations that the core uses, on `seq<char>`.
 * Case mapping covers ASCII letters only; `IsSpace` is the full set of
 * characters for which Python's `str.isspace()` holds.
 */
module Strings {
  import opened Wrappers

  /** `c.isspace()` in Python 3. */
  predicate IsSpace(c: char)
  {
    ('\U{0009}' <= c <= '\U{000D}') || ('\U{001C}' <= c <= '\U{0020}') || c == '\U{0085}' || c == '\U{00A0}'
    || c == '\U{1680}' || ('\U{2000}' <= c <= '\U{200A}') || c == '\U{2028}' || c == '\U{2029}'
    || c == '\U{202F}' || c == '\U{205F}' || c == '\U{3000}'
  }

  predicate IsAsciiUpper(c: char) { 'A' <= c <= 'Z' }

  predicate IsAsciiAlnum(c: char) { ('a' <= c <= 'z') || ('A' <= c <= 'Z') || ('0' <= c <= '9') }

  /** A character matched by the regular-expression class `\w` (ASCII part). */
  predicate IsWordChar(c: char) { IsAsciiAlnum(c) || c == '_' }

  function LowerChar(c: char): (r: char)
    ensures !IsAsciiUpper(r)
    ensures IsSpace(r) <==> IsSpace(c)
    ensures r == ' ' <==> c == ' '
    ensures IsWordChar(r) <==> IsWordChar(c)
    ensures !IsAsciiUpper(c) ==> r == c
  {
    if IsAsciiUpper(c) then (c as int + 32) as char else c
  }

  /** `s.lower()`. */
  function Lower(s: string): (r: string)
    ensures |r| == |s|
    ensures forall i :: 0 <= i < |s| ==> r[i] == LowerChar(s[i])
  {
    seq(|s|, i requires 0 <= i < |s| => LowerChar(s[i]))
  }

  predicate IsLowered(s: string) { forall i :: 0 <= i < |s| ==> !IsAsciiUpper(s[i]) }

  lemma LowerIsLowered(s: string)
    ensures IsLowered(Lower(s))
  {
  }

  lemma LowerOfLowered(s: string)
    requires IsLowered(s)
    ensures Lower(s) == s
  {
  }

  lemma LowerConcat(a: string, b: string)
    ensures Lower(a + b) == Lower(a) + Lower(b)
  {
  }

  lemma LowerSlice(s: string, i: int, j: int)
    requires 0 <= i <= j <= |s|
    ensures Lower(s[i..j]) == Lower(s)[i..j]
  {
  }

  predicate StartsWith(s: string, prefix: string)
  {
    |prefix| <= |s| && s[..|prefix|] == prefix
  }

  predicate EndsWith(s: string, suffix: string)
  {
    |suffix| <= |s| && s[|s| - |suffix|..] == suffix
  }

  /** `sub` occurs in `s` starting at index `i`. */
  predicate OccursAt(s: string, sub: string, i: int)
  {
    0 <= i && i + |sub| <= |s| && s[i..i + |sub|] == sub
  }

  /** `s.find(sub, i)`: the first occurrence at or after `i`, or -1. */
  function FindFrom(s: string, sub: string, i: nat): (r: int)
    ensures r == -1 || (i <= r && OccursAt(s, sub, r))
    ensures r == -1 ==> forall j :: i <= j ==> !OccursAt(s, sub, j)
    ensures r >= 0 ==> forall j :: i <= j < r ==> !OccursAt(s, sub, j)
    decreases |s| - i
  {
    if i + |sub| > |s| then -1
    else if s[i..i + |sub|] == sub then i
    else FindFrom(s, sub, i + 1)
  }

  /** `s.find(sub)`. */
  function Find(s: string, sub: string): (r: int)
    ensures r == -1 || OccursAt(s, sub, r)
    ensures r == -1 <==> forall j :: !OccursAt(s, sub, j)
    ensures r >= 0 ==> forall j :: 0 <= j < r ==> !OccursAt(s, sub, j)
  {
    FindFrom(s, sub, 0)
  }

  /** `sub in s` for two strings. */
  predicate Contains(s: string, sub: string)
  {
    Find(s, sub) >= 0
  }

  /** A text shorter than `sub` does not contain it. */
  lemma ShorterLacks(s: string, sub: string)
    requires |s| < |sub|
    ensures !Contains(s, sub)
  {
    assert FindFrom(s, sub, 0) == -1;
  }

  lemma ContainsAt(s: string, sub: string, i: int)
    requires OccursAt(s, sub, i)
    ensures Contains(s, sub)
  {
  }

  /** Lowercasing keeps every occurrence: `sub in s` implies `sub.lower() in s.lower()`. */
  lemma ContainsLowered(s: string, sub: string)
    requires Contains(s, sub)
    ensures Contains(Lower(s), Lower(sub))
  {
    var i := Find(s, sub);
    LowerSlice(s, i, i + |sub|);
    ContainsAt(Lower(s), Lower(sub), i);
  }

  lemma ContainsInPrefixOf(s: string, sub: string, t: string)
    requires Contains(s, sub)
    ensures Contains(s + t, sub)
  {
    var i := Find(s, sub);
    assert (s + t)[i..i + |sub|] == s[i..i + |sub|];
    ContainsAt(s + t, sub, i);
  }

  lemma ContainsInSuffixOf(t: string, s: string, sub: string)
    requires Contains(s, sub)
    ensures Contains(t + s, sub)
  {
    var i := Find(s, sub);
    assert (t + s)[|t| + i..|t| + i + |sub|] == s[i..i + |sub|];
    ContainsAt(t + s, sub, |t| + i);
  }

  lemma ContainsSelf(s: string)
    ensures Contains(s, s)
  {
    assert OccursAt(s, s, 0);
  }

  /** `s.rfind(sub, 0, i + |sub|)`: the last occurrence starting at or before `i`, or -1. */
  function RFindUpTo(s: string, sub: string, i: int): (r: int)
    requires i < |s| - |sub| + 1
    ensures r == -1 || (r <= i && OccursAt(s, sub, r))
    ensures r == -1 ==> forall j :: j <= i ==> !OccursAt(s, sub, j)
    ensures r >= 0 ==> forall j :: r < j <= i ==> !OccursAt(s, sub, j)
    decreases i + 1
  {
    if i < 0 then -1
    else if s[i..i + |sub|] == sub then i
    else RFindUpTo(s, sub, i - 1)
  }

  /** `s.rfind(sub)`. */
  function RFind(s: string, sub: string): (r: int)
    ensures r == -1 || OccursAt(s, sub, r)
    ensures r == -1 <==> forall j :: !OccursAt(s, sub, j)
    ensures r >= 0 ==> forall j :: r < j ==> !OccursAt(s, sub, j)
  {
    RFindUpTo(s, sub, |s| - |sub|)
  }

  /** `s.split(sep, 1)`: one piece when `sep` is absent, else the text around its first occurrence. */
  function SplitOnce(s: string, sep: string): (r: seq<string>)
    ensures |r| == 1 || |r| == 2
    ensures |r| == 1 <==> !Contains(s, sep)
    ensures |r| == 1 ==> r[0] == s
    ensures |r| == 2 ==> s == r[0] + sep + r[1] && (|sep| == 0 || !Contains(r[0], sep))
  {
    var i := Find(s, sep);
    if i < 0 then [s]
    else
      assert s == s[..i] + sep + s[i + |sep|..];
      NoEarlierOccurrence(s, sep, i);
      [s[..i], s[i + |sep|..]]
  }

  lemma NoEarlierOccurrence(s: string, sep: string, i: int)
    requires 0 <= i <= |s| && forall j :: 0 <= j < i ==> !OccursAt(s, sep, j)
    ensures |sep| > 0 ==> !Contains(s[..i], sep)
  {
    if |sep| > 0 && Contains(s[..i], sep) {
      var j := Find(s[..i], sep);
      assert s[..i][j..j + |sep|] == s[j..j + |sep|];
      assert OccursAt(s, sep, j);
    }
  }

  /** `s.rsplit(sep, 1)`: one piece when `sep` is absent, else the text around its last occurrence. */
  function RSplitOnce(s: string, sep: string): (r: seq<string>)
    ensures |r| == 1 || |r| == 2
    ensures |r| == 1 <==> !Contains(s, sep)
    ensures |r| == 1 ==> r[0] == s
    ensures |r| == 2 ==> s == r[0] + sep + r[1]
  {
    var i := RFind(s, sep);
    if i < 0 then [s]
    else
      assert s == s[..i] + sep + s[i + |sep|..];
      [s[..i], s[i + |sep|..]]
  }

  /** `s.split(sep)[0]`: the text before the first occurrence of `sep`. */
  function Before(s: string, sep: string): (r: string)
    ensures StartsWith(s, r)
    ensures |sep| > 0 ==> !Contains(r, sep)
    ensures !Contains(s, sep) ==> r == s
  {
    var i := Find(s, sep);
    NoEarlierOccurrence(s, sep, if i < 0 then |s| else i);
    if i < 0 then s else s[..i]
  }

  /** `s.split(sep)` for a non-empty separator. */
  function SplitAll(s: string, sep: string): (r: seq<string>)
    requires |sep| > 0
    ensures |r| >= 1
    ensures forall k :: 0 <= k < |r| ==> !Contains(r[k], sep)
    decreases |s|
  {
    var i := Find(s, sep);
    NoEarlierOccurrence(s, sep, if i < 0 then |s| else i);
    if i < 0 then [s]
    else [s[..i]] + SplitAll(s[i + |sep|..], sep)
  }

  /** `s.replace(target, replacement)` for a non-empty `target`; occurrences are replaced left to right. */
  function ReplaceAll(s: string, target: string, replacement: string): (r: string)
    requires |target| > 0
    ensures !Contains(s, target) ==> r == s
    decreases |s|
  {
    var i := Find(s, target);
    if i < 0 then s
    else s[..i] + replacement + ReplaceAll(s[i + |target|..], target, replacement)
  }

  /** The iteration `for c in s`: every character as a one-character string. */
  function Chars(s: string): (r: seq<string>)
    ensures |r| == |s|
    ensures forall i :: 0 <= i < |s| ==> r[i] == [s[i]]
  {
    seq(|s|, i requires 0 <= i < |s| => [s[i]])
  }

  /** `s.lstrip()`. */
  function TrimStart(s: string): (r: string)
    ensures EndsWith(s, r)
    ensures r == [] || !IsSpace(r[0])
    ensures forall i :: 0 <= i < |s| - |r| ==> IsSpace(s[i])
  {
    if s != [] && IsSpace(s[0]) then TrimStart(s[1..]) else s
  }

  /** `s.rstrip()`. */
  function TrimEnd(s: string): (r: string)
    ensures StartsWith(s, r)
    ensures r == [] || !IsSpace(r[|r| - 1])
    ensures forall i :: |r| <= i < |s| ==> IsSpace(s[i])
  {
    if s != [] && IsSpace(s[|s| - 1]) then TrimEnd(s[..|s| - 1]) else s
  }

  /** `s.strip()`. */
  function Strip(s: string): (r: string)
    ensures |r| <= |s|
    ensures r == [] || (!IsSpace(r[0]) && !IsSpace(r[|r| - 1]))
  {
    TrimEnd(TrimStart(s))
  }

  lemma StripNoEdgeSpace(s: string)
    requires s == [] || (!IsSpace(s[0]) && !IsSpace(s[|s| - 1]))
    ensures Strip(s) == s
  {
  }

  /** `s.rstrip(chars)`. */
  function RStripChars(s: string, chars: set<char>): (r: string)
    ensures StartsWith(s, r)
    ensures r == [] || r[|r| - 1] !in chars
  {
    if s != [] && s[|s| - 1] in chars then RStripChars(s[..|s| - 1], chars) else s
  }

  /** An occurrence inside a slice is an occurrence in the whole text. */
  lemma ContainsOfSlice(s: string, sub: string, i: int, j: int)
    requires 0 <= i <= j <= |s|
    ensures Contains(s[i..j], sub) ==> Contains(s, sub)
  {
    if Contains(s[i..j], sub) {
      var w := s[i..j];
      var k := Find(w, sub);
      assert OccursAt(w, sub, k);
      assert w[k..k + |sub|] == s[i + k..i + k + |sub|];
      assert OccursAt(s, sub, i + k);
      ContainsAt(s, sub, i + k);
    }
  }

  /** The stripped text is a slice of the text. */
  lemma StripIsSlice(s: string) returns (a: nat)
    ensures a + |Strip(s)| <= |s| && Strip(s) == s[a..a + |Strip(s)|]
  {
    var t := TrimStart(s);
    var u := TrimEnd(t);
    assert EndsWith(s, t) && StartsWith(t, u);
    a := |s| - |t|;
    assert u == s[a..][..|u|];
    assert s[a..][..|u|] == s[a..a + |u|];
  }

  /** Stripping never creates an occurrence. */
  lemma ContainsOfStrip(s: string, sub: string)
    ensures Contains(Strip(s), sub) ==> Contains(s, sub)
  {
    var a := StripIsSlice(s);
    ContainsOfSlice(s, sub, a, a + |Strip(s)|);
  }

  /** `s[:n]`. */
  function Take(s: string, n: nat): (r: string)
    ensures |r| <= n && StartsWith(s, r)
    ensures |s| <= n ==> r == s
  {
    if |s| <= n then s else s[..n]
  }

  /** Length of the leading run of non-whitespace characters. */
  function WordLen(s: string): (n: nat)
    ensures n <= |s|
    ensures forall i :: 0 <= i < n ==> !IsSpace(s[i])
    ensures n < |s| ==> IsSpace(s[n])
  {
    if s == [] || IsSpace(s[0]) then 0 else 1 + WordLen(s[1..])
  }

  predicate NoSpace(w: string) { forall i :: 0 <= i < |w| ==> !IsSpace(w[i]) }

  /** `s.split()` with no argument: the maximal runs of non-whitespace characters. */
  function Words(s: string): (ws: seq<string>)
    ensures forall k :: 0 <= k < |ws| ==> ws[k] != [] && NoSpace(ws[k])
    decreases |s|
  {
    if s == [] then []
    else if IsSpace(s[0]) then Words(s[1..])
    else
      var n := WordLen(s);
      [s[..n]] + Words(s[n..])
  }

  /** `sep.join(parts)`. */
  function Join(sep: string, parts: seq<string>): (r: string)
  {
    if parts == [] then []
    else if |parts| == 1 then parts[0]
    else parts[0] + sep + Join(sep, parts[1..])
  }

  /** The ASCII digit for `d`. */
  function DigitChar(d: nat): (c: char)
    requires d < 10
    ensures '0' <= c <= '9' && c as int - '0' as int == d
  {
    ('0' as int + d) as char
  }

  function NatToString(n: nat): (r: string)
    ensures |r| >= 1
    ensures forall i :: 0 <= i < |r| ==> '0' <= r[i] <= '9'
    decreases n
  {
    if n < 10 then [DigitChar(n)] else NatToString(n / 10) + [DigitChar(n % 10)]
  }

  /** `str(n)` for an integer. */
  function IntToString(n: int): (r: string)
    ensures |r| >= 1
    ensures n >= 0 ==> '0' <= r[0] <= '9'
    ensures n < 0 ==> r[0] == '-'
  {
    if n < 0 then "-" + NatToString(-n) else NatToString(n)
  }

  /**
   * `int(s)` for a string: surrounding whitespace is ignored, a sign is
   * allowed, and single underscores may separate ASCII digits.
   */
  function ParseInt(s: string): (r: Option<int>)
  {
    var t := Strip(s);
    if t == [] then None
    else if t[0] == '-' then
      match ParseDigits(t[1..]) { case Some(n) => Some(-(n as int)) case None => None }
    else if t[0] == '+' then
      match ParseDigits(t[1..]) { case Some(n) => Some(n) case None => None }
    else
      match ParseDigits(t) { case Some(n) => Some(n) case None => None }
  }

  /** Reading back the decimal text of a natural number gives the number. */
  lemma {:induction false} ParseNatToString(n: nat)
    ensures ParseDigits(NatToString(n)) == Some(n)
    decreases n
  {
    var t := NatToString(n);
    assert t[|t| - 1] == DigitChar(n % 10);
    if n >= 10 {
      var rest := NatToString(n / 10);
      ParseNatToString(n / 10);
      assert t[..|t| - 1] == rest;
      assert rest[|rest| - 1] != '_';
      assert 10 * (n / 10) + n % 10 == n;
    }
  }

  /** `int(str(n)) == n`. */
  lemma ParseIntToString(n: int)
    ensures ParseInt(IntToString(n)) == Some(n)
  {
    var s := IntToString(n);
    StripOfIntToString(n);
    if n < 0 {
      var m: nat := -n;
      assert s[1..] == NatToString(m);
      ParseNatToString(m);
      assert ParseDigits(s[1..]) == Some(m);
    } else {
      ParseNatToString(n);
      assert s[0] != '-' && s[0] != '+';
      assert ParseDigits(s) == Some(n);
    }
  }

  lemma StripOfIntToString(n: int)
    ensures Strip(IntToString(n)) == IntToString(n)
  {
    var s := IntToString(n);
    var last := s[|s| - 1];
    assert '0' <= last <= '9' by {
      if n < 0 {
        assert last == NatToString(-n)[|NatToString(-n)| - 1];
      }
    }
    assert !IsSpace(s[0]) && !IsSpace(last);
    StripNoEdgeSpace(s);
  }

  /** Digits with optional single underscores between them, most significant first. */
  function ParseDigits(t: string): (r: Option<nat>)
    decreases |t|
  {
    if t == [] || !('0' <= t[|t| - 1] <= '9') then None
    else
      var d := (t[|t| - 1] as int - '0' as int);
      var rest := t[..|t| - 1];
      if rest == [] then Some(d)
      else
        var rest' := if rest[|rest| - 1] == '_' then rest[..|rest| - 1] else rest;
        match ParseDigits(rest') {
          case Some(n) => Some(10 * n + d)
          case None => None
        }
  }
}
