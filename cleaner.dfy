/**
 * Text normalisation for leads, companies and job postings
 * (`normalize_whitespace`, `normalize_company_name`, `normalize_location`
 * and the three `clean_*_data` functions).
 */
module DataCleaner {
  import opened Wrappers
  import opened Strings
  import opened Py

  // ---------------------------------------------------------------------------
  // Whitespace

  /** `' '.join(s.split()).strip()`. */
  function Collapse(s: string): string
  {
    Strip(Join(" ", Words(s)))
  }

  /**
   * Text in the form `normalize_whitespace` produces: every whitespace
   * character is a plain space that sits between two non-whitespace
   * characters.
   */
  predicate WhitespaceNormal(s: string)
  {
    forall i :: 0 <= i < |s| && IsSpace(s[i]) ==> s[i] == ' ' && 0 < i < |s| - 1 && !IsSpace(s[i + 1])
  }

  lemma {:induction false} JoinWordsNormal(ws: seq<string>)
    requires forall k :: 0 <= k < |ws| ==> ws[k] != [] && NoSpace(ws[k])
    ensures WhitespaceNormal(Join(" ", ws))
    ensures ws != [] ==> Join(" ", ws) != [] && Join(" ", ws)[0] == ws[0][0]
    ensures ws == [] ==> Join(" ", ws) == []
    decreases |ws|
  {
    if |ws| > 1 {
      var w, j := ws[0], Join(" ", ws[1..]);
      JoinWordsNormal(ws[1..]);
      var t := w + " " + j;
      assert Join(" ", ws) == t;
      forall i | 0 <= i < |t| && IsSpace(t[i])
        ensures t[i] == ' ' && 0 < i < |t| - 1 && !IsSpace(t[i + 1])
      {
        if i > |w| {
          assert t[i] == j[i - |w| - 1];
          assert i + 1 < |t| ==> t[i + 1] == j[i - |w|];
        }
      }
    }
  }

  lemma {:induction false} WordsOfSpaceLed(s: string)
    requires s != [] && IsSpace(s[0])
    ensures Words(s) == Words(s[1..])
  {
  }

  /** Splitting normal text on whitespace and joining with single spaces gives it back. */
  lemma {:induction false} JoinWordsOfNormal(s: string)
    requires WhitespaceNormal(s)
    ensures Join(" ", Words(s)) == s
    decreases |s|
  {
    if s != [] {
      var n := WordLen(s);
      assert Words(s) == [s[..n]] + Words(s[n..]);
      if n < |s| {
        var rest := s[n + 1..];
        WordsOfSpaceLed(s[n..]);
        assert s[n..][1..] == rest;
        assert WhitespaceNormal(rest) by {
          forall i | 0 <= i < |rest| && IsSpace(rest[i])
            ensures rest[i] == ' ' && 0 < i < |rest| - 1 && !IsSpace(rest[i + 1])
          {
            assert rest[i] == s[n + 1 + i];
          }
        }
        JoinWordsOfNormal(rest);
        var ws := Words(rest);
        assert ws != [] by { assert !IsSpace(rest[0]); }
        assert ([s[..n]] + ws)[1..] == ws;
        assert s == s[..n] + " " + rest;
      }
    }
  }

  /** `normalize_whitespace` always produces normal text. */
  lemma CollapseNormal(s: string)
    ensures WhitespaceNormal(Collapse(s))
    ensures Collapse(s) == Join(" ", Words(s))
  {
    JoinWordsNormal(Words(s));
    StripNoEdgeSpace(Join(" ", Words(s)));
  }

  /** Normal text is left alone by `normalize_whitespace`. */
  lemma CollapseOfNormal(s: string)
    requires WhitespaceNormal(s)
    ensures Collapse(s) == s
  {
    JoinWordsOfNormal(s);
    StripNoEdgeSpace(s);
  }

  /** `normalize_whitespace` is idempotent, and its fixed points are exactly the normal texts. */
  lemma CollapseIdempotent(s: string)
    ensures Collapse(Collapse(s)) == Collapse(s)
    ensures Collapse(s) == s <==> WhitespaceNormal(s)
  {
    CollapseNormal(s);
    CollapseOfNormal(Collapse(s));
    if WhitespaceNormal(s) { CollapseOfNormal(s); }
  }

  lemma {:induction false} WordsEmpty(s: string)
    ensures Words(s) == [] <==> forall i :: 0 <= i < |s| ==> IsSpace(s[i])
    decreases |s|
  {
    if s != [] && IsSpace(s[0]) {
      WordsEmpty(s[1..]);
      assert forall i :: 1 <= i < |s| ==> s[i] == s[1..][i - 1];
    }
  }

  /** `normalize_whitespace` gives the empty string exactly for whitespace-only text. */
  lemma CollapseEmpty(s: string)
    ensures Collapse(s) == [] <==> forall i :: 0 <= i < |s| ==> IsSpace(s[i])
  {
    CollapseNormal(s);
    WordsEmpty(s);
    JoinWordsNormal(Words(s));
  }

  lemma LowerNormal(s: string)
    requires WhitespaceNormal(s)
    ensures WhitespaceNormal(Lower(s))
  {
  }

  lemma {:induction false} WordsLowered(s: string)
    requires IsLowered(s)
    ensures forall k :: 0 <= k < |Words(s)| ==> IsLowered(Words(s)[k])
    decreases |s|
  {
    if s != [] {
      if IsSpace(s[0]) {
        WordsLowered(s[1..]);
      } else {
        WordsLowered(s[WordLen(s)..]);
      }
    }
  }

  lemma {:induction false} JoinLowered(ws: seq<string>)
    requires forall k :: 0 <= k < |ws| ==> IsLowered(ws[k])
    ensures IsLowered(Join(" ", ws))
    decreases |ws|
  {
    if |ws| > 1 {
      JoinLowered(ws[1..]);
    }
  }

  /** Lower-case text stays lower-case under `normalize_whitespace`. */
  lemma CollapseLowered(s: string)
    requires IsLowered(s)
    ensures IsLowered(Collapse(s))
  {
    WordsLowered(s);
    JoinLowered(Words(s));
    CollapseNormal(s);
  }

  /** A prefix of normal text that does not end in whitespace is normal. */
  lemma PrefixNormal(n: string, x: string)
    requires WhitespaceNormal(n) && StartsWith(n, x)
    requires x == [] || !IsSpace(x[|x| - 1])
    ensures WhitespaceNormal(x)
  {
    forall i | 0 <= i < |x| && IsSpace(x[i])
      ensures x[i] == ' ' && 0 < i < |x| - 1 && !IsSpace(x[i + 1])
    {
      assert x[i] == n[i];
      assert i + 1 < |n| && n[i + 1] == x[i + 1];
    }
  }

  /** Stripping a prefix of normal text leaves a prefix of it that is normal. */
  lemma StripPrefixOfNormal(n: string, x: string)
    requires WhitespaceNormal(n) && StartsWith(n, x)
    ensures StartsWith(n, Strip(x)) && WhitespaceNormal(Strip(x))
  {
    assert TrimStart(x) == x;
    PrefixNormal(n, Strip(x));
  }

  // ---------------------------------------------------------------------------
  // Company names

  /** The legal-form words of the suffix pattern, lower-cased. */
  const SuffixWords: seq<string> := ["inc", "llc", "ltd", "corp", "corporation", "limited", "incorporated"]

  /** `\.?\,?\s*$` matches the whole of `t`. */
  predicate TailOk(t: string)
  {
    var t1 := if t != [] && t[0] == '.' then t[1..] else t;
    var t2 := if t1 != [] && t1[0] == ',' then t1[1..] else t1;
    forall i :: 0 <= i < |t2| ==> IsSpace(t2[i])
  }

  lemma TailChars(t: string)
    requires TailOk(t)
    ensures forall i :: 0 <= i < |t| ==> t[i] == '.' || t[i] == ',' || IsSpace(t[i])
  {
    var t1 := if t != [] && t[0] == '.' then t[1..] else t;
    var t2 := if t1 != [] && t1[0] == ',' then t1[1..] else t1;
    // `t2` is `t` without its first `d` characters, each of them a dot or a comma.
    var d := |t| - |t2|;
    assert t2 == t[d..];
    assert forall i :: 0 <= i < d ==> t[i] == '.' || t[i] == ',';
    forall i | d <= i < |t| ensures IsSpace(t[i]) {
      assert t[i] == t2[i - d];
    }
  }

  /** `t` starts with the legal-form word `k` (in any ASCII case) followed by an accepted tail. */
  predicate WordThenTail(t: string, k: string)
  {
    |k| <= |t| && Lower(t[..|k|]) == k && TailOk(t[|k|..])
  }

  /** `(?:Inc|LLC|Ltd|Corp|Corporation|Limited|Incorporated)\.?\,?\s*$` matches all of `t`, ignoring case. */
  predicate SuffixMatch(t: string)
  {
    WordThenTail(t, "inc") || WordThenTail(t, "llc") || WordThenTail(t, "ltd") || WordThenTail(t, "corp")
    || WordThenTail(t, "corporation") || WordThenTail(t, "limited") || WordThenTail(t, "incorporated")
  }

  /** `\b` holds between `s[p-1]` and `s[p]`. */
  predicate WordBoundary(s: string, p: int)
    requires 0 <= p <= |s|
  {
    (p > 0 && IsWordChar(s[p - 1])) != (p < |s| && IsWordChar(s[p]))
  }

  predicate SuffixAt(s: string, p: int)
  {
    0 <= p <= |s| && WordBoundary(s, p) && SuffixMatch(s[p..])
  }

  /** The leftmost position at or after `p` where the suffix pattern matches, or -1. */
  function FindSuffix(s: string, p: nat): (q: int)
    ensures q == -1 || (p <= q && SuffixAt(s, q))
    ensures q == -1 ==> forall j :: p <= j ==> !SuffixAt(s, j)
    ensures q >= 0 ==> forall j :: p <= j < q ==> !SuffixAt(s, j)
    decreases |s| - p
  {
    if p > |s| then -1
    else if SuffixAt(s, p) then p
    else FindSuffix(s, p + 1)
  }

  /** `re.sub(suffix_pattern, '', s, flags=re.IGNORECASE)`. */
  function RemoveSuffix(s: string): (r: string)
    ensures StartsWith(s, r)
  {
    var q := FindSuffix(s, 0);
    if q < 0 then s else s[..q]
  }

  /** Step 3: strip trailing `.` and `,` when the text does not end in a letter or digit. */
  function TidyEnd(a: string): string
  {
    if a != [] && !IsAsciiAlnum(a[|a| - 1]) then Strip(RStripChars(a, {'.', ','})) else a
  }

  /** `normalize_company_name`. */
  function NormalizeCompanyName(name: Option<string>): (r: Option<string>)
  {
    if name.None? || name.value == [] then None
    else
      var n := Collapse(name.value);
      if n == [] then None
      else
        var c := Collapse(TidyEnd(Strip(RemoveSuffix(n))));
        if c == [] then Some(n) else Some(c)
  }

  /** Steps 2 and 3 only ever cut text off the end of the whitespace-normalised name. */
  lemma CutIsPrefix(n: string)
    requires WhitespaceNormal(n)
    ensures StartsWith(n, TidyEnd(Strip(RemoveSuffix(n))))
    ensures WhitespaceNormal(TidyEnd(Strip(RemoveSuffix(n))))
    ensures Collapse(TidyEnd(Strip(RemoveSuffix(n)))) == TidyEnd(Strip(RemoveSuffix(n)))
  {
    var a := Strip(RemoveSuffix(n));
    StripPrefixOfNormal(n, RemoveSuffix(n));
    if a != [] && !IsAsciiAlnum(a[|a| - 1]) {
      StripPrefixOfNormal(n, RStripChars(a, {'.', ','}));
    }
    CollapseOfNormal(TidyEnd(a));
  }

  /**
   * `normalize_company_name` gives `None` exactly for a missing or
   * whitespace-only name; otherwise a non-empty, whitespace-normal
   * prefix of the whitespace-normalised name.
   */
  lemma NormalizeCompanyNameShape(name: Option<string>)
    ensures NormalizeCompanyName(name).None? <==> name.None? || forall i :: 0 <= i < |name.value| ==> IsSpace(name.value[i])
    ensures NormalizeCompanyName(name).Some? ==>
      var r := NormalizeCompanyName(name).value;
      r != [] && WhitespaceNormal(r) && StartsWith(Collapse(name.value), r)
  {
    if name.Some? {
      CollapseEmpty(name.value);
      var n := Collapse(name.value);
      CollapseNormal(name.value);
      if n != [] {
        CutIsPrefix(n);
        assert StartsWith(n, n);
      }
    }
  }

  /** A name with no legal-form suffix and no trailing `.`/`,` comes back whitespace-normalised only. */
  lemma NoSuffixUnchanged(name: string)
    requires Collapse(name) != []
    requires FindSuffix(Collapse(name), 0) == -1
    requires var n := Collapse(name); n[|n| - 1] != '.' && n[|n| - 1] != ','
    ensures NormalizeCompanyName(Some(name)) == Some(Collapse(name))
  {
    var n := Collapse(name);
    CollapseNormal(name);
    StripNoEdgeSpace(n);
    assert RemoveSuffix(n) == n;
    assert RStripChars(n, {'.', ','}) == n;
    assert TidyEnd(n) == n;
    CollapseOfNormal(n);
  }

  lemma SuffixWordLetters(t: string, k: string)
    requires WordThenTail(t, k)
    requires forall i :: 0 <= i < |k| ==> 'a' <= k[i] <= 'z'
    ensures k != [] ==> IsWordChar(t[0])
    ensures forall i :: 0 <= i < |k| ==> IsAsciiAlnum(t[i]) && !IsSpace(t[i])
  {
    forall i | 0 <= i < |k| ensures IsAsciiAlnum(t[i]) && !IsSpace(t[i]) {
      assert Lower(t[..|k|])[i] == LowerChar(t[i]);
    }
  }

  /** Facts shared by all seven alternatives: a match is letters followed by punctuation or whitespace. */
  lemma SuffixMatchShape(t: string) returns (k: string)
    requires SuffixMatch(t)
    ensures k in SuffixWords && WordThenTail(t, k) && k != []
    ensures forall i :: 0 <= i < |k| ==> IsAsciiAlnum(t[i]) && !IsSpace(t[i])
    ensures forall i :: |k| <= i < |t| ==> t[i] == '.' || t[i] == ',' || IsSpace(t[i])
  {
    if WordThenTail(t, "inc") { k := "inc"; }
    else if WordThenTail(t, "llc") { k := "llc"; }
    else if WordThenTail(t, "ltd") { k := "ltd"; }
    else if WordThenTail(t, "corp") { k := "corp"; }
    else if WordThenTail(t, "corporation") { k := "corporation"; }
    else if WordThenTail(t, "limited") { k := "limited"; }
    else { k := "incorporated"; }
    SuffixWordLetters(t, k);
    TailChars(t[|k|..]);
    forall i | |k| <= i < |t| ensures t[i] == '.' || t[i] == ',' || IsSpace(t[i]) {
      assert t[i] == t[|k|..][i - |k|];
    }
  }

  /** The tails the pattern accepts after the legal-form word in whitespace-normal text. */
  predicate PlainTail(tail: string) { tail == "" || tail == "." || tail == "," || tail == ".," }

  /** The word `k` is one of the legal forms in some ASCII capitalisation. */
  predicate LegalForm(k: string) { Lower(k) in SuffixWords }

  lemma LegalFormMatches(k: string, tail: string)
    requires LegalForm(k) && PlainTail(tail)
    ensures SuffixMatch(k + tail)
  {
    var t := k + tail;
    assert t[..|k|] == k && t[|k|..] == tail;
    assert TailOk(tail);
  }

  /** Only the final legal-form word can match in `w k tail`: an earlier match would need letters in its tail. */
  lemma SuffixAtEnd(w: string, k: string, tail: string)
    requires w != [] && LegalForm(k) && PlainTail(tail)
    requires w[|w| - 1] != ' '
    ensures FindSuffix(w + " " + k + tail, 0) == |w| + 1
  {
    var s := w + " " + k + tail;
    var q0 := |w| + 1;
    assert s[q0..] == k + tail;
    LegalFormMatches(k, tail);
    var m := SuffixMatchShape(k + tail);
    assert IsWordChar(s[q0]) && s[q0 - 1] == ' ';
    assert SuffixAt(s, q0);
    forall j | 0 <= j < q0 ensures !SuffixAt(s, j) {
      if SuffixAt(s, j) {
        var kk := SuffixMatchShape(s[j..]);
      }
    }
  }

  lemma SuffixedNameNormal(w: string, k: string, tail: string)
    requires w != [] && WhitespaceNormal(w) && k != [] && NoSpace(k) && PlainTail(tail)
    ensures WhitespaceNormal(w + " " + k + tail)
  {
    var name := w + " " + k + tail;
    forall i | 0 <= i < |name| && IsSpace(name[i])
      ensures name[i] == ' ' && 0 < i < |name| - 1 && !IsSpace(name[i + 1])
    {
      if i < |w| {
        assert name[i] == w[i];
        assert i + 1 < |w| ==> name[i + 1] == w[i + 1];
      } else if i == |w| {
        assert name[i + 1] == k[0];
      }
    }
  }

  lemma StripTrailingSpace(w: string)
    requires w != [] && !IsSpace(w[0]) && !IsSpace(w[|w| - 1])
    ensures Strip(w + " ") == w
  {
    assert TrimStart(w + " ") == w + " ";
    assert (w + " ")[..|w|] == w;
  }

  /** On whitespace-normal text only the suffix removal and the end tidying act. */
  lemma NormalizeOfNormal(n: string)
    requires n != [] && WhitespaceNormal(n)
    ensures var c := TidyEnd(Strip(RemoveSuffix(n)));
      NormalizeCompanyName(Some(n)) == if c == [] then Some(n) else Some(c)
  {
    CollapseOfNormal(n);
    CutIsPrefix(n);
  }

  lemma RemoveLegalSuffix(w: string, k: string, tail: string)
    requires w != [] && WhitespaceNormal(w) && LegalForm(k) && PlainTail(tail)
    ensures RemoveSuffix(w + " " + k + tail) == w + " "
  {
    assert w[|w| - 1] != ' ' by { assert !IsSpace(w[|w| - 1]); }
    SuffixAtEnd(w, k, tail);
    assert (w + " " + k + tail)[..|w| + 1] == w + " ";
  }

  /**
   * The trailing legal-form word and its punctuation are dropped: a normal
   * name `w k tail` becomes `w` tidied at its end, or the whole name when
   * nothing would remain.
   */
  lemma DropsLegalSuffix(w: string, k: string, tail: string)
    requires w != [] && WhitespaceNormal(w) && LegalForm(k) && PlainTail(tail)
    requires NoSpace(k)
    ensures var name := w + " " + k + tail;
      NormalizeCompanyName(Some(name))
        == if TidyEnd(w) == [] then Some(name) else Some(TidyEnd(w))
  {
    assert k != [] by { assert |Lower(k)| == |k|; }
    SuffixedNameNormal(w, k, tail);
    RemoveLegalSuffix(w, k, tail);
    assert !IsSpace(w[0]) && !IsSpace(w[|w| - 1]);
    StripTrailingSpace(w);
    NormalizeOfNormal(w + " " + k + tail);
  }

  lemma WordWithTailNormal(k: string, tail: string)
    requires NoSpace(k) && PlainTail(tail)
    ensures NoSpace(k + tail) && WhitespaceNormal(k + tail)
  {
    var name := k + tail;
    forall i | 0 <= i < |name| ensures !IsSpace(name[i]) {
      if i < |k| { assert name[i] == k[i]; } else { assert name[i] == tail[i - |k|]; }
    }
  }

  /** A name that is only a legal-form word is kept, as the source's fallback returns it. */
  lemma KeepsBareLegalForm(k: string, tail: string)
    requires LegalForm(k) && PlainTail(tail) && NoSpace(k)
    ensures NormalizeCompanyName(Some(k + tail)) == Some(k + tail)
  {
    var name := k + tail;
    assert k != [] by { assert |Lower(k)| == |k|; }
    LegalFormMatches(k, tail);
    var m := SuffixMatchShape(name);
    assert SuffixAt(name, 0);
    WordWithTailNormal(k, tail);
    CollapseOfNormal(name);
    assert RemoveSuffix(name) == [];
  }

  /** `normalize_location`: `None` for a missing or empty location, else whitespace-normalised. */
  function NormalizeLocation(location: Option<string>): (r: Option<string>)
    ensures r.None? <==> location.None? || location.value == []
    ensures r.Some? ==> WhitespaceNormal(r.value)
  {
    if location.None? || location.value == [] then None
    else
      CollapseNormal(location.value);
      Some(Collapse(location.value))
  }

  // ---------------------------------------------------------------------------
  // Field values

  /** A field value after normalisation: `None` or whitespace-normal text. */
  predicate NormalText(v: Value)
  {
    v.Null? || (v.Str? && WhitespaceNormal(v.s))
  }

  /** `normalize_whitespace(v)` for a field that holds `None` or a string. */
  function WhitespaceValue(v: Value): Value
    requires TextOrNull(v)
  {
    if v.Str? then Str(Collapse(v.s)) else Null
  }

  lemma WhitespaceValueNormal(v: Value)
    requires TextOrNull(v)
    ensures NormalText(WhitespaceValue(v))
    ensures NormalText(v) ==> WhitespaceValue(v) == v
  {
    if v.Str? {
      CollapseNormal(v.s);
      CollapseIdempotent(v.s);
    }
  }

  /** A value that `not v` rejects, or a string: the inputs `normalize_company_name` and `normalize_location` accept. */
  predicate FalsyOrText(v: Value) { !Truthy(v) || v.Str? }

  /** `normalize_company_name(v)` for a field value; the string result is never empty. */
  function CompanyNameValue(v: Value): (r: Value)
    requires FalsyOrText(v)
    ensures r.Null? || (r.Str? && r.s != [])
  {
    if !Truthy(v) then Null
    else
      NormalizeCompanyNameShape(Some(v.s));
      match NormalizeCompanyName(Some(v.s)) {
        case None => Null
        case Some(c) => Str(c)
      }
  }

  /** `normalize_location(v)` for a field value. */
  function LocationValue(v: Value): Value
    requires FalsyOrText(v)
  {
    if !Truthy(v) then Null else Str(NormalizeLocation(Some(v.s)).value)
  }

  lemma NameAndLocationNormal(v: Value)
    requires FalsyOrText(v)
    ensures NormalText(CompanyNameValue(v)) && NormalText(LocationValue(v))
  {
    if Truthy(v) { NormalizeCompanyNameShape(Some(v.s)); }
  }

  /** An address as `clean_lead_data` leaves it: lower-case, whitespace-normal text. */
  predicate CleanEmail(v: Value) { v.Str? && IsLowered(v.s) && WhitespaceNormal(v.s) }

  /** `normalize_whitespace(v.lower())`. */
  function EmailValue(v: Value): Value
    requires v.Str?
  {
    Str(Collapse(Lower(v.s)))
  }

  lemma EmailValueClean(v: Value)
    requires v.Str?
    ensures CleanEmail(EmailValue(v))
    ensures CleanEmail(v) ==> EmailValue(v) == v
  {
    LowerIsLowered(v.s);
    CollapseLowered(Lower(v.s));
    CollapseNormal(Lower(v.s));
    if CleanEmail(v) {
      LowerOfLowered(v.s);
      CollapseOfNormal(v.s);
    }
  }

  // ---------------------------------------------------------------------------
  // Records

  /** The normalisation a `clean_*_data` assignment applies to the value it reads. */
  datatype Rule =
    | Whitespace       // normalize_whitespace(v)
    | LowerWhitespace  // normalize_whitespace(v.lower())
    | CompanyName      // normalize_company_name(v)
    | Location         // normalize_location(v)

  /**
   * One assignment `cleaned[target] = rule(cleaned.get(source))`, guarded by
   * `if source in cleaned` when `onlyIfPresent` holds.
   */
  datatype Step = Step(target: string, source: string, rule: Rule, onlyIfPresent: bool)

  /** The default the assignment passes to `get`: `''` for the e-mail, `None` otherwise. */
  function Default(rule: Rule): Value
  {
    if rule == LowerWhitespace then Str("") else Null
  }

  /** The values on which the rule does not raise `AttributeError`. */
  predicate Accepts(rule: Rule, v: Value)
  {
    match rule
    case Whitespace => TextOrNull(v)
    case LowerWhitespace => v.Str?
    case CompanyName => FalsyOrText(v)
    case Location => FalsyOrText(v)
  }

  function Apply(rule: Rule, v: Value): Value
    requires Accepts(rule, v)
  {
    match rule
    case Whitespace => WhitespaceValue(v)
    case LowerWhitespace => EmailValue(v)
    case CompanyName => CompanyNameValue(v)
    case Location => LocationValue(v)
  }

  /** The form each rule's result takes. */
  predicate Normalized(rule: Rule, v: Value)
  {
    match rule
    case LowerWhitespace => CleanEmail(v)
    case CompanyName => NormalText(v) && (v.Str? ==> v.s != [])
    case _ => NormalText(v)
  }

  lemma ApplyNormalized(rule: Rule, v: Value)
    requires Accepts(rule, v)
    ensures Normalized(rule, Apply(rule, v))
  {
    match rule
    case Whitespace => WhitespaceValueNormal(v);
    case LowerWhitespace => EmailValueClean(v);
    case CompanyName => NameAndLocationNormal(v);
    case Location => NameAndLocationNormal(v);
  }

  /** The rules that leave their own output unchanged. */
  predicate Stable(rule: Rule) { rule == Whitespace || rule == LowerWhitespace }

  lemma ApplyStable(rule: Rule, v: Value)
    requires Stable(rule) && Accepts(rule, v)
    ensures Accepts(rule, Apply(rule, v)) && Apply(rule, Apply(rule, v)) == Apply(rule, v)
  {
    if rule == Whitespace {
      WhitespaceValueNormal(v);
      WhitespaceValueNormal(Apply(rule, v));
    } else {
      EmailValueClean(v);
      EmailValueClean(Apply(rule, v));
    }
  }

  /** Whether the step's guard lets it run on record `r`. */
  predicate Runs(r: Record, step: Step) { !step.onlyIfPresent || step.source in r }

  /** The value the step reads from `r`. */
  function Read(r: Record, step: Step): Value
  {
    Field(r, step.source, Default(step.rule))
  }

  /** The assignments of a `clean_*_data` function, run in order on a copy of the input. */
  function RunSteps(r: Record, steps: seq<Step>): (out: Res<Record>)
    ensures out.Ok? ==> r.Keys <= out.value.Keys
    decreases |steps|
  {
    if steps == [] then Ok(r)
    else
      var step := steps[0];
      if !Runs(r, step) then RunSteps(r, steps[1..])
      else if !Accepts(step.rule, Read(r, step)) then Fail(AttributeError)
      else RunSteps(r[step.target := Apply(step.rule, Read(r, step))], steps[1..])
  }

  /**
   * The steps write distinct keys, and no step reads a key another step
   * writes, so every step sees the input's own value.
   */
  predicate Independent(steps: seq<Step>)
  {
    forall i, j :: 0 <= i < |steps| && 0 <= j < |steps| && i != j ==>
      steps[i].target != steps[j].target && steps[i].source != steps[j].target
  }

  /** Every step accepts the value it reads from `r`. */
  predicate Cleanable(r: Record, steps: seq<Step>)
  {
    forall i :: 0 <= i < |steps| && Runs(r, steps[i]) ==> Accepts(steps[i].rule, Read(r, steps[i]))
  }

  /** The keys the steps write when run on `r`. */
  function Targets(r: Record, steps: seq<Step>): set<string>
  {
    set i | 0 <= i < |steps| && Runs(r, steps[i]) :: steps[i].target
  }

  lemma TargetsOfRest(r: Record, steps: seq<Step>)
    requires steps != []
    ensures Targets(r, steps) == (if Runs(r, steps[0]) then {steps[0].target} else {}) + Targets(r, steps[1..])
  {
    var rest := steps[1..];
    forall k | k in Targets(r, steps)
      ensures k in (if Runs(r, steps[0]) then {steps[0].target} else {}) + Targets(r, rest)
    {
      var i :| 0 <= i < |steps| && Runs(r, steps[i]) && steps[i].target == k;
      if i > 0 { assert rest[i - 1] == steps[i]; }
    }
    forall k | k in Targets(r, rest) ensures k in Targets(r, steps)
    {
      var i :| 0 <= i < |rest| && Runs(r, rest[i]) && rest[i].target == k;
      assert steps[i + 1] == rest[i];
    }
  }

  lemma IndependentRest(steps: seq<Step>)
    requires steps != [] && Independent(steps)
    ensures Independent(steps[1..])
  {
    var rest := steps[1..];
    forall i, j | 0 <= i < |rest| && 0 <= j < |rest| && i != j
      ensures rest[i].target != rest[j].target && rest[i].source != rest[j].target
    {
      assert rest[i] == steps[i + 1] && rest[j] == steps[j + 1];
    }
  }

  lemma CleanableCons(r: Record, steps: seq<Step>)
    requires steps != []
    ensures Cleanable(r, steps) <==>
      (Runs(r, steps[0]) ==> Accepts(steps[0].rule, Read(r, steps[0]))) && Cleanable(r, steps[1..])
  {
    var rest := steps[1..];
    if Cleanable(r, steps) {
      forall i | 0 <= i < |rest| && Runs(r, rest[i]) ensures Accepts(rest[i].rule, Read(r, rest[i]))
      {
        assert rest[i] == steps[i + 1];
      }
    }
    if (Runs(r, steps[0]) ==> Accepts(steps[0].rule, Read(r, steps[0]))) && Cleanable(r, rest) {
      forall i | 0 <= i < |steps| && Runs(r, steps[i]) ensures Accepts(steps[i].rule, Read(r, steps[i]))
      {
        if i > 0 { assert steps[i] == rest[i - 1]; }
      }
    }
  }

  /** Writing the first step's key does not change what the later steps see. */
  lemma RestUnaffected(r: Record, steps: seq<Step>, v: Value)
    requires steps != [] && Independent(steps)
    ensures var next, rest := r[steps[0].target := v], steps[1..];
      (forall i :: 0 <= i < |rest| ==>
         Runs(next, rest[i]) == Runs(r, rest[i]) && Read(next, rest[i]) == Read(r, rest[i])
         && rest[i].target != steps[0].target)
      && Targets(next, rest) == Targets(r, rest)
      && Cleanable(next, rest) == Cleanable(r, rest)
  {
    var next, rest := r[steps[0].target := v], steps[1..];
    forall i | 0 <= i < |rest|
      ensures Runs(next, rest[i]) == Runs(r, rest[i]) && Read(next, rest[i]) == Read(r, rest[i])
      ensures rest[i].target != steps[0].target
    {
      assert rest[i] == steps[i + 1];
    }
  }

  /**
   * What running independent steps does: it fails exactly when some step
   * reads a value its rule rejects; otherwise the keys it writes are added,
   * every other key keeps its value, and each written key holds the rule
   * applied to the input's value.
   */
  lemma {:induction false} RunStepsSpec(r: Record, steps: seq<Step>)
    requires Independent(steps)
    ensures RunSteps(r, steps).Ok? <==> Cleanable(r, steps)
    ensures RunSteps(r, steps).Ok? ==>
      var out := RunSteps(r, steps).value;
      (forall k :: k in out <==> k in r || k in Targets(r, steps))
      && (forall k :: k in r && k !in Targets(r, steps) ==> out[k] == r[k])
      && (forall i :: 0 <= i < |steps| && Runs(r, steps[i]) ==>
            Accepts(steps[i].rule, Read(r, steps[i]))
            && out[steps[i].target] == Apply(steps[i].rule, Read(r, steps[i])))
    decreases |steps|
  {
    if steps != [] {
      var step, rest := steps[0], steps[1..];
      IndependentRest(steps);
      TargetsOfRest(r, steps);
      CleanableCons(r, steps);
      if !Runs(r, step) {
        RunStepsSpec(r, rest);
        forall i | 0 < i < |steps| ensures steps[i] == rest[i - 1] { }
      } else if Accepts(step.rule, Read(r, step)) {
        var next := r[step.target := Apply(step.rule, Read(r, step))];
        RestUnaffected(r, steps, Apply(step.rule, Read(r, step)));
        RunStepsSpec(next, rest);
        forall i | 0 < i < |steps| ensures steps[i] == rest[i - 1] { }
      }
    }
  }

  /** Every step that rewrites the key it reads uses a stable rule. */
  predicate StableSelfWrites(steps: seq<Step>)
  {
    forall i :: 0 <= i < |steps| && steps[i].source == steps[i].target ==> Stable(steps[i].rule)
  }

  /** Running independent steps twice gives the same record when each step that rewrites its own key uses a stable rule. */
  lemma RunStepsTwice(r: Record, steps: seq<Step>)
    requires Independent(steps) && Cleanable(r, steps)
    requires StableSelfWrites(steps)
    ensures RunSteps(r, steps).Ok?
    ensures Cleanable(RunSteps(r, steps).value, steps)
    ensures RunSteps(RunSteps(r, steps).value, steps) == RunSteps(r, steps)
  {
    RunStepsSpec(r, steps);
    var once := RunSteps(r, steps).value;
    // Each step reads in `once` what it wrote, or the input's own value.
    forall i | 0 <= i < |steps|
      ensures Runs(once, steps[i]) == Runs(r, steps[i])
      ensures Runs(r, steps[i]) ==>
        (Accepts(steps[i].rule, Read(once, steps[i]))
         && Apply(steps[i].rule, Read(once, steps[i])) == Apply(steps[i].rule, Read(r, steps[i])))
    {
      var step := steps[i];
      if step.source == step.target {
        if Runs(r, step) {
          assert step.target in Targets(r, steps);
          ApplyStable(step.rule, Read(r, step));
        }
      } else {
        assert step.source !in Targets(r, steps);
      }
    }
    assert Cleanable(once, steps);
    SameTargets(r, once, steps);
    RunStepsSpec(once, steps);
    var twice := RunSteps(once, steps).value;
    forall k | k in twice ensures k in once && twice[k] == once[k]
    {
      if k in Targets(r, steps) {
        var i :| 0 <= i < |steps| && Runs(r, steps[i]) && steps[i].target == k;
      }
    }
    SameRecord(twice, once);
  }

  lemma SameTargets(r: Record, r': Record, steps: seq<Step>)
    requires forall i :: 0 <= i < |steps| ==> Runs(r', steps[i]) == Runs(r, steps[i])
    ensures Targets(r', steps) == Targets(r, steps)
  {
  }

  lemma SameRecord(a: Record, b: Record)
    requires forall k :: k in a ==> k in b && a[k] == b[k]
    requires forall k :: k in b ==> k in a
    ensures a == b
  {
  }

  // ---------------------------------------------------------------------------
  // The three cleaning functions

  /** The assignments of `clean_lead_data`, in source order. */
  const LeadSteps: seq<Step> := [
    Step("name", "name", Whitespace, false),
    Step("email", "email", LowerWhitespace, false),
    Step("phone", "phone", Whitespace, false),
    Step("source", "source", Whitespace, false),
    Step("notes", "notes", Whitespace, false),
    Step("normalized_company_name", "company_name", CompanyName, true),
    Step("normalized_location", "location", Location, true)
  ]

  /** The assignments of `clean_company_data`, in source order. */
  const CompanySteps: seq<Step> := [
    Step("name", "name", CompanyName, false),
    Step("website", "website", Whitespace, false),
    Step("industry", "industry", Whitespace, false),
    Step("size", "size", Whitespace, false),
    Step("location", "location", Location, false),
    Step("description", "description", Whitespace, false)
  ]

  /** The assignments of `clean_job_posting_data`, in source order. */
  const JobSteps: seq<Step> := [
    Step("job_title", "job_title", Whitespace, false),
    Step("company_name", "company_name", CompanyName, false),
    Step("job_location", "job_location", Location, false),
    Step("job_url", "job_url", Whitespace, false),
    Step("job_description_snippet", "job_description_snippet", Whitespace, false),
    Step("source_api", "source_api", Whitespace, false),
    Step("commitment", "commitment", Whitespace, false)
  ]

  /** The outcome a well-formed step list promises, with every written field in its rule's form. */
  ghost predicate CleanedBy(r: Record, steps: seq<Step>, out: Res<Record>)
  {
    (out.Ok? <==> Cleanable(r, steps))
    && (out.Ok? ==>
      (forall k :: k in out.value <==> k in r || k in Targets(r, steps))
      && (forall k :: k in r && k !in Targets(r, steps) ==> out.value[k] == r[k])
      && (forall i :: 0 <= i < |steps| && Runs(r, steps[i]) ==>
            Normalized(steps[i].rule, out.value[steps[i].target])))
  }

  lemma RunStepsCleans(r: Record, steps: seq<Step>)
    requires Independent(steps)
    ensures CleanedBy(r, steps, RunSteps(r, steps))
  {
    RunStepsSpec(r, steps);
    forall i | 0 <= i < |steps| && Runs(r, steps[i]) && Cleanable(r, steps)
      ensures Normalized(steps[i].rule, Apply(steps[i].rule, Read(r, steps[i])))
    {
      ApplyNormalized(steps[i].rule, Read(r, steps[i]));
    }
  }

  /** Keys told apart by their length or their first character are distinct. */
  predicate Apart(a: string, b: string)
  {
    |a| != |b| || (a != [] && b != [] && a[0] != b[0])
  }

  /** The keys `clean_lead_data` writes, in order. */
  lemma LeadTargetKeys(t: seq<string>)
    requires t == ["name", "email", "phone", "source", "notes", "normalized_company_name", "normalized_location"]
    ensures |t| == |LeadSteps| && forall i :: 0 <= i < 7 ==> LeadSteps[i].target == t[i]
    ensures forall i, j :: 0 <= i < 7 && 0 <= j < 7 && i != j ==> Apart(t[i], t[j])
  {
  }

  lemma LeadStepsIndependent()
    ensures Independent(LeadSteps)
  {
    var t := ["name", "email", "phone", "source", "notes", "normalized_company_name", "normalized_location"];
    LeadTargetKeys(t);
    assert forall i :: 0 <= i < 5 ==> LeadSteps[i].source == t[i];
    assert LeadSteps[5].source == "company_name" && LeadSteps[6].source == "location";
    assert forall i :: 0 <= i < 7 ==> Apart("company_name", t[i]) && Apart("location", t[i]);
  }

  lemma LeadStepsStable()
    ensures StableSelfWrites(LeadSteps)
  {
    assert forall i :: 5 <= i < 7 ==> LeadSteps[i].source != LeadSteps[i].target by {
      assert |LeadSteps[5].source| != |LeadSteps[5].target|;
      assert |LeadSteps[6].source| != |LeadSteps[6].target|;
    }
  }

  lemma CompanyStepsIndependent()
    ensures Independent(CompanySteps)
  {
    var t := ["name", "website", "industry", "size", "location", "description"];
    assert forall i :: 0 <= i < 6 ==> CompanySteps[i].target == t[i] && CompanySteps[i].source == t[i];
    assert forall i, j :: 0 <= i < |t| && 0 <= j < |t| && i != j ==> Apart(t[i], t[j]);
  }

  lemma JobStepsIndependent()
    ensures Independent(JobSteps)
  {
    var t := ["job_title", "company_name", "job_location", "job_url", "job_description_snippet", "source_api", "commitment"];
    assert forall i :: 0 <= i < 7 ==> JobSteps[i].target == t[i] && JobSteps[i].source == t[i];
    assert forall i, j :: 0 <= i < |t| && 0 <= j < |t| && i != j ==> Apart(t[i], t[j]);
  }

  /**
   * `clean_lead_data`: a copy of the lead with its text fields normalised,
   * the e-mail lower-cased, and the normalised company name and location
   * added when the lead has those fields; `AttributeError` when a field
   * holds a value the normalisation cannot process.
   */
  function CleanLeadData(lead: Record): (r: Res<Record>)
    ensures r.Ok? ==> lead.Keys <= r.value.Keys
  {
    RunSteps(lead, LeadSteps)
  }

  /** `clean_lead_data` fails exactly on the leads its assignments reject, and otherwise writes its fields in normal form. */
  lemma CleanLeadDataSpec(lead: Record)
    ensures CleanedBy(lead, LeadSteps, CleanLeadData(lead))
  {
    LeadStepsIndependent();
    RunStepsCleans(lead, LeadSteps);
  }

  /** The keys `clean_lead_data` may write. */
  const LeadTargets: set<string> :=
    {"name", "email", "phone", "source", "notes", "normalized_company_name", "normalized_location"}

  lemma LeadTargetsListed()
    ensures forall i :: 0 <= i < |LeadSteps| ==> LeadSteps[i].target in LeadTargets
  {
    var t := ["name", "email", "phone", "source", "notes", "normalized_company_name", "normalized_location"];
    assert forall i :: 0 <= i < 7 ==> LeadSteps[i].target == t[i];
  }

  /** Cleaning a lead copies every field it does not write. */
  lemma CleanLeadKeeps(lead: Record, k: string)
    requires CleanLeadData(lead).Ok? && k !in LeadTargets
    ensures k in CleanLeadData(lead).value <==> k in lead
    ensures k in lead ==> CleanLeadData(lead).value[k] == lead[k]
  {
    CleanLeadDataSpec(lead);
    LeadTargetsListed();
    assert k !in Targets(lead, LeadSteps);
  }

  /** After cleaning, the lead's name, phone, source and notes are `None` or normal text and its e-mail is lower-case normal text. */
  lemma CleanLeadNormalizes(lead: Record)
    requires CleanLeadData(lead).Ok?
    ensures var r := CleanLeadData(lead).value;
      NormalText(r["name"]) && CleanEmail(r["email"]) && NormalText(r["phone"])
      && NormalText(r["source"]) && NormalText(r["notes"])
  {
    LeadStepsIndependent();
    var s0, s1, s2, s3, s4 := LeadSteps[0], LeadSteps[1], LeadSteps[2], LeadSteps[3], LeadSteps[4];
    assert s0 == Step("name", "name", Whitespace, false) && s1 == Step("email", "email", LowerWhitespace, false);
    assert s2 == Step("phone", "phone", Whitespace, false) && s3 == Step("source", "source", Whitespace, false);
    assert s4 == Step("notes", "notes", Whitespace, false);
    WrittenNormalized(lead, LeadSteps, 0);
    WrittenNormalized(lead, LeadSteps, 1);
    WrittenNormalized(lead, LeadSteps, 2);
    WrittenNormalized(lead, LeadSteps, 3);
    WrittenNormalized(lead, LeadSteps, 4);
  }

  /** A step that runs leaves its key in its rule's form. */
  lemma WrittenNormalized(r: Record, steps: seq<Step>, i: nat)
    requires Independent(steps) && RunSteps(r, steps).Ok? && i < |steps| && Runs(r, steps[i])
    ensures steps[i].target in RunSteps(r, steps).value
    ensures Normalized(steps[i].rule, RunSteps(r, steps).value[steps[i].target])
  {
    RunStepsCleans(r, steps);
    assert steps[i].target in Targets(r, steps);
  }

  /** Cleaning a cleaned lead changes nothing, so cleaning twice on the way to storage is harmless. */
  lemma CleanLeadIdempotent(lead: Record)
    requires CleanLeadData(lead).Ok?
    ensures CleanLeadData(CleanLeadData(lead).value) == CleanLeadData(lead)
  {
    CleanLeadDataSpec(lead);
    LeadStepsIndependent();
    LeadStepsStable();
    RunStepsTwice(lead, LeadSteps);
  }

  /** `clean_company_data`: the six company fields normalised, every other field copied. */
  function CleanCompanyData(company: Record): (r: Res<Record>)
    ensures r.Ok? ==> company.Keys <= r.value.Keys
  {
    RunSteps(company, CompanySteps)
  }

  /** `clean_company_data` fails exactly on the records its assignments reject, and otherwise writes its fields in normal form. */
  lemma CleanCompanyDataSpec(company: Record)
    ensures CleanedBy(company, CompanySteps, CleanCompanyData(company))
  {
    CompanyStepsIndependent();
    RunStepsCleans(company, CompanySteps);
  }

  /** `clean_job_posting_data`: the seven posting fields normalised, every other field copied. */
  function CleanJobPostingData(job: Record): (r: Res<Record>)
    ensures r.Ok? ==> job.Keys <= r.value.Keys
  {
    RunSteps(job, JobSteps)
  }

  /** `clean_job_posting_data` fails exactly on the postings its assignments reject, and otherwise writes its fields in normal form. */
  lemma CleanJobPostingDataSpec(job: Record)
    ensures CleanedBy(job, JobSteps, CleanJobPostingData(job))
  {
    JobStepsIndependent();
    RunStepsCleans(job, JobSteps);
  }
}
