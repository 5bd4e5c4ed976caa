/**
 * The LinkedIn scraper: profile pages are found through web searches
 * restricted to `linkedin.com/in/`, and each search result's title and
 * snippet are split heuristically into a lead's name, role, company,
 * location and matching schools.
 */
module LinkedInScraping {
  import opened Wrappers
  import opened Strings
  import opened Py
  import opened SerpApi

  const ProfileMarker := "linkedin.com/in/"
  const SiteRestriction := " site:linkedin.com/in/"
  /** The middle dot LinkedIn puts between snippet segments, with its spaces. */
  const Dot := " \U{00B7} "
  const LocationMarker := "Location:"
  const MaxLocationLength := 50

  /** What the scraper reads from its configuration. */
  datatype Settings = Settings(apiKey: string, targetSchools: seq<string>, pmKeywords: seq<string>)

  // ---------------------------------------------------------------------
  // Queries and parameters

  function Quoted(s: string): (r: string)
    ensures |r| == |s| + 2 && r[0] == '"' && r[|r| - 1] == '"' && r[1..|r| - 1] == s
  {
    "\"" + s + "\""
  }

  function QuotedAll(keywords: seq<string>): (r: seq<string>)
    ensures |r| == |keywords| && forall i :: 0 <= i < |r| ==> r[i] == Quoted(keywords[i])
  {
    seq(|keywords|, i requires 0 <= i < |keywords| => Quoted(keywords[i]))
  }

  /** `' OR '.join(f'"{k}"' for k in keywords)`. */
  function KeywordString(keywords: seq<string>): string
  {
    Join(" OR ", QuotedAll(keywords))
  }

  /** Every part of a join occurs in the joined text. */
  lemma {:induction false} JoinContains(sep: string, parts: seq<string>, i: int)
    requires 0 <= i < |parts|
    ensures Contains(Join(sep, parts), parts[i])
    decreases |parts|
  {
    if |parts| == 1 {
      ContainsSelf(parts[0]);
    } else if i == 0 {
      ContainsSelf(parts[0]);
      ContainsInPrefixOf(parts[0], parts[0], sep + Join(sep, parts[1..]));
      assert parts[0] + (sep + Join(sep, parts[1..])) == Join(sep, parts);
    } else {
      JoinContains(sep, parts[1..], i - 1);
      ContainsInSuffixOf(parts[0] + sep, Join(sep, parts[1..]), parts[i]);
    }
  }

  /** The PM query: `("k1" OR "k2" …) "location" site:linkedin.com/in/`. */
  function PmQuery(location: string, keywords: seq<string>): (r: string)
    ensures EndsWith(r, Quoted(location) + SiteRestriction) && StartsWith(r, "(")
  {
    var r := "(" + KeywordString(keywords) + ") " + Quoted(location) + SiteRestriction;
    assert r[|r| - |Quoted(location) + SiteRestriction|..] == Quoted(location) + SiteRestriction;
    r
  }

  /** The PM query asks for every keyword, quoted. */
  lemma PmQueryMentions(location: string, keywords: seq<string>, i: int)
    requires 0 <= i < |keywords|
    ensures Contains(PmQuery(location, keywords), Quoted(keywords[i]))
  {
    var ks, q := KeywordString(keywords), Quoted(keywords[i]);
    var tail := ") " + Quoted(location) + SiteRestriction;
    assert PmQuery(location, keywords) == ("(" + ks) + tail;
    JoinContains(" OR ", QuotedAll(keywords), i);
    ContainsInSuffixOf("(", ks, q);
    ContainsInPrefixOf("(" + ks, q, tail);
  }

  /** A single keyword is searched as one quoted phrase. */
  lemma PmQueryOfOneKeyword(location: string, keyword: string)
    ensures PmQuery(location, [keyword]) == "(" + Quoted(keyword) + ") " + Quoted(location) + SiteRestriction
  {
  }

  /** The alumni query: `"school" site:linkedin.com/in/`. */
  function AlumniQuery(school: string): (r: string)
    ensures EndsWith(r, SiteRestriction) && StartsWith(r, Quoted(school))
  {
    var r := Quoted(school) + SiteRestriction;
    assert r[|r| - |SiteRestriction|..] == SiteRestriction;
    r
  }

  /** The `num` parameter: `min(max_results, 100)` as text. */
  function Num(maxResults: int): string
  {
    IntToString(if maxResults <= 100 then maxResults else 100)
  }

  /** At most 100 results are asked for, and the `num` text reads back as that number. */
  lemma NumReadsBack(maxResults: int)
    ensures ParseInt(Num(maxResults)) == Some(if maxResults <= 100 then maxResults else 100)
  {
    ParseIntToString(if maxResults <= 100 then maxResults else 100);
  }

  /** The parameters both scrape operations send. */
  function SearchParams(query: string, apiKey: string, maxResults: int): (r: Params)
    ensures r.Keys == {"engine", "q", "api_key", "num", "gl", "hl"}
    ensures r["q"] == query && r["api_key"] == apiKey && r["num"] == Num(maxResults)
  {
    map["engine" := "google", "q" := query, "api_key" := apiKey, "num" := Num(maxResults), "gl" := "us", "hl" := "en"]
  }

  // ---------------------------------------------------------------------
  // One search result

  /**
   * The title as text. A list or dictionary title passes the ` - ` and ` | `
   * membership tests and then has no `split` or `strip`; any other
   * non-text value fails the first membership test.
   */
  function TitleText(v: Value): (r: Res<string>)
    ensures r.Ok? <==> v.Str?
    ensures v.Str? ==> r.value == v.s
    ensures v.List? || v.Dict? ==> r == Fail(AttributeError)
    ensures !v.Str? && !v.List? && !v.Dict? ==> r == Fail(TypeError)
  {
    if v.Str? then Ok(v.s)
    else if v.List? || v.Dict? then Fail(AttributeError)
    else Fail(TypeError)
  }

  /**
   * The snippet as text, given the title remainder. A non-text snippet
   * raises at its first use: after an index error of the title's own role
   * split; at `snippet.split('.')` when the role is looked for in a truthy
   * snippet; at `snippet.split(...)` when a list or dictionary snippet
   * holds `Location:` or the middle dot; and otherwise at a membership
   * test or at `title + " " + snippet`.
   */
  function SnippetText(v: Value, remainder: string): (r: Res<string>)
    ensures r.Ok? <==> v.Str?
    ensures v.Str? ==> r.value == v.s
    ensures r.Fail? && r.error == IndexError <==> !v.Str? && RoleAndCompany(remainder, "").Fail?
    ensures r.Fail? && r.error == AttributeError <==>
      !v.Str? &&
      ((Truthy(v) && !Contains(Lower(remainder), " at ") && !Contains(remainder, " - ")) ||
       (RoleAndCompany(remainder, "").Ok? && (In(LocationMarker, v) == Ok(true) || In(Dot, v) == Ok(true))))
  {
    if v.Str? then Ok(v.s)
    else if Contains(Lower(remainder), " at ") && !Contains(remainder, " at ") then Fail(IndexError)
    else if Truthy(v) && !Contains(Lower(remainder), " at ") && !Contains(remainder, " - ") then Fail(AttributeError)
    else if In(LocationMarker, v) == Ok(true) || In(Dot, v) == Ok(true) then Fail(AttributeError)
    else Fail(TypeError)
  }

  /** A list snippet holding `Location:` raises an attribute error even when the title gives the role. */
  lemma LocationListSnippetRaises(remainder: string)
    requires Contains(remainder, " at ")
    ensures SnippetText(List([Str(LocationMarker)]), remainder) == Fail(AttributeError)
  {
    ContainsLowered(remainder, " at ");
    assert Lower(" at ") == " at ";
  }

  /** The name and the remainder of a title: split at the first ` - `, else at the first ` | `, both parts stripped. */
  function NameParts(title: string): (r: (string, string))
    ensures Contains(title, " - ") ==> r.0 == Strip(Before(title, " - "))
    ensures !Contains(title, " - ") && Contains(title, " | ") ==> r.0 == Strip(Before(title, " | "))
    ensures !Contains(title, " - ") && !Contains(title, " | ") ==> r == (Strip(title), "")
  {
    var parts :=
      if Contains(title, " - ") then SplitOnce(title, " - ")
      else if Contains(title, " | ") then SplitOnce(title, " | ")
      else [title];
    (Strip(parts[0]), if |parts| > 1 then Strip(parts[1]) else "")
  }

  datatype Position = Position(role: string, company: string)

  /**
   * `text.split(' at ', 1)` into role and company, guarded by a test on the
   * lowercased text: when only an uppercase ` AT ` occurs the split gives
   * one piece and taking the company raises an index error.
   */
  function AtSplit(text: string): (r: Res<Position>)
    requires Contains(Lower(text), " at ")
    ensures r.Fail? <==> !Contains(text, " at ")
    ensures r.Fail? ==> r.error == IndexError
  {
    var parts := SplitOnce(text, " at ");
    if |parts| < 2 then Fail(IndexError) else Ok(Position(Strip(parts[0]), Strip(parts[1])))
  }

  /** Role and company from the title remainder, else from the snippet's first sentence. */
  function RoleAndCompany(remainder: string, snippet: string): (r: Res<Position>)
    ensures r.Fail? ==> r.error == IndexError
  {
    if Contains(Lower(remainder), " at ") then AtSplit(remainder)
    else if Contains(remainder, " - ") then
      var parts := RSplitOnce(remainder, " - ");
      Ok(Position(Strip(parts[0]), if |parts| > 1 then Strip(parts[1]) else ""))
    else if snippet != [] then
      var first := Before(snippet, ".");
      if Contains(Lower(first), " at ") then AtSplit(first) else Ok(Position(remainder, ""))
    else Ok(Position("", ""))
  }

  /** A title remainder with ` at ` splits into the stripped text before and after its first ` at `. */
  lemma RoleAtFirstAt(remainder: string, snippet: string)
    requires Contains(remainder, " at ")
    ensures var before := Before(remainder, " at ");
      |before| + 4 <= |remainder| &&
      RoleAndCompany(remainder, snippet) == Ok(Position(Strip(before), Strip(remainder[|before| + 4..])))
  {
    ContainsLowered(remainder, " at ");
    assert Lower(" at ") == " at ";
    var parts := SplitOnce(remainder, " at ");
    assert Before(remainder, " at ") == parts[0];
    assert remainder[|parts[0]| + 4..] == parts[1];
  }

  /** Otherwise a remainder with ` - ` splits into the stripped text before and after its last ` - `. */
  lemma RoleAtLastDash(remainder: string, snippet: string, k: int)
    requires !Contains(Lower(remainder), " at ")
    requires OccursAt(remainder, " - ", k) && forall j :: k < j ==> !OccursAt(remainder, " - ", j)
    ensures RoleAndCompany(remainder, snippet) == Ok(Position(Strip(remainder[..k]), Strip(remainder[k + 3..])))
  {
    ContainsAt(remainder, " - ", k);
    assert RFind(remainder, " - ") == k;
  }

  /** An uppercase ` AT ` in the title remainder, and no lowercase one, raises an index error. */
  lemma UppercaseAtRaises(remainder: string, snippet: string)
    requires Contains(Lower(remainder), " at ") && !Contains(remainder, " at ")
    ensures RoleAndCompany(remainder, snippet) == Fail(IndexError)
  {
  }

  /**
   * The location in a snippet: the text after `Location:` up to the first
   * line break and the first middle dot; else the segment before the first
   * middle dot, when it does not look like a role or a connection count.
   */
  function LocationOf(snippet: string): (r: string)
    ensures r != [] ==> Contains(snippet, LocationMarker) || Contains(snippet, Dot)
    ensures Contains(snippet, LocationMarker) ==> !Contains(r, "\n") && !Contains(r, Dot)
    ensures !Contains(snippet, LocationMarker) && r != [] ==>
      |r| < MaxLocationLength && !Contains(Lower(r), "connection") && !Contains(Lower(r), " at ") && r == Strip(Before(snippet, Dot))
    ensures Contains(snippet, LocationMarker) ==>
      r == Strip(Before(Before(SplitOnce(snippet, LocationMarker)[1], "\n"), Dot))
    ensures !Contains(snippet, LocationMarker) && Contains(snippet, Dot) ==>
      var head := Strip(Before(snippet, Dot));
      (r == head <==> head == [] || (|head| < MaxLocationLength && !Contains(Lower(head), "connection") && !Contains(Lower(head), " at ")))
    ensures !Contains(snippet, LocationMarker) && !Contains(snippet, Dot) ==> r == []
  {
    if snippet == [] then ""
    else if Contains(snippet, LocationMarker) then
      var after := SplitOnce(snippet, LocationMarker)[1];
      var line := Before(after, "\n");
      var segment := Before(line, Dot);
      LocationSegment(line, segment);
      ContainsOfStrip(segment, "\n");
      ContainsOfStrip(segment, Dot);
      Strip(segment)
    else if Contains(snippet, Dot) then
      var potential := Strip(Before(snippet, Dot));
      if !Contains(Lower(potential), "connection") && !Contains(Lower(potential), " at ") && |potential| < MaxLocationLength
      then potential else ""
    else ""
  }

  /** A prefix of a line has no line break, and a text before a dot has no dot. */
  lemma LocationSegment(line: string, segment: string)
    requires !Contains(line, "\n") && segment == Before(line, Dot)
    ensures !Contains(segment, "\n") && !Contains(segment, Dot)
  {
    assert segment == line[..|segment|];
    ContainsOfSlice(line, "\n", 0, |segment|);
  }

  /** The configured schools, in configuration order, whose lowercase form occurs in `text`. */
  function SchoolMatches(schools: seq<string>, text: string): (r: seq<string>)
    ensures |r| <= |schools|
  {
    if schools == [] then []
    else SchoolMatches(schools[..|schools| - 1], text) + Matched(schools[|schools| - 1], text)
  }

  /** A school is matched exactly when it is configured and its lowercase form occurs in `text`. */
  lemma {:induction false} SchoolMatchesMembers(schools: seq<string>, text: string)
    ensures forall s :: s in SchoolMatches(schools, text) <==> s in schools && Contains(text, Lower(s))
    decreases |schools|
  {
    if schools != [] {
      var init, last := schools[..|schools| - 1], schools[|schools| - 1];
      SchoolMatchesMembers(init, text);
      assert schools == init + [last];
    }
  }

  /** One school as matches: itself when its lowercase form occurs in `text`, else nothing. */
  function Matched(school: string, text: string): seq<string>
  {
    if Contains(text, Lower(school)) then [school] else []
  }

  lemma SchoolMatchesSnoc(schools: seq<string>, school: string, text: string)
    ensures SchoolMatches(schools + [school], text) == SchoolMatches(schools, text) + Matched(school, text)
  {
    assert (schools + [school])[..|schools|] == schools;
  }

  /** Matching the schools of two lists in turn gives the matches of the first followed by those of the second. */
  lemma {:induction false} SchoolMatchesAppend(a: seq<string>, b: seq<string>, text: string)
    ensures SchoolMatches(a + b, text) == SchoolMatches(a, text) + SchoolMatches(b, text)
    decreases |b|
  {
    if b == [] {
      assert a + b == a;
    } else {
      var b', last := b[..|b| - 1], b[|b| - 1];
      SchoolMatchesAppend(a, b', text);
      SplitLast(a, b);
      SchoolMatchesSnoc(a + b', last, text);
      SchoolMatchesSnoc(b', last, text);
      ConcatAssociates(SchoolMatches(a, text), SchoolMatches(b', text), Matched(last, text));
    }
  }

  lemma SplitLast(a: seq<string>, b: seq<string>)
    requires b != []
    ensures a + b == (a + b[..|b| - 1]) + [b[|b| - 1]] && b == b[..|b| - 1] + [b[|b| - 1]]
  {
  }

  lemma ConcatAssociates(x: seq<string>, y: seq<string>, z: seq<string>)
    ensures (x + y) + z == x + (y + z)
  {
  }

  /** The lead built from a profile result. */
  function LeadRecord(name: string, link: Value, position: Position, location: string,
                      schools: seq<string>, source: string, snippet: string): (r: Record)
    ensures r.Keys == {"lead_name", "linkedin_profile_url", "current_role", "company_name", "location",
                       "alma_mater_match", "source_of_lead", "raw_snippet"}
    ensures "lead_name" in r && r["lead_name"] == Str(name)
    ensures "linkedin_profile_url" in r && r["linkedin_profile_url"] == link
    ensures "source_of_lead" in r && r["source_of_lead"] == Str(source)
    ensures "alma_mater_match" in r && r["alma_mater_match"] == SchoolList(schools)
  {
    map["lead_name" := Str(name), "linkedin_profile_url" := link,
        "current_role" := Str(position.role), "company_name" := Str(position.company),
        "location" := Str(location), "alma_mater_match" := SchoolList(schools),
        "source_of_lead" := Str(source), "raw_snippet" := Str(snippet)]
  }

  /** The matched schools as the list stored in a lead. */
  function SchoolList(schools: seq<string>): (r: Value)
    ensures r.List? && |r.items| == |schools| && forall i :: 0 <= i < |schools| ==> r.items[i] == Str(schools[i])
  {
    List(seq(|schools|, i requires 0 <= i < |schools| => Str(schools[i])))
  }

  /** The text the schools are looked for in: title and snippet, lowercased. */
  function SearchText(title: string, snippet: string): string
  {
    Lower(title + " " + snippet)
  }

  /** A result that looks like a profile: a truthy link mentioning `linkedin.com/in/`. */
  function IsProfile(link: Value): (r: Res<bool>)
    ensures !Truthy(link) ==> r == Ok(false)
    ensures link.Str? ==> r == Ok(link.s != [] && Contains(link.s, ProfileMarker))
  {
    if !Truthy(link) then Ok(false) else In(ProfileMarker, link)
  }

  /**
   * The lead of a profile result with a text title and snippet, or `None`
   * when its name is blank; the role split may raise.
   */
  function LeadOf(title: string, snippet: string, link: Value, source: string, schools: seq<string>): (r: Res<Option<Record>>)
    ensures r.Ok? && r.value.Some? ==>
      var lead := r.value.value;
      "lead_name" in lead && lead["lead_name"].Str? && lead["lead_name"].s == NameParts(title).0 && lead["lead_name"].s != [] &&
      "linkedin_profile_url" in lead && lead["linkedin_profile_url"] == link &&
      "source_of_lead" in lead && lead["source_of_lead"] == Str(source) &&
      "alma_mater_match" in lead && lead["alma_mater_match"] == SchoolList(SchoolMatches(schools, SearchText(title, snippet)))
    ensures r == Ok(None) <==> NameParts(title).0 == [] && RoleAndCompany(NameParts(title).1, snippet).Ok?
  {
    var (name, remainder) := NameParts(title);
    var position :- RoleAndCompany(remainder, snippet);
    if name == [] then Ok(None)
    else Ok(Some(LeadRecord(name, link, position, LocationOf(snippet),
                            SchoolMatches(schools, SearchText(title, snippet)), source, snippet)))
  }

  /**
   * One organic result: skipped unless it links a profile, and skipped when
   * its name is blank; otherwise the lead.
   */
  function ParseResult(result: Value, source: string, schools: seq<string>): (r: Res<Option<Record>>)
    ensures r.Ok? ==> result.Dict?
    ensures r.Ok? && r.value.Some? ==>
      var link := Field(result.fields, "link", Str(""));
      var lead := r.value.value;
      IsProfile(link) == Ok(true) &&
      "linkedin_profile_url" in lead && lead["linkedin_profile_url"] == link &&
      "lead_name" in lead && lead["lead_name"].Str? && lead["lead_name"].s != [] &&
      "source_of_lead" in lead && lead["source_of_lead"] == Str(source)
  {
    if !result.Dict? then Fail(AttributeError)
    else
      var link := Field(result.fields, "link", Str(""));
      var profile :- IsProfile(link);
      if !profile then Ok(None)
      else
        var title :- TitleText(Field(result.fields, "title", Str("")));
        var snippet :- SnippetText(Field(result.fields, "snippet", Str("")), NameParts(title).1);
        LeadOf(title, snippet, link, source, schools)
  }

  /** A profile result with a text title and snippet gives the lead of those. */
  lemma ParseResultOfProfile(result: Record, source: string, schools: seq<string>, title: string, snippet: string)
    requires IsProfile(Field(result, "link", Str(""))) == Ok(true)
    requires Field(result, "title", Str("")) == Str(title) && Field(result, "snippet", Str("")) == Str(snippet)
    ensures ParseResult(Dict(result), source, schools) == LeadOf(title, snippet, Field(result, "link", Str("")), source, schools)
  {
  }

  function LeadParser(source: string, schools: seq<string>): Value -> Res<Option<Record>>
  {
    result => ParseResult(result, source, schools)
  }

  /**
   * The response without organic results: no leads, after the logging
   * guard reads `search_metadata.status` and then
   * `search_information.organic_results_state`. The guard calls `get` on
   * both sections and `lower` on the status, so a section that is present
   * but not a dictionary, or a status that is not text, raises an attribute
   * error; an `error` status skips the second section.
   */
  function WithoutResults(data: Record): (r: Res<seq<Record>>)
    ensures r.Ok? ==> r.value == []
    ensures r.Fail? ==> r.error == AttributeError
    ensures r.Ok? <==>
      var meta := Field(data, "search_metadata", Dict(map[]));
      meta.Dict? && Field(meta.fields, "status", Str("")).Str? &&
      (Lower(Field(meta.fields, "status", Str("")).s) == "error" || Field(data, "search_information", Dict(map[])).Dict?)
  {
    var meta := Field(data, "search_metadata", Dict(map[]));
    if !meta.Dict? then Fail(AttributeError)
    else
      var status :- LowerOf(Field(meta.fields, "status", Str("")));
      if status == "error" then Ok([])
      else if !Field(data, "search_information", Dict(map[])).Dict? then Fail(AttributeError)
      else Ok([])
  }

  /** A metadata section whose status is `None` makes the logging guard raise. */
  lemma NullStatusRaises(data: Record, meta: Record)
    requires "search_metadata" in data && data["search_metadata"] == Dict(meta)
    requires "status" in meta && meta["status"] == Null
    ensures WithoutResults(data) == Fail(AttributeError)
  {
  }

  /**
   * `_parse_linkedin_results`: results that are not a dictionary raise;
   * missing or empty organic results give no leads; otherwise the leads of
   * the organic results, in order.
   */
  function ParsedLeads(data: Value, source: string, schools: seq<string>): (r: Res<seq<Record>>)
    ensures r.Ok? ==> data.Dict?
    ensures data.Dict? && !Truthy(Field(data.fields, "organic_results", List([]))) ==> r == WithoutResults(data.fields)
  {
    if !data.Dict? then Fail(AttributeError)
    else
      var organic := Field(data.fields, "organic_results", List([]));
      if !Truthy(organic) then WithoutResults(data.fields)
      else
        var items :- Iterate(organic);
        SelectRes(items, LeadParser(source, schools))
  }

  /** Every lead comes from one organic result, has a name and a profile link, and there are at most as many leads as results. */
  lemma ParsedLeadsSpec(data: Record, items: seq<Value>, source: string, schools: seq<string>)
    requires Field(data, "organic_results", List([])) == List(items)
    requires ParsedLeads(Dict(data), source, schools).Ok?
    ensures var leads := ParsedLeads(Dict(data), source, schools).value;
      |leads| <= |items| &&
      forall lead: Record :: lead in leads ==>
        (exists i :: 0 <= i < |items| && ParseResult(items[i], source, schools) == Ok(Some(lead))) &&
        "lead_name" in lead && lead["lead_name"].Str? && lead["lead_name"].s != [] &&
        "source_of_lead" in lead && lead["source_of_lead"] == Str(source)
  {
    if items != [] {
      SelectResSpec(items, LeadParser(source, schools));
    }
  }

  /** Results without organic results, whose metadata sections are well formed, give no leads. */
  lemma ParsedLeadsWithoutResults(data: Record, source: string, schools: seq<string>)
    requires "organic_results" !in data || !Truthy(data["organic_results"])
    requires "search_metadata" in data ==>
      data["search_metadata"].Dict? && Field(data["search_metadata"].fields, "status", Str("")).Str?
    requires "search_information" in data ==> data["search_information"].Dict?
    ensures ParsedLeads(Dict(data), source, schools) == Ok([])
  {
  }

  /** A result whose link is not a profile link never becomes a lead. */
  lemma NonProfileSkipped(result: Record, source: string, schools: seq<string>, link: string)
    requires Field(result, "link", Str("")) == Str(link) && !Contains(link, ProfileMarker)
    ensures ParseResult(Dict(result), source, schools) == Ok(None)
  {
  }

  /** The leads of two lists of results follow each other. */
  lemma ParsedInOrder(a: seq<Value>, b: seq<Value>, source: string, schools: seq<string>)
    requires SelectRes(a, LeadParser(source, schools)).Ok? && SelectRes(b, LeadParser(source, schools)).Ok?
    ensures SelectRes(a + b, LeadParser(source, schools)) ==
      Ok(SelectRes(a, LeadParser(source, schools)).value + SelectRes(b, LeadParser(source, schools)).value)
  {
    SelectResAppend(a, b, LeadParser(source, schools));
  }

  /** The loop over the configured schools. */
  method MatchSchools(schools: seq<string>, text: string) returns (matched: seq<string>)
    ensures matched == SchoolMatches(schools, text)
  {
    matched := [];
    for i := 0 to |schools|
      invariant matched == SchoolMatches(schools[..i], text)
    {
      assert schools[..i + 1][..i] == schools[..i];
      if Contains(text, Lower(schools[i])) {
        matched := matched + [schools[i]];
      }
    }
    assert schools[..|schools|] == schools;
  }

  /** The body of the results loop for one result. */
  method ParseOne(result: Value, source: string, schools: seq<string>) returns (r: Res<Option<Record>>)
    ensures r == ParseResult(result, source, schools)
  {
    if !result.Dict? {
      return Fail(AttributeError);
    }
    var link := Field(result.fields, "link", Str(""));
    var profile := IsProfile(link);
    if profile.Fail? {
      return Fail(profile.error);
    }
    if !profile.value {
      return Ok(None);
    }
    var title := TitleText(Field(result.fields, "title", Str("")));
    if title.Fail? {
      return Fail(title.error);
    }
    var snippet := SnippetText(Field(result.fields, "snippet", Str("")), NameParts(title.value).1);
    if snippet.Fail? {
      return Fail(snippet.error);
    }
    r := BuildLead(title.value, snippet.value, link, source, schools);
  }

  /** The part of the loop body that builds the lead, with its loop over the configured schools. */
  method BuildLead(title: string, snippet: string, link: Value, source: string, schools: seq<string>)
    returns (r: Res<Option<Record>>)
    ensures r == LeadOf(title, snippet, link, source, schools)
  {
    var (name, remainder) := NameParts(title);
    var position := RoleAndCompany(remainder, snippet);
    if position.Fail? {
      return Fail(position.error);
    }
    var location := LocationOf(snippet);
    var matched := MatchSchools(schools, SearchText(title, snippet));
    if name == [] {
      return Ok(None);
    }
    r := Ok(Some(LeadRecord(name, link, position.value, location, matched, source, snippet)));
  }

  /** `_parse_linkedin_results`: the loop over the organic results, appending each lead. */
  method ParseLinkedInResults(data: Value, source: string, schools: seq<string>) returns (r: Res<seq<Record>>)
    ensures r == ParsedLeads(data, source, schools)
  {
    if !data.Dict? {
      return Fail(AttributeError);
    }
    var organic := Field(data.fields, "organic_results", List([]));
    if !Truthy(organic) {
      return WithoutResults(data.fields);
    }
    var iterated := Iterate(organic);
    if iterated.Fail? {
      return Fail(iterated.error);
    }
    var items := iterated.value;
    var leads: seq<Record> := [];
    for i := 0 to |items|
      invariant SelectRes(items[..i], LeadParser(source, schools)) == Ok(leads)
    {
      assert items[..i + 1][..i] == items[..i];
      var lead := ParseOne(items[i], source, schools);
      if lead.Fail? {
        SelectResPrefixFailure(items, i + 1, LeadParser(source, schools));
        return Fail(lead.error);
      }
      if lead.value.Some? {
        leads := leads + [lead.value.value];
      }
    }
    assert items[..|items|] == items;
    r := Ok(leads);
  }

  // ---------------------------------------------------------------------
  // The two searches

  /**
   * A search and its parsing: no key gives no leads with no request, and a
   * raising request or parse gives no leads.
   */
  function SearchLeads(settings: Settings, query: string, maxResults: int, source: string, search: Search): (r: seq<Record>)
    ensures settings.apiKey == [] ==> r == []
  {
    if settings.apiKey == [] then []
    else
      match search(SearchParams(query, settings.apiKey, maxResults))
      case None => []
      case Some(data) =>
        match ParsedLeads(data, source, settings.targetSchools)
        case Ok(leads) => leads
        case Fail(_) => []
  }

  /** The requests a search makes: one, unless there is no key. */
  function SearchRequests(settings: Settings, query: string, maxResults: int): (r: seq<Params>)
    ensures settings.apiKey == [] <==> r == []
  {
    if settings.apiKey == [] then [] else [SearchParams(query, settings.apiKey, maxResults)]
  }

  method Scrape(settings: Settings, query: string, maxResults: int, source: string, search: Search)
    returns (leads: seq<Record>, ghost requests: seq<Params>)
    ensures leads == SearchLeads(settings, query, maxResults, source, search)
    ensures requests == SearchRequests(settings, query, maxResults)
  {
    requests := [];
    if settings.apiKey == [] {
      return [], requests;
    }
    var params := SearchParams(query, settings.apiKey, maxResults);
    requests := [params];
    var data := search(params);
    if data.None? {
      return [], requests;
    }
    var parsed := ParseLinkedInResults(data.value, source, settings.targetSchools);
    if parsed.Fail? {
      return [], requests;
    }
    leads := parsed.value;
  }

  /** `scrape_alumni_by_school`. */
  method ScrapeAlumniBySchool(settings: Settings, schoolName: string, maxResults: int, search: Search)
    returns (leads: seq<Record>, ghost requests: seq<Params>)
    ensures leads == SearchLeads(settings, AlumniQuery(schoolName), maxResults, "Alumni Search: " + schoolName, search)
    ensures requests == SearchRequests(settings, AlumniQuery(schoolName), maxResults)
  {
    leads, requests := Scrape(settings, AlumniQuery(schoolName), maxResults, "Alumni Search: " + schoolName, search);
  }

  /** `scrape_pms_by_location`: without keywords the configured PM keywords are searched. */
  method ScrapePmsByLocation(settings: Settings, location: string, keywords: Option<seq<string>>, maxResults: int, search: Search)
    returns (leads: seq<Record>, ghost requests: seq<Params>)
    ensures leads == SearchLeads(settings, PmQuery(location, keywords.GetOr(settings.pmKeywords)), maxResults, "PM Search: " + location, search)
    ensures requests == SearchRequests(settings, PmQuery(location, keywords.GetOr(settings.pmKeywords)), maxResults)
  {
    var query := PmQuery(location, keywords.GetOr(settings.pmKeywords));
    leads, requests := Scrape(settings, query, maxResults, "PM Search: " + location, search);
  }
}
