/**
 * The lead processor: the filter settings it reads from the configuration,
 * the target test on a lead's role and location, the enrichment of a lead
 * with the company record the scraper finds, the score of a lead, and the
 * pipeline that cleans, enriches, filters, scores and sorts a batch of leads.
 */
module LeadProcessing {
  import opened Wrappers
  import opened Strings
  import opened Py
  import opened DataCleaner

  const DefaultLocations := "New York, NY"
  const DefaultTargetKeywords := "Product Manager, Program Manager"
  const DefaultSeniorityKeywords := "Senior, Lead, Principal, Head of, Director"
  const DefaultMidLevelKeywords := "Product Manager, Program Manager"

  /** The scraper's company page search: a normalised company name to its LinkedIn URL, if one is found. */
  type UrlLookup = string -> Res<Option<string>>

  /** The scraper's extraction: a company page URL to the extracted company record, `None` on failure. */
  type Extractor = string -> Res<Value>

  /** An entry of a keyword list: stripped and lower-case. */
  predicate Trimmed(k: string)
  {
    IsLowered(k) && (k == [] || (!IsSpace(k[0]) && !IsSpace(k[|k| - 1])))
  }

  /** `[kw.strip().lower() for kw in s.split(',')]`: one trimmed entry per comma-separated part. */
  function Keywords(s: string): (r: seq<string>)
    ensures |r| == |SplitAll(s, ",")| >= 1
    ensures forall k :: 0 <= k < |r| ==> Trimmed(r[k])
    ensures forall k :: 0 <= k < |r| ==> r[k] == Lower(Strip(SplitAll(s, ",")[k]))
  {
    var parts := SplitAll(s, ",");
    assert forall k :: 0 <= k < |parts| ==> Trimmed(Lower(Strip(parts[k]))) by {
      forall k | 0 <= k < |parts| ensures Trimmed(Lower(Strip(parts[k]))) {
        LowerIsLowered(Strip(parts[k]));
      }
    }
    seq(|parts|, k requires 0 <= k < |parts| => Lower(Strip(parts[k])))
  }

  /** The target location built from the parts at positions `2k` and `2k + 1`: `f"{city}, {state}"`. */
  function LocationPair(parts: seq<string>, k: nat): (r: string)
    requires 2 * k + 1 < |parts|
    ensures IsLowered(r)
  {
    LowerIsLowered(Strip(parts[2 * k]));
    LowerIsLowered(Strip(parts[2 * k + 1]));
    Lower(Strip(parts[2 * k])) + ", " + Lower(Strip(parts[2 * k + 1]))
  }

  /** Some entry of `keys` occurs in `text`: `any(k in text for k in keys)`. */
  predicate AnyIn(keys: seq<string>, text: string)
  {
    exists i :: 0 <= i < |keys| && Contains(text, keys[i])
  }

  /** `normalize_whitespace(v.lower()) if v else ""`, the role text the target test compares. */
  function RoleText(v: Value): (r: Res<string>)
    ensures r.Ok? <==> FalsyOrText(v)
    ensures r.Ok? ==> WhitespaceNormal(r.value) && IsLowered(r.value)
    ensures r.Ok? && !Truthy(v) ==> r.value == []
  {
    if !Truthy(v) then Ok([])
    else if v.Str? then
      CollapseNormal(Lower(v.s));
      LowerIsLowered(v.s);
      CollapseLowered(Lower(v.s));
      Ok(Collapse(Lower(v.s)))
    else Fail(AttributeError)
  }

  /** `normalize_location(v.lower()) if v else ""`, the location text the target test compares. */
  function PlaceText(v: Value): (r: Res<string>)
    ensures r.Ok? <==> FalsyOrText(v)
    ensures r.Ok? ==> WhitespaceNormal(r.value) && IsLowered(r.value)
    ensures r.Ok? && !Truthy(v) ==> r.value == []
  {
    if !Truthy(v) then Ok([])
    else if v.Str? then
      var lowered := Lower(v.s);
      assert |lowered| == |v.s| > 0;
      LowerIsLowered(v.s);
      CollapseLowered(lowered);
      Ok(NormalizeLocation(Some(lowered)).value)
    else Fail(AttributeError)
  }

  /** `v.lower() if v else ""`, the text the score compares (no whitespace normalisation). */
  function ScoreText(v: Value): (r: Res<string>)
    ensures r.Ok? <==> FalsyOrText(v)
    ensures r.Ok? ==> IsLowered(r.value) && (r.value == [] <==> !Truthy(v))
  {
    if !Truthy(v) then Ok([])
    else if v.Str? then
      LowerIsLowered(v.s);
      Ok(Lower(v.s))
    else Fail(AttributeError)
  }

  /** The lead fields the target test and the score read. */
  function Role(lead: Record): Value { Field(lead, "current_role", Null) }
  function Place(lead: Record): Value { Field(lead, "location", Null) }
  function Details(lead: Record): Value { Field(lead, "company_details", Null) }

  /** The key under which the pipeline stores a lead's score. */
  const ScoreKey := "score"

  /** `x.get('score', 0)`, the sort key; the pipeline only sorts leads it has scored, whose score is an integer. */
  function ScoreOf(lead: Record): int
  {
    match Field(lead, ScoreKey, Int(0))
    case Int(i) => i
    case _ => 0
  }

  /** Adding the score leaves the fields the target test and the score read. */
  lemma ScoreFieldApart(lead: Record, v: Value)
    ensures Role(lead[ScoreKey := v]) == Role(lead)
    ensures Place(lead[ScoreKey := v]) == Place(lead)
    ensures Details(lead[ScoreKey := v]) == Details(lead)
    ensures ScoreOf(lead[ScoreKey := Int(0)]) == 0
  {
    assert |ScoreKey| == 5;
  }

  /** `lead_copy['score'] = score` on a copy of the lead. */
  function WithScore(lead: Record, score: int): (r: Record)
    ensures r.Keys == lead.Keys + {ScoreKey}
    ensures ScoreOf(r) == score
    ensures Role(r) == Role(lead) && Place(r) == Place(lead) && Details(r) == Details(lead)
    ensures forall k :: k in lead && k != ScoreKey ==> r[k] == lead[k]
  {
    ScoreFieldApart(lead, Int(score));
    lead[ScoreKey := Int(score)]
  }

  /** Keys of these lengths are none of the keys `clean_lead_data` writes. */
  lemma NotCleaned(k: string)
    requires |k| == 8 || |k| == 12 || |k| == 15
    ensures k !in LeadTargets
  {
  }

  /**
   * The location loop of `__init__`: the comma-separated parts of the
   * setting are taken in pairs `city, state`, each stripped and
   * lower-cased, and a trailing unpaired part is ignored.
   */
  method TargetLocations(setting: string) returns (locations: seq<string>)
    ensures var parts := SplitAll(setting, ",");
      |locations| == |parts| / 2
      && forall k :: 0 <= k < |locations| ==> locations[k] == LocationPair(parts, k)
  {
    var parts := SplitAll(setting, ",");
    locations := [];
    var i := 0;
    // `range(0, len(parts), 2)` with `if i + 1 < len(parts)`: the last,
    // unpaired step does nothing, so the loop stops before it.
    while i + 1 < |parts|
      invariant i == 2 * |locations| <= |parts|
      invariant forall k :: 0 <= k < |locations| ==> locations[k] == LocationPair(parts, k)
    {
      locations := locations + [LocationPair(parts, |locations|)];
      i := i + 2;
    }
  }

  /** Every target location is lower-case `city, state`, built from two consecutive parts of the setting. */
  lemma TargetLocationShape(setting: string, k: nat)
    requires k < |SplitAll(setting, ",")| / 2
    ensures var parts := SplitAll(setting, ",");
      var loc := LocationPair(parts, k);
      IsLowered(loc) && Contains(loc, ", ")
      && StartsWith(loc, Lower(Strip(parts[2 * k])))
      && EndsWith(loc, Lower(Strip(parts[2 * k + 1])))
  {
    var parts := SplitAll(setting, ",");
    var city, state := Lower(Strip(parts[2 * k])), Lower(Strip(parts[2 * k + 1]));
    var loc := LocationPair(parts, k);
    assert loc == city + ", " + state;
    assert loc[|city|..|city| + 2] == ", ";
    ContainsAt(loc, ", ", |city|);
    assert loc[..|city|] == city;
    assert loc[|loc| - |state|..] == state;
  }

  /** The scan of `_is_pm_in_target_location` over the target locations, stopping at the first one `text` contains. */
  method Scan(keys: seq<string>, text: string) returns (found: bool)
    ensures found <==> AnyIn(keys, text)
  {
    found := false;
    var i := 0;
    while i < |keys|
      invariant 0 <= i <= |keys|
      invariant forall j :: 0 <= j < i ==> !Contains(text, keys[j])
    {
      if Contains(text, keys[i]) {
        return true;
      }
      i := i + 1;
    }
  }

  // ---------------------------------------------------------------------------
  // The processor

  /** A `LeadProcessor` with its filter settings. */
  class LeadProcessor {
    const targetLocations: seq<string>
    const targetKeywords: seq<string>
    const seniorityKeywords: seq<string>
    const midLevelKeywords: seq<string>

    /**
     * `__init__`: the target locations are read from `TARGET_LOCATIONS`
     * in `city, state` pairs; the three keyword lists are the parts of
     * their settings, stripped and lower-cased.
     */
    constructor (config: Config)
      ensures var parts := SplitAll(Field(config, "TARGET_LOCATIONS", DefaultLocations), ",");
        |targetLocations| == |parts| / 2
        && forall k :: 0 <= k < |targetLocations| ==> targetLocations[k] == LocationPair(parts, k)
      ensures targetKeywords == Keywords(Field(config, "TARGET_KEYWORDS", DefaultTargetKeywords))
      ensures seniorityKeywords == Keywords(Field(config, "SENIORITY_KEYWORDS", DefaultSeniorityKeywords))
      ensures midLevelKeywords == Keywords(Field(config, "MID_LEVEL_KEYWORDS", DefaultMidLevelKeywords))
    {
      var locations := TargetLocations(Field(config, "TARGET_LOCATIONS", DefaultLocations));
      targetLocations := locations;
      targetKeywords := Keywords(Field(config, "TARGET_KEYWORDS", DefaultTargetKeywords));
      seniorityKeywords := Keywords(Field(config, "SENIORITY_KEYWORDS", DefaultSeniorityKeywords));
      midLevelKeywords := Keywords(Field(config, "MID_LEVEL_KEYWORDS", DefaultMidLevelKeywords));
    }

    /** A role the mid-level filter accepts: it names a mid-level keyword and no seniority keyword. */
    predicate MidLevel(title: string)
    {
      AnyIn(midLevelKeywords, title) && !AnyIn(seniorityKeywords, title)
    }

    /**
     * The decision of `_is_pm_in_target_location`: the lead's normalised
     * location contains a target location and its normalised role contains a
     * target keyword and is mid-level; a lead missing either is rejected;
     * `AttributeError` when either field is a non-string value.
     */
    function InTarget(lead: Record): (r: Res<bool>)
      ensures r.Ok? <==> FalsyOrText(Role(lead)) && FalsyOrText(Place(lead))
      ensures r == Ok(true) ==> Truthy(Role(lead)) && Truthy(Place(lead))
    {
      var location :- PlaceText(Place(lead));
      var title :- RoleText(Role(lead));
      Ok(Matches(location, title))
    }

    /** The test on the normalised location and role: both present, a target location, a target keyword, mid-level. */
    predicate Matches(location: string, title: string)
    {
      location != [] && title != [] &&
      AnyIn(targetLocations, location) && AnyIn(targetKeywords, title) && MidLevel(title)
    }

    /** `_is_pm_in_target_location`, with its early exit from the location scan. */
    method IsPmInTargetLocation(lead: Record) returns (r: Res<bool>)
      ensures r == InTarget(lead)
    {
      var location := PlaceText(Place(lead));
      var title := RoleText(Role(lead));
      if location.Fail? {
        return Fail(location.error);
      } else if title.Fail? {
        return Fail(title.error);
      }
      var pass := Test(location.value, title.value);
      return Ok(pass);
    }

    /** The body of `_is_pm_in_target_location` after normalisation. */
    method Test(location: string, title: string) returns (pass: bool)
      ensures pass == Matches(location, title)
    {
      if location == [] || title == [] {
        return false;
      }
      var found := Scan(targetLocations, location);
      var keywordMatch := AnyIn(targetKeywords, title);
      var isSenior := AnyIn(seniorityKeywords, title);
      var isMidLevel := AnyIn(midLevelKeywords, title) && !isSenior;
      return found && keywordMatch && isMidLevel;
    }

    /** A role naming a seniority keyword never passes the filter. */
    lemma SeniorRejected(lead: Record, k: nat)
      requires k < |seniorityKeywords| && Role(lead).Str?
      requires Contains(RoleText(Role(lead)).value, seniorityKeywords[k])
      ensures InTarget(lead) != Ok(true)
    {
    }

    /**
     * `score_lead`: 5 points for a role naming a target keyword, 3 more when
     * that role is also mid-level, 4 for a location naming a target
     * location and 2 for a non-empty company record; `AttributeError` when
     * the role or location is a non-string value.
     */
    function ScoreLead(lead: Record): (r: Res<int>)
      ensures r.Ok? <==> FalsyOrText(Role(lead)) && FalsyOrText(Place(lead))
      ensures r.Ok? ==> 0 <= r.value <= 14
    {
      var title :- ScoreText(Role(lead));
      var location :- ScoreText(Place(lead));
      var details := Details(lead);
      var role := if title != [] && AnyIn(targetKeywords, title) then 5 + (if MidLevel(title) then 3 else 0) else 0;
      var place := if location != [] && AnyIn(targetLocations, location) then 4 else 0;
      var company := if Truthy(details) && details.Dict? then 2 else 0;
      Ok(role + place + company)
    }

    /** A lead with nothing to score on scores zero. */
    lemma ScoreOfEmpty()
      ensures ScoreLead(map[]) == Ok(0)
    {
    }

    /** A role naming no target keyword earns nothing for the role, whatever else it names. */
    lemma ScoreWithoutKeyword(lead: Record)
      requires ScoreLead(lead).Ok?
      requires !AnyIn(targetKeywords, ScoreText(Role(lead)).value)
      ensures ScoreLead(lead).value <= 6
    {
    }

    /** The mid-level bonus is lost to any seniority keyword in the role. */
    lemma ScoreOfSenior(lead: Record, k: nat)
      requires ScoreLead(lead).Ok? && k < |seniorityKeywords|
      requires Contains(ScoreText(Role(lead)).value, seniorityKeywords[k])
      ensures ScoreLead(lead).value <= 11
    {
    }

    /**
     * A lead that passes the filter with a role and a location already in
     * normal form scores at least 12: the filter's matches are the score's.
     */
    lemma {:induction false} QualifiedScore(lead: Record)
      requires InTarget(lead) == Ok(true)
      requires WhitespaceNormal(Lower(Role(lead).s)) && WhitespaceNormal(Lower(Place(lead).s))
      ensures ScoreLead(lead).Ok? && ScoreLead(lead).value >= 12
    {
      CollapseOfNormal(Lower(Role(lead).s));
      CollapseOfNormal(Lower(Place(lead).s));
      assert ScoreText(Role(lead)) == RoleText(Role(lead));
      assert ScoreText(Place(lead)) == PlaceText(Place(lead));
    }

    /**
     * `enrich_lead_with_company_data`, with the scraper's two lookups as
     * parameters: `findUrl` maps a normalised company name to the company's
     * LinkedIn URL (`None` when none is found) and `extract` maps a URL to the
     * extracted company record (`None` on failure); an exception either
     * raises is not caught here. A lead without a usable company name is
     * returned as it is; otherwise `company_details` is set to the cleaned
     * company record, or to `None` when there is none.
     */
    function EnrichLead(lead: Record, findUrl: UrlLookup, extract: Extractor): (r: Res<Record>)
      ensures r.Ok? ==> forall k :: k in lead && k != "company_details" ==> k in r.value && r.value[k] == lead[k]
      ensures r.Ok? ==> r.value.Keys <= lead.Keys + {"company_details"}
    {
      var raw := Field(lead, "company_name", Null);
      if !FalsyOrText(raw) then Fail(AttributeError)
      else
        var name := CompanyNameValue(raw);
        if !Truthy(name) then Ok(lead)
        else
          var details :- CompanyDetails(name.s, findUrl, extract);
          Ok(lead["company_details" := details])
    }

    /**
     * The value enrichment stores under `company_details` for the company
     * `name`: the cleaned record the lookups find, or `None` when they find
     * nothing; the lookups' own errors, and `AttributeError` when the
     * extracted value is not a record.
     */
    function CompanyDetails(name: string, findUrl: UrlLookup, extract: Extractor): (r: Res<Value>)
      ensures r.Ok? ==> r.value.Null? || r.value.Dict?
      ensures findUrl(name).Fail? ==> r == Fail(findUrl(name).error)
    {
      var url :- findUrl(name);
      var details :- if url.Some? && url.value != [] then extract(url.value) else Ok(Null);
      if !Truthy(details) then Ok(Null)
      else if !details.Dict? then Fail(AttributeError)
      else
        var cleaned :- CleanCompanyData(details.fields);
        Ok(Dict(cleaned))
    }

    /** Enrichment neither reads nor writes the fields the target test reads. */
    lemma EnrichKeepsFilterFields(lead: Record, findUrl: UrlLookup, extract: Extractor)
      requires EnrichLead(lead, findUrl, extract).Ok?
      ensures InTarget(EnrichLead(lead, findUrl, extract).value) == InTarget(lead)
    {
      SameFilterFields(lead, EnrichLead(lead, findUrl, extract).value);
    }

    /** A record that agrees with `lead` on every field but `company_details` gets the same decision. */
    lemma SameFilterFields(lead: Record, r: Record)
      requires forall k :: k in lead && k != "company_details" ==> k in r && r[k] == lead[k]
      requires r.Keys <= lead.Keys + {"company_details"}
      ensures InTarget(r) == InTarget(lead)
    {
      assert |"company_details"| == 15;
      assert Role(r) == Role(lead) && Place(r) == Place(lead);
    }

    /** A lead whose company name normalises to nothing comes back unchanged. */
    lemma EnrichWithoutName(lead: Record, findUrl: UrlLookup, extract: Extractor)
      requires !Truthy(Field(lead, "company_name", Null))
      ensures EnrichLead(lead, findUrl, extract) == Ok(lead)
    {
    }

    /** When the lookups find nothing, enrichment records the attempt with `company_details = None`. */
    lemma EnrichNotFound(lead: Record, findUrl: UrlLookup, extract: Extractor)
      requires Field(lead, "company_name", Null).Str?
      requires var name := CompanyNameValue(Field(lead, "company_name", Null));
        name.Str? && findUrl(name.s).Ok? &&
        (findUrl(name.s).value.None? || findUrl(name.s).value.value == [] ||
         (extract(findUrl(name.s).value.value).Ok? && !Truthy(extract(findUrl(name.s).value.value).value)))
      ensures EnrichLead(lead, findUrl, extract) == Ok(lead["company_details" := Null])
    {
      var name := CompanyNameValue(Field(lead, "company_name", Null));
      EnrichNamed(lead, findUrl, extract);
      assert CompanyDetails(name.s, findUrl, extract) == Ok(Null);
    }

    /** An error raised by the company page search reaches the caller of enrichment. */
    lemma EnrichSearchFails(lead: Record, findUrl: UrlLookup, extract: Extractor)
      requires Field(lead, "company_name", Null).Str?
      requires var name := CompanyNameValue(Field(lead, "company_name", Null));
        name.Str? && name.s != [] && findUrl(name.s).Fail?
      ensures EnrichLead(lead, findUrl, extract) == Fail(findUrl(CompanyNameValue(Field(lead, "company_name", Null)).s).error)
    {
      EnrichNamed(lead, findUrl, extract);
    }

    /** A found company record is stored cleaned. */
    lemma EnrichFound(lead: Record, findUrl: UrlLookup, extract: Extractor)
      requires Field(lead, "company_name", Null).Str?
      requires var name := CompanyNameValue(Field(lead, "company_name", Null));
        name.Str? && findUrl(name.s).Ok? && findUrl(name.s).value.Some? && findUrl(name.s).value.value != []
        && extract(findUrl(name.s).value.value).Ok?
        && extract(findUrl(name.s).value.value).value.Dict? && Truthy(extract(findUrl(name.s).value.value).value)
      ensures var d := extract(findUrl(CompanyNameValue(Field(lead, "company_name", Null)).s).value.value).value;
        EnrichLead(lead, findUrl, extract).Ok? <==> CleanCompanyData(d.fields).Ok?
      ensures var d := extract(findUrl(CompanyNameValue(Field(lead, "company_name", Null)).s).value.value).value;
        EnrichLead(lead, findUrl, extract).Ok? ==>
          EnrichLead(lead, findUrl, extract).value == lead["company_details" := Dict(CleanCompanyData(d.fields).value)]
    {
      var name := CompanyNameValue(Field(lead, "company_name", Null));
      EnrichNamed(lead, findUrl, extract);
      FoundDetails(name.s, findUrl, extract);
    }

    /** The company record found for `name` is stored cleaned. */
    lemma FoundDetails(name: string, findUrl: UrlLookup, extract: Extractor)
      requires findUrl(name).Ok? && findUrl(name).value.Some? && findUrl(name).value.value != []
      requires var d := extract(findUrl(name).value.value); d.Ok? && d.value.Dict? && Truthy(d.value)
      ensures var d := extract(findUrl(name).value.value).value;
        CompanyDetails(name, findUrl, extract) ==
          (if CleanCompanyData(d.fields).Ok? then Ok(Dict(CleanCompanyData(d.fields).value)) else Fail(CleanCompanyData(d.fields).error))
    {
    }

    /** A lead with a usable company name gets the lookups' value under `company_details`. */
    lemma EnrichNamed(lead: Record, findUrl: UrlLookup, extract: Extractor)
      requires Field(lead, "company_name", Null).Str?
      requires CompanyNameValue(Field(lead, "company_name", Null)).Str?
      ensures var c := CompanyDetails(CompanyNameValue(Field(lead, "company_name", Null)).s, findUrl, extract);
        EnrichLead(lead, findUrl, extract) == (if c.Ok? then Ok(lead["company_details" := c.value]) else Fail(c.error))
    {
    }

    /** `enrich_lead_with_company_data` as a function value, for the list operations. */
    function Enricher(findUrl: UrlLookup, extract: Extractor): Record -> Res<Record>
    {
      l => EnrichLead(l, findUrl, extract)
    }

    /** `enrich_leads` as a specification: each lead enriched, in order, or the first exception. */
    function EnrichAll(leads: seq<Record>, findUrl: UrlLookup, extract: Extractor): (r: Res<seq<Record>>)
      ensures r.Ok? <==> forall i :: 0 <= i < |leads| ==> EnrichLead(leads[i], findUrl, extract).Ok?
      ensures r.Ok? ==> |r.value| == |leads|
      ensures r.Ok? ==> forall i :: 0 <= i < |leads| ==> EnrichLead(leads[i], findUrl, extract) == Ok(r.value[i])
    {
      MapRes(leads, Enricher(findUrl, extract))
    }

    /** `enrich_leads`. */
    method EnrichLeads(leads: seq<Record>, findUrl: UrlLookup, extract: Extractor)
      returns (r: Res<seq<Record>>)
      ensures r == EnrichAll(leads, findUrl, extract)
    {
      var enriched: seq<Record> := [];
      for i := 0 to |leads|
        invariant MapRes(leads[..i], Enricher(findUrl, extract)) == Ok(enriched)
      {
        var e := EnrichLead(leads[i], findUrl, extract);
        if e.Fail? {
          assert leads[..i + 1][..i] == leads[..i];
          MapResPrefixFailure(leads, i + 1, Enricher(findUrl, extract));
          return Fail(e.error);
        }
        MapResSnoc(leads, i, Enricher(findUrl, extract));
        enriched := enriched + [e.value];
      }
      assert leads[..|leads|] == leads;
      return Ok(enriched);
    }

    /** The target test as a function value, for the list operations. */
    function Decision(): Record -> Res<bool>
    {
      l => InTarget(l)
    }

    /** `filter_leads` as a specification: the cleaned form of each lead whose cleaned form passes, in input order. */
    function Filtered(leads: seq<Record>): (r: Res<seq<Record>>)
      ensures r.Ok? ==> |r.value| <= |leads|
    {
      FilterRes(leads, CleanLeadData, Decision())
    }

    /** A lead survives the filter as `x`: cleaning it gives `x`, and `x` passes the target test. */
    ghost predicate Kept(lead: Record, x: Record)
    {
      Passes(lead, x, CleanLeadData, Decision())
    }

    lemma KeptMeans(lead: Record, x: Record)
      ensures Kept(lead, x) <==> CleanLeadData(lead) == Ok(x) && InTarget(x) == Ok(true)
    {
    }

    /** `filter_leads` raises exactly when some lead cannot be cleaned, or the location test cannot be evaluated on its cleaned form. */
    lemma FilteredOk(leads: seq<Record>)
      ensures Filtered(leads).Ok? <==>
        forall i :: 0 <= i < |leads| ==> CleanLeadData(leads[i]).Ok? && InTarget(CleanLeadData(leads[i]).value).Ok?
    {
      FilterResSpec(leads, CleanLeadData, Decision());
    }

    /** `filter_leads` keeps exactly the cleaned forms that pass. */
    lemma FilteredMembers(leads: seq<Record>)
      requires Filtered(leads).Ok?
      ensures forall x :: x in Filtered(leads).value <==> exists i :: 0 <= i < |leads| && Kept(leads[i], x)
    {
      FilterResSpec(leads, CleanLeadData, Decision());
    }

    /** `filter_leads` keeps input order: the leads kept from `a + b` are those kept from `a`, then those kept from `b`. */
    lemma FilteredInOrder(a: seq<Record>, b: seq<Record>)
      requires Filtered(a).Ok? && Filtered(b).Ok?
      ensures Filtered(a + b) == Ok(Filtered(a).value + Filtered(b).value)
    {
      FilterResAppend(a, b, CleanLeadData, Decision());
    }

    /** One lead: its cleaned form when that passes, nothing when it fails the test, and the exception when cleaning or the test raises. */
    lemma FilteredOne(lead: Record)
      ensures CleanLeadData(lead).Fail? ==> Filtered([lead]) == Fail(CleanLeadData(lead).error)
      ensures CleanLeadData(lead).Ok? && InTarget(CleanLeadData(lead).value).Fail? ==>
        Filtered([lead]) == Fail(InTarget(CleanLeadData(lead).value).error)
      ensures CleanLeadData(lead).Ok? && InTarget(CleanLeadData(lead).value).Ok? ==>
        Filtered([lead]) == Ok(if InTarget(CleanLeadData(lead).value).value then [CleanLeadData(lead).value] else [])
    {
      FilterResSingle(lead, CleanLeadData, Decision());
    }

    /** `filter_leads`. */
    method FilterLeads(leads: seq<Record>) returns (r: Res<seq<Record>>)
      ensures r == Filtered(leads)
    {
      var filtered: seq<Record> := [];
      for i := 0 to |leads|
        invariant FilterRes(leads[..i], CleanLeadData, Decision()) == Ok(filtered)
      {
        assert leads[..i + 1][..i] == leads[..i];
        var cleaned := CleanLeadData(leads[i]);
        if cleaned.Fail? {
          FilterResPrefixFailure(leads, i + 1, CleanLeadData, Decision());
          return Fail(cleaned.error);
        }
        var pass := IsPmInTargetLocation(cleaned.value);
        if pass.Fail? {
          FilterResPrefixFailure(leads, i + 1, CleanLeadData, Decision());
          return Fail(pass.error);
        }
        if pass.value {
          filtered := filtered + [cleaned.value];
        }
      }
      assert leads[..|leads|] == leads;
      return Ok(filtered);
    }

    /** Every lead `filter_leads` keeps passes and is in cleaned form: cleaning it again changes nothing. */
    lemma FilteredAreClean(leads: seq<Record>)
      requires Filtered(leads).Ok?
      ensures forall x :: x in Filtered(leads).value ==> CleanLeadData(x) == Ok(x) && InTarget(x) == Ok(true)
    {
      FilteredMembers(leads);
      forall x | x in Filtered(leads).value
        ensures CleanLeadData(x) == Ok(x) && InTarget(x) == Ok(true)
      {
        var i :| 0 <= i < |leads| && Kept(leads[i], x);
        KeptMeans(leads[i], x);
        CleanLeadIdempotent(leads[i]);
      }
    }

    /** Cleaning does not touch the fields the target test reads, so the filter decides on the raw role and location. */
    lemma CleaningKeepsDecision(lead: Record)
      requires CleanLeadData(lead).Ok?
      ensures InTarget(CleanLeadData(lead).value) == InTarget(lead)
    {
      NotCleaned("location");
      NotCleaned("current_role");
      CleanLeadKeeps(lead, "location");
      CleanLeadKeeps(lead, "current_role");
      SameTest(lead, CleanLeadData(lead).value);
    }

    /** A copy of the lead with its score added, as the scoring loop makes it. */
    function Scored(lead: Record): (r: Res<Record>)
      ensures r.Ok? <==> ScoreLead(lead).Ok?
      ensures r.Ok? ==> r.value == WithScore(lead, ScoreLead(lead).value)
    {
      var s :- ScoreLead(lead);
      Ok(WithScore(lead, s))
    }

    /** `Scored` as a function value, for the list operations. */
    function Scorer(): Record -> Res<Record>
    {
      l => Scored(l)
    }

    /** The scoring loop of `process_and_filter_leads` as a specification. */
    function ScoredAll(leads: seq<Record>): (r: Res<seq<Record>>)
      ensures r.Ok? <==> forall i :: 0 <= i < |leads| ==> ScoreLead(leads[i]).Ok?
      ensures r.Ok? ==> |r.value| == |leads|
      ensures r.Ok? ==> forall i :: 0 <= i < |leads| ==> r.value[i] == WithScore(leads[i], ScoreLead(leads[i]).value)
    {
      MapRes(leads, Scorer())
    }

    /** `process_and_filter_leads` as a specification. */
    function Processed(rawLeads: seq<Record>, sortByScore: bool, findUrl: UrlLookup, extract: Extractor)
      : Res<seq<Record>>
    {
      var cleaned :- MapRes(rawLeads, CleanLeadData);
      var enriched :- EnrichAll(cleaned, findUrl, extract);
      var final :- Filtered(enriched);
      var scored :- ScoredAll(final);
      Ok(if sortByScore then SortByScore(scored) else scored)
    }

    /** Leads that pass the filter can always be scored. */
    lemma ScoringSucceeds(leads: seq<Record>)
      requires forall x :: x in leads ==> InTarget(x) == Ok(true)
      ensures ScoredAll(leads).Ok?
    {
      assert forall i :: 0 <= i < |leads| ==> leads[i] in leads;
    }

    /** The scoring loop of `process_and_filter_leads`: a copy of each lead with its score added. */
    method ScoreLeads(final: seq<Record>) returns (scored: seq<Record>)
      requires forall x :: x in final ==> InTarget(x) == Ok(true)
      ensures ScoredAll(final) == Ok(scored)
    {
      scored := [];
      for i := 0 to |final|
        invariant MapRes(final[..i], Scorer()) == Ok(scored)
      {
        var leadCopy := final[i];
        assert leadCopy in final;
        var score := ScoreLead(leadCopy);
        MapResSnoc(final, i, Scorer());
        scored := scored + [WithScore(leadCopy, score.value)];
      }
      assert final[..|final|] == final;
    }

    /**
     * `process_and_filter_leads`: clean every lead, enrich them, filter
     * them, score a copy of each survivor and, when asked, sort by score,
     * highest first.
     */
    method ProcessAndFilterLeads(rawLeads: seq<Record>, sortByScore: bool,
                                 findUrl: UrlLookup, extract: Extractor)
      returns (r: Res<seq<Record>>)
      ensures r == Processed(rawLeads, sortByScore, findUrl, extract)
    {
      var cleaned :- MapRes(rawLeads, CleanLeadData);
      var enriched :- EnrichLeads(cleaned, findUrl, extract);
      var final :- FilterLeads(enriched);
      FilteredAreClean(enriched);
      var scored := ScoreLeads(final);
      if sortByScore {
        scored := SortByScore(scored);
      }
      return Ok(scored);
    }

    /**
     * Every lead the pipeline returns passes the filter and carries its own
     * score, between 0 and 14; when sorting was asked for, the scores do not
     * increase along the list.
     */
    lemma ProcessedLeads(rawLeads: seq<Record>, sortByScore: bool, findUrl: UrlLookup, extract: Extractor)
      requires Processed(rawLeads, sortByScore, findUrl, extract).Ok?
      ensures var out := Processed(rawLeads, sortByScore, findUrl, extract).value;
        forall x :: x in out ==> InTarget(x) == Ok(true) && ScoreLead(x) == Ok(ScoreOf(x)) && 0 <= ScoreOf(x) <= 14
      ensures sortByScore ==> Descending(Processed(rawLeads, sortByScore, findUrl, extract).value)
    {
      var cleaned := MapRes(rawLeads, CleanLeadData).value;
      var enriched := EnrichAll(cleaned, findUrl, extract).value;
      var final := Filtered(enriched).value;
      var scored := ScoredAll(final).value;
      FilteredAreClean(enriched);
      ScoredLeads(final);
      if sortByScore {
        SortByScoreSpec(scored);
        assert forall x :: x in SortByScore(scored) ==> x in multiset(scored);
      }
    }

    /** Scoring leads that pass keeps them passing and records each one's score. */
    lemma ScoredLeads(final: seq<Record>)
      requires forall x :: x in final ==> InTarget(x) == Ok(true)
      ensures ScoredAll(final).Ok?
      ensures forall x :: x in ScoredAll(final).value ==>
        InTarget(x) == Ok(true) && ScoreLead(x) == Ok(ScoreOf(x)) && 0 <= ScoreOf(x) <= 14
    {
      ScoringSucceeds(final);
      var scored := ScoredAll(final).value;
      forall x | x in scored ensures InTarget(x) == Ok(true) && ScoreLead(x) == Ok(ScoreOf(x)) {
        var i :| 0 <= i < |scored| && scored[i] == x;
        assert final[i] in final;
        SameScoreFields(final[i], x);
      }
    }

    /** Adding the score changes neither the decision nor the score. */
    lemma SameScoreFields(lead: Record, x: Record)
      requires InTarget(lead) == Ok(true) && x == WithScore(lead, ScoreLead(lead).value)
      ensures InTarget(x) == Ok(true) && ScoreLead(x) == ScoreLead(lead)
    {
      SameTest(lead, x);
      SameScore(lead, x);
    }

    /** The target test reads nothing but the role and the location. */
    lemma SameTest(a: Record, b: Record)
      requires Role(a) == Role(b) && Place(a) == Place(b)
      ensures InTarget(a) == InTarget(b)
    {
    }

    /** The score reads nothing but the role, the location and the company record. */
    lemma SameScore(a: Record, b: Record)
      requires Role(a) == Role(b) && Place(a) == Place(b) && Details(a) == Details(b)
      ensures ScoreLead(a) == ScoreLead(b)
    {
    }
  }

  // ---------------------------------------------------------------------------
  // Sorting by score

  /** Scores never increase along the list. */
  predicate Descending(xs: seq<Record>)
  {
    forall i, j :: 0 <= i < j < |xs| ==> ScoreOf(xs[j]) <= ScoreOf(xs[i])
  }

  /** Insert `x` before the first lead whose score does not exceed its own. */
  function InsertByScore(x: Record, ys: seq<Record>): (r: seq<Record>)
    ensures forall z :: z in r ==> z == x || z in ys
  {
    if ys == [] || ScoreOf(ys[0]) <= ScoreOf(x) then
      [x] + ys
    else
      assert ys == [ys[0]] + ys[1..];
      [ys[0]] + InsertByScore(x, ys[1..])
  }

  /** Inserting into a list sorted by descending score keeps it sorted. */
  lemma {:induction false} InsertDescending(x: Record, ys: seq<Record>)
    requires Descending(ys)
    ensures Descending(InsertByScore(x, ys))
  {
    if ys != [] && ScoreOf(x) < ScoreOf(ys[0]) {
      var rest := InsertByScore(x, ys[1..]);
      assert InsertByScore(x, ys) == [ys[0]] + rest;
      InsertDescending(x, ys[1..]);
      InsertBounded(x, ys[1..], ScoreOf(ys[0]));
      var r := [ys[0]] + rest;
      forall i, j | 0 <= i < j < |r| ensures ScoreOf(r[j]) <= ScoreOf(r[i]) {
        assert r[j] == rest[j - 1];
        if i > 0 {
          assert r[i] == rest[i - 1];
        }
      }
    }
  }

  /** Inserting a lead that scores at most `b` among leads that score at most `b`. */
  lemma {:induction false} InsertBounded(x: Record, ys: seq<Record>, b: int)
    requires ScoreOf(x) <= b && forall k :: 0 <= k < |ys| ==> ScoreOf(ys[k]) <= b
    ensures forall k :: 0 <= k < |InsertByScore(x, ys)| ==> ScoreOf(InsertByScore(x, ys)[k]) <= b
  {
    var r := InsertByScore(x, ys);
    if ys == [] || ScoreOf(ys[0]) <= ScoreOf(x) {
      assert r == [x] + ys;
      forall k | 0 < k < |r| ensures ScoreOf(r[k]) <= b {
        assert r[k] == ys[k - 1];
      }
    } else {
      InsertBounded(x, ys[1..], b);
      var rest := InsertByScore(x, ys[1..]);
      assert r == [ys[0]] + rest;
      forall k | 0 < k < |r| ensures ScoreOf(r[k]) <= b {
        assert r[k] == rest[k - 1];
      }
    }
  }

  /**
   * `leads.sort(key=lambda x: x.get('score', 0), reverse=True)`: a stable
   * sort, highest score first.
   */
  function SortByScore(xs: seq<Record>): (r: seq<Record>)
    ensures multiset(r) == multiset(xs)
  {
    if xs == [] then []
    else
      assert xs == [xs[0]] + xs[1..];
      InsertPermutes(xs[0], SortByScore(xs[1..]));
      InsertByScore(xs[0], SortByScore(xs[1..]))
  }

  /** Inserting adds exactly the one lead. */
  lemma {:induction false} InsertPermutes(x: Record, ys: seq<Record>)
    ensures multiset(InsertByScore(x, ys)) == multiset(ys) + multiset{x}
  {
    if ys != [] && ScoreOf(x) < ScoreOf(ys[0]) {
      InsertPermutes(x, ys[1..]);
      assert ys == [ys[0]] + ys[1..];
    }
  }

  /** The leads of `xs` with score `s`, in order. */
  function WithScoreOf(xs: seq<Record>, s: int): (r: seq<Record>)
    ensures |r| <= |xs|
  {
    if xs == [] then []
    else (if ScoreOf(xs[0]) == s then [xs[0]] else []) + WithScoreOf(xs[1..], s)
  }

  /** Inserting `x` keeps the order of the leads that share any one score, with `x` ahead of those it joins. */
  lemma {:induction false} InsertStable(x: Record, ys: seq<Record>, s: int)
    ensures WithScoreOf(InsertByScore(x, ys), s) == (if ScoreOf(x) == s then [x] else []) + WithScoreOf(ys, s)
  {
    if ys == [] || ScoreOf(ys[0]) <= ScoreOf(x) {
      WithScoreOfCons(x, ys, s);
    } else {
      var rest := InsertByScore(x, ys[1..]);
      assert InsertByScore(x, ys) == [ys[0]] + rest;
      InsertStable(x, ys[1..], s);
      WithScoreOfCons(ys[0], rest, s);
      WithScoreOfCons(ys[0], ys[1..], s);
      assert [ys[0]] + ys[1..] == ys;

    }
  }

  /** `WithScoreOf` of a list with a given head. */
  lemma WithScoreOfCons(x: Record, ys: seq<Record>, s: int)
    ensures WithScoreOf([x] + ys, s) == (if ScoreOf(x) == s then [x] else []) + WithScoreOf(ys, s)
  {
    assert ([x] + ys)[1..] == ys;
  }

  /** The sort is a stable permutation ordered by score: leads with equal scores keep their input order. */
  lemma {:induction false} SortByScoreSpec(xs: seq<Record>)
    ensures multiset(SortByScore(xs)) == multiset(xs)
    ensures Descending(SortByScore(xs))
    ensures forall s :: WithScoreOf(SortByScore(xs), s) == WithScoreOf(xs, s)
  {
    if xs != [] {
      SortByScoreSpec(xs[1..]);
      InsertDescending(xs[0], SortByScore(xs[1..]));
      forall s ensures WithScoreOf(SortByScore(xs), s) == WithScoreOf(xs, s) {
        InsertStable(xs[0], SortByScore(xs[1..]), s);
      }
    }
  }
}
