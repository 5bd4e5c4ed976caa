/**
 * The orchestrator: the LinkedIn workflow (search queries, scraping,
 * processing, storing leads with their companies) and the job-board
 * workflow (company maps, fetching postings per company, storing new
 * postings), over an abstract database of three tables.
 */
module Orchestration {
  import opened Wrappers
  import opened Strings
  import opened Py
  import opened SerpApi
  import LinkedInScraping
  import DataCleaner

  const DefaultKeywords := "Product Manager"
  const DefaultLocations := "New York, NY"
  const DefaultLeadSource := "LinkedIn Workflow"
  const MaxResults := 100

  // ---------------------------------------------------------------------
  // LinkedIn search queries

  /** A search query: `{"keywords": …, "location": …}`, either of which may be missing. */
  datatype Query = Query(keywords: Option<string>, location: Option<string>)

  /** The configured keyword items, `TARGET_KEYWORDS` split at commas. */
  function ConfiguredKeywords(config: Config): (r: seq<string>)
    ensures |r| >= 1
  {
    SplitAll(Field(config, "TARGET_KEYWORDS", DefaultKeywords), ",")
  }

  /** The first configured location, stripped. */
  function DefaultLocation(config: Config): string
  {
    Strip(SplitAll(Field(config, "TARGET_LOCATIONS", DefaultLocations), ",")[0])
  }

  /** The default queries as a value: one per configured keyword item, stripped, all in the first configured location. */
  function DefaultQueryList(config: Config): seq<Query>
  {
    var keywords := ConfiguredKeywords(config);
    seq(|keywords|, i requires 0 <= i < |keywords| => Query(Some(Strip(keywords[i])), Some(DefaultLocation(config))))
  }

  /** One query per keyword item, stripped, all in `location`. */
  method QueriesFor(keywords: seq<string>, location: string) returns (queries: seq<Query>)
    ensures |queries| == |keywords|
    ensures forall i :: 0 <= i < |queries| ==> queries[i] == Query(Some(Strip(keywords[i])), Some(location))
  {
    queries := [];
    for i := 0 to |keywords|
      invariant |queries| == i
      invariant forall j :: 0 <= j < i ==> queries[j] == Query(Some(Strip(keywords[j])), Some(location))
    {
      queries := queries + [Query(Some(Strip(keywords[i])), Some(location))];
    }
  }

  /** The default queries: one per configured keyword item, stripped, all in the first configured location. */
  method DefaultQueries(config: Config) returns (queries: seq<Query>)
    ensures queries == DefaultQueryList(config)
    ensures |queries| == |ConfiguredKeywords(config)|
    ensures forall i :: 0 <= i < |queries| ==>
      queries[i] == Query(Some(Strip(ConfiguredKeywords(config)[i])), Some(DefaultLocation(config)))
  {
    queries := QueriesFor(ConfiguredKeywords(config), DefaultLocation(config));
  }

  /** A query is run only when it has both keywords and a location. */
  predicate Runnable(q: Query)
  {
    q.keywords.Some? && q.keywords.value != [] && q.location.Some? && q.location.value != []
  }

  /**
   * The keywords the scraper iterates when handed a query's keyword text,
   * as the workflow does: a text iterates as its characters, so each
   * character becomes a keyword of its own.
   */
  function KeywordsAsWritten(keywords: string): (r: seq<string>)
    ensures |r| == |keywords| && forall i :: 0 <= i < |r| ==> r[i] == [keywords[i]]
  {
    seq(|keywords|, i requires 0 <= i < |keywords| => [keywords[i]])
  }

  /** Handing over the text `PM` searches for the letters `P` or `M`, not for the phrase. */
  lemma KeywordTextSearchedByLetter()
    ensures LinkedInScraping.KeywordString(KeywordsAsWritten("PM")) == "\"P\" OR \"M\""
    ensures LinkedInScraping.PmQuery("NYC", KeywordsAsWritten("PM")) != LinkedInScraping.PmQuery("NYC", SearchKeywords("PM"))
  {
    var letters := KeywordsAsWritten("PM");
    assert letters == ["P", "M"];
    var quoted := LinkedInScraping.QuotedAll(letters);
    assert quoted[0] == "\"P\"" && quoted[1] == "\"M\"";
    assert Join(" OR ", quoted[1..]) == quoted[1];
    assert LinkedInScraping.KeywordString(letters) == quoted[0] + " OR " + quoted[1];
    var phrase := LinkedInScraping.QuotedAll(SearchKeywords("PM"));
    assert LinkedInScraping.KeywordString(SearchKeywords("PM")) == phrase[0];
    var tail := ") " + LinkedInScraping.Quoted("NYC") + LinkedInScraping.SiteRestriction;
    assert |LinkedInScraping.PmQuery("NYC", letters)| == 1 + 10 + |tail|;
    assert |LinkedInScraping.PmQuery("NYC", SearchKeywords("PM"))| == 1 + 4 + |tail|;
  }

  /** The keywords a query's text was meant to be searched with: the text as one phrase. */
  function SearchKeywords(keywords: string): (r: seq<string>)
    ensures |r| == 1
  {
    [keywords]
  }

  /** Handed over as a one-item list, a query's keyword text is searched as one quoted phrase. */
  lemma SearchedAsPhrase(location: string, keywords: string)
    ensures LinkedInScraping.PmQuery(location, SearchKeywords(keywords)) ==
      "(" + LinkedInScraping.Quoted(keywords) + ") " + LinkedInScraping.Quoted(location) + LinkedInScraping.SiteRestriction
    ensures Contains(LinkedInScraping.PmQuery(location, SearchKeywords(keywords)), LinkedInScraping.Quoted(keywords))
  {
    LinkedInScraping.PmQueryOfOneKeyword(location, keywords);
    LinkedInScraping.PmQueryMentions(location, SearchKeywords(keywords), 0);
  }

  /** The PM query a runnable query is searched with: its keyword text is handed over as it is, and so iterated by character. */
  function QueryText(q: Query): string
    requires Runnable(q)
  {
    LinkedInScraping.PmQuery(q.location.value, KeywordsAsWritten(q.keywords.value))
  }

  /** The raw leads of one query: none when it is skipped. */
  function QueryLeads(q: Query, settings: LinkedInScraping.Settings, search: Search): seq<Record>
  {
    if Runnable(q) then LinkedInScraping.SearchLeads(settings, QueryText(q), MaxResults, "PM Search: " + q.location.value, search)
    else []
  }

  /** The requests of one query: none when it is skipped. */
  function QueryRequests(q: Query, settings: LinkedInScraping.Settings): seq<Params>
  {
    if Runnable(q) then LinkedInScraping.SearchRequests(settings, QueryText(q), MaxResults) else []
  }

  /** The raw leads of all queries, in query order. */
  function ScrapedLeads(queries: seq<Query>, settings: LinkedInScraping.Settings, search: Search): seq<Record>
    decreases |queries|
  {
    if queries == [] then []
    else ScrapedLeads(queries[..|queries| - 1], settings, search) + QueryLeads(queries[|queries| - 1], settings, search)
  }

  function ScrapeRequests(queries: seq<Query>, settings: LinkedInScraping.Settings): seq<Params>
    decreases |queries|
  {
    if queries == [] then []
    else ScrapeRequests(queries[..|queries| - 1], settings) + QueryRequests(queries[|queries| - 1], settings)
  }

  /** Without an API key no query makes a request or finds a lead. */
  lemma {:induction false} NoKeyNoScraping(queries: seq<Query>, settings: LinkedInScraping.Settings, search: Search)
    requires settings.apiKey == []
    ensures ScrapedLeads(queries, settings, search) == [] && ScrapeRequests(queries, settings) == []
    decreases |queries|
  {
    if queries != [] {
      NoKeyNoScraping(queries[..|queries| - 1], settings, search);
    }
  }

  lemma QueryRequestCount(q: Query, settings: LinkedInScraping.Settings)
    requires settings.apiKey != []
    ensures |QueryRequests(q, settings)| == if Runnable(q) then 1 else 0
  {
  }

  /** The positions of the runnable queries. */
  function RunnableAt(queries: seq<Query>): set<nat>
  {
    set i: nat | i < |queries| && Runnable(queries[i])
  }

  /** Each runnable query makes exactly one request when there is a key, and a skipped one makes none. */
  lemma {:induction false} OneRequestPerQuery(queries: seq<Query>, settings: LinkedInScraping.Settings)
    requires settings.apiKey != []
    ensures |ScrapeRequests(queries, settings)| == |RunnableAt(queries)|
    decreases |queries|
  {
    if queries != [] {
      var n := |queries| - 1;
      OneRequestPerQuery(queries[..n], settings);
      assert ScrapeRequests(queries, settings) == ScrapeRequests(queries[..n], settings) + QueryRequests(queries[n], settings);
      QueryRequestCount(queries[n], settings);
      RunnableAtSnoc(queries);
    }
  }

  /** The last query adds its own position to the runnable ones, when it is runnable. */
  lemma RunnableAtSnoc(queries: seq<Query>)
    requires queries != []
    ensures var n := |queries| - 1;
      |RunnableAt(queries)| == |RunnableAt(queries[..n])| + if Runnable(queries[n]) then 1 else 0
  {
    var n := |queries| - 1;
    var init := queries[..n];
    var extra: set<nat> := if Runnable(queries[n]) then {n} else {};
    forall i: nat ensures i in RunnableAt(queries) <==> i in RunnableAt(init) + extra {
      if i < n { assert init[i] == queries[i]; }
    }
    assert RunnableAt(queries) == RunnableAt(init) + extra;
    assert n !in RunnableAt(init);
  }

  /** The scraping loop: each runnable query's leads are appended, the others are skipped. */
  method ScrapeLinkedIn(queries: seq<Query>, settings: LinkedInScraping.Settings, search: Search)
    returns (rawLeads: seq<Record>, ghost requests: seq<Params>)
    ensures rawLeads == ScrapedLeads(queries, settings, search)
    ensures requests == ScrapeRequests(queries, settings)
  {
    rawLeads, requests := [], [];
    for i := 0 to |queries|
      invariant rawLeads == ScrapedLeads(queries[..i], settings, search)
      invariant requests == ScrapeRequests(queries[..i], settings)
    {
      assert queries[..i + 1][..i] == queries[..i];
      var q := queries[i];
      if q.keywords.Some? && q.keywords.value != [] && q.location.Some? && q.location.value != [] {
        var scraped, made := LinkedInScraping.ScrapePmsByLocation(settings, q.location.value, Some(KeywordsAsWritten(q.keywords.value)), MaxResults, search);
        rawLeads := rawLeads + scraped;
        requests := requests + made;
      }
    }
    assert queries[..|queries|] == queries;
  }

  // ---------------------------------------------------------------------
  // The database

  /** The three tables the workflows write; every row is a record with an `id`. */
  datatype Tables = Tables(companies: seq<Record>, leads: seq<Record>, jobs: seq<Record>)

  /** The first row whose `key` column equals `value`, as a filtered query with limit 1 finds it. */
  function FindBy(rows: seq<Record>, key: string, value: Value): (r: Option<nat>)
    ensures r.Some? ==> r.value < |rows| && Field(rows[r.value], key, Null) == value
    ensures r.Some? ==> forall j :: 0 <= j < r.value ==> Field(rows[j], key, Null) != value
    ensures r.None? <==> forall j :: 0 <= j < |rows| ==> Field(rows[j], key, Null) != value
    decreases |rows|
  {
    if rows == [] then None
    else if Field(rows[0], key, Null) == value then Some(0)
    else
      assert forall j :: 1 <= j < |rows| ==> rows[1..][j - 1] == rows[j];
      match FindBy(rows[1..], key, value)
      case None => None
      case Some(i) => Some(i + 1)
  }

  /** A row appended with the next id. */
  function Created(rows: seq<Record>, data: Record): (r: seq<Record>)
    ensures |r| == |rows| + 1 && r[..|rows|] == rows
    ensures r[|rows|] == data["id" := Int(|rows| + 1)]
  {
    rows + [data["id" := Int(|rows| + 1)]]
  }

  /**
   * The database: its tables and the records it refuses to write (an
   * integrity or database error), which make creating raise and updating
   * report failure.
   */
  class Database {
    var tables: Tables
    const refuses: Record -> bool

    constructor (initial: Tables, refuses: Record -> bool)
      ensures tables == initial && this.refuses == refuses
    {
      tables := initial;
      this.refuses := refuses;
    }
  }

  // ---------------------------------------------------------------------
  // Storing one lead

  /**
   * The company a lead is linked to: none without details or a name, the
   * first company with the details' name, else a newly created company;
   * details that are not a dictionary raise, and so does a refused creation.
   */
  function CompanyFor(t: Tables, refuses: Record -> bool, details: Value): (r: Res<(Tables, Value)>)
    ensures r.Ok? ==> r.value.0.leads == t.leads && r.value.0.jobs == t.jobs
    ensures r.Ok? ==> r.value.0.companies == t.companies || (details.Dict? && r.value.0.companies == Created(t.companies, details.fields))
    ensures !Truthy(details) ==> r == Ok((t, Null))
    ensures details.Dict? && Truthy(details) ==> var name := Field(details.fields, "name", Null);
      (!Truthy(name) ==> r == Ok((t, Null))) &&
      (Truthy(name) && FindBy(t.companies, "name", name).Some? ==>
        r == Ok((t, Field(t.companies[FindBy(t.companies, "name", name).value], "id", Null)))) &&
      (Truthy(name) && FindBy(t.companies, "name", name).None? ==>
        (r.Ok? <==> !refuses(details.fields)) &&
        (r.Ok? ==> r.value.0.companies == Created(t.companies, details.fields) && r.value.1 == r.value.0.companies[|t.companies|]["id"]))
  {
    if !Truthy(details) then Ok((t, Null))
    else if !details.Dict? then Fail(AttributeError)
    else
      var name := Field(details.fields, "name", Null);
      if !Truthy(name) then Ok((t, Null))
      else
        match FindBy(t.companies, "name", name)
        case Some(i) => Ok((t, Field(t.companies[i], "id", Null)))
        case None =>
          if refuses(details.fields) then Fail(DataProcessingError)
          else Ok((t.(companies := Created(t.companies, details.fields)), Int(|t.companies| + 1)))
  }

  /** The lead row written: the lead's fields, status `NEW`, a default source, and the company's id. */
  function LeadData(lead: Record, companyId: Value): (r: Record)
    ensures "email" in r && r["email"] == Field(lead, "email", Null)
    ensures "company_id" in r && r["company_id"] == companyId
    ensures "id" !in r
  {
    map["name" := Field(lead, "name", Null), "email" := Field(lead, "email", Null),
        "phone" := Field(lead, "phone", Null), "status" := Str("NEW"),
        "source" := Field(lead, "source", Str(DefaultLeadSource)), "notes" := Field(lead, "notes", Null),
        "company_id" := companyId]
  }

  datatype Outcome = Added | Updated | Failed

  datatype LeadStored = LeadStored(tables: Tables, outcome: Outcome)

  /** The existing lead a lead row replaces: the first with its email, when it has one. */
  function ExistingLead(leads: seq<Record>, data: Record): Option<nat>
    requires "email" in data
  {
    if Truthy(data["email"]) then FindBy(leads, "email", data["email"]) else None
  }

  /**
   * One pass of the storing loop: the company first, then the lead, which
   * updates the lead with the same email or is created; a refused write or
   * an exception counts as a failure, and a company created before it stays.
   */
  function StoreLead(t: Tables, refuses: Record -> bool, lead: Record): (r: LeadStored)
    ensures r.tables.jobs == t.jobs
    ensures |t.companies| <= |r.tables.companies| && r.tables.companies[..|t.companies|] == t.companies
    ensures r.outcome == Added ==> |r.tables.leads| == |t.leads| + 1 && r.tables.leads[..|t.leads|] == t.leads
    ensures r.outcome != Added ==> |r.tables.leads| == |t.leads|
    ensures r.outcome == Failed ==> r.tables.leads == t.leads
    ensures var email := Field(lead, "email", Null);
      (r.outcome == Added ==> !Truthy(email) || FindBy(t.leads, "email", email).None?) &&
      (r.outcome == Added ==> Field(r.tables.leads[|t.leads|], "email", Null) == email) &&
      (r.outcome == Updated ==>
        Truthy(email) && FindBy(t.leads, "email", email).Some? &&
        forall k :: 0 <= k < |t.leads| && k != FindBy(t.leads, "email", email).value ==> r.tables.leads[k] == t.leads[k])
  {
    match CompanyFor(t, refuses, Field(lead, "company_details", Null))
    case Fail(_) => LeadStored(t, Failed)
    case Ok((t', companyId)) =>
      var data := LeadData(lead, companyId);
      if refuses(data) then LeadStored(t', Failed)
      else
        match ExistingLead(t'.leads, data)
        case Some(i) => LeadStored(t'.(leads := t'.leads[i := t'.leads[i] + data]), Updated)
        case None => LeadStored(t'.(leads := Created(t'.leads, data)), Added)
  }

  /** No two leads share a non-empty email. */
  predicate UniqueEmails(leads: seq<Record>)
  {
    forall i, j :: 0 <= i < j < |leads| && Truthy(Field(leads[i], "email", Null)) ==>
      Field(leads[i], "email", Null) != Field(leads[j], "email", Null)
  }

  /** Storing a lead never gives two leads the same email: the email is the key leads are matched by. */
  lemma StoreLeadKeepsEmailsUnique(t: Tables, refuses: Record -> bool, lead: Record)
    requires UniqueEmails(t.leads)
    ensures UniqueEmails(StoreLead(t, refuses, lead).tables.leads)
  {
    var r := StoreLead(t, refuses, lead);
    var c := CompanyFor(t, refuses, Field(lead, "company_details", Null));
    if c.Ok? {
      var data := LeadData(lead, c.value.1);
      if !refuses(data) {
        match ExistingLead(t.leads, data)
        case Some(i) =>
          var leads := r.tables.leads;
          assert Field(leads[i], "email", Null) == Field(t.leads[i], "email", Null);
          assert forall k :: 0 <= k < |leads| ==> Field(leads[k], "email", Null) == Field(t.leads[k], "email", Null);
        case None =>
          var leads := r.tables.leads;
          assert forall k :: 0 <= k < |t.leads| ==> leads[k] == t.leads[k];
          assert Field(leads[|t.leads|], "email", Null) == data["email"];
      }
    }
  }

  /** A lead with an email already stored updates that lead, with the company it was linked to, and creates none. */
  lemma StoreLeadUpdatesByEmail(t: Tables, refuses: Record -> bool, lead: Record, i: nat)
    requires CompanyFor(t, refuses, Field(lead, "company_details", Null)).Ok?
    requires var e := Field(lead, "email", Null); Truthy(e) && FindBy(t.leads, "email", e) == Some(i)
    requires var (_, companyId) := CompanyFor(t, refuses, Field(lead, "company_details", Null)).value;
      !refuses(LeadData(lead, companyId))
    ensures var (t', companyId) := CompanyFor(t, refuses, Field(lead, "company_details", Null)).value;
      StoreLead(t, refuses, lead) == LeadStored(t'.(leads := t.leads[i := t.leads[i] + LeadData(lead, companyId)]), Updated)
  {
  }

  /** A lead without an email, or with one not yet stored, is created, with the company it was linked to. */
  lemma StoreLeadCreatesLead(t: Tables, refuses: Record -> bool, lead: Record)
    requires CompanyFor(t, refuses, Field(lead, "company_details", Null)).Ok?
    requires var e := Field(lead, "email", Null); !Truthy(e) || FindBy(t.leads, "email", e).None?
    requires var (_, companyId) := CompanyFor(t, refuses, Field(lead, "company_details", Null)).value;
      !refuses(LeadData(lead, companyId))
    ensures var (t', companyId) := CompanyFor(t, refuses, Field(lead, "company_details", Null)).value;
      StoreLead(t, refuses, lead) == LeadStored(t'.(leads := Created(t.leads, LeadData(lead, companyId))), Added)
  {
  }

  /** A lead whose company cannot be resolved, or whose row is refused, fails and adds no lead. */
  lemma StoreLeadFails(t: Tables, refuses: Record -> bool, lead: Record)
    requires var c := CompanyFor(t, refuses, Field(lead, "company_details", Null));
      c.Fail? || refuses(LeadData(lead, c.value.1))
    ensures StoreLead(t, refuses, lead).outcome == Failed
    ensures StoreLead(t, refuses, lead).tables.leads == t.leads
  {
  }

  /** A lead whose company is already stored by name is linked to that company's id and creates no company. */
  lemma StoreLeadUsesKnownCompany(t: Tables, refuses: Record -> bool, lead: Record, details: Record, j: nat)
    requires Field(lead, "company_details", Null) == Dict(details)
    requires Truthy(Field(details, "name", Null)) && FindBy(t.companies, "name", Field(details, "name", Null)) == Some(j)
    ensures var r := StoreLead(t, refuses, lead);
      r.tables.companies == t.companies &&
      (r.outcome == Added ==> r.tables.leads[|t.leads|]["company_id"] == Field(t.companies[j], "id", Null))
  {
    assert Truthy(Dict(details)) by {
      assert "name" in details;
    }
  }

  /** A company new by name is created before the lead, and a created lead carries the new company's id. */
  lemma StoreLeadCreatesCompany(t: Tables, refuses: Record -> bool, lead: Record, details: Record)
    requires Field(lead, "company_details", Null) == Dict(details)
    requires Truthy(Field(details, "name", Null)) && FindBy(t.companies, "name", Field(details, "name", Null)).None?
    requires !refuses(details)
    ensures var r := StoreLead(t, refuses, lead);
      r.tables.companies == Created(t.companies, details) &&
      (r.outcome == Added ==> r.tables.leads[|t.leads|]["company_id"] == Int(|t.companies| + 1))
  {
    assert Truthy(Dict(details)) by {
      assert "name" in details;
    }
  }

  // ---------------------------------------------------------------------
  // Storing the processed leads

  datatype Counts = Counts(added: nat, updated: nat, failed: nat)

  function Count(c: Counts, o: Outcome): Counts
  {
    match o
    case Added => c.(added := c.added + 1)
    case Updated => c.(updated := c.updated + 1)
    case Failed => c.(failed := c.failed + 1)
  }

  /** The storing loop: every lead counts exactly once, as added, updated or failed. */
  function StoreLeads(t: Tables, refuses: Record -> bool, leads: seq<Record>): (r: (Tables, Counts))
    ensures r.1.added + r.1.updated + r.1.failed == |leads|
    ensures |r.0.leads| == |t.leads| + r.1.added
    ensures r.0.jobs == t.jobs
    decreases |leads|
  {
    if leads == [] then (t, Counts(0, 0, 0))
    else
      var (t', c) := StoreLeads(t, refuses, leads[..|leads| - 1]);
      var s := StoreLead(t', refuses, leads[|leads| - 1]);
      (s.tables, Count(c, s.outcome))
  }

  /** The storing loop one lead further. */
  lemma StoreLeadsStep(t: Tables, refuses: Record -> bool, leads: seq<Record>, i: nat)
    requires i < |leads|
    ensures var (t', c) := StoreLeads(t, refuses, leads[..i]);
      var s := StoreLead(t', refuses, leads[i]);
      StoreLeads(t, refuses, leads[..i + 1]) == (s.tables, Count(c, s.outcome))
  {
    assert leads[..i + 1][..i] == leads[..i];
  }

  /** Storing any number of leads keeps emails unique. */
  lemma {:induction false} StoreLeadsKeepsEmailsUnique(t: Tables, refuses: Record -> bool, leads: seq<Record>)
    requires UniqueEmails(t.leads)
    ensures UniqueEmails(StoreLeads(t, refuses, leads).0.leads)
    decreases |leads|
  {
    if leads != [] {
      StoreLeadsKeepsEmailsUnique(t, refuses, leads[..|leads| - 1]);
      StoreLeadKeepsEmailsUnique(StoreLeads(t, refuses, leads[..|leads| - 1]).0, refuses, leads[|leads| - 1]);
    }
  }

  /** The storing loop over the processed leads, with its three counters. */
  method StoreProcessedLeads(db: Database, leads: seq<Record>) returns (counts: Counts)
    modifies db
    ensures (db.tables, counts) == StoreLeads(old(db.tables), db.refuses, leads)
  {
    var refuses, start := db.refuses, db.tables;
    var added, updated, failed := 0, 0, 0;
    for i := 0 to |leads|
      invariant db.tables == StoreLeads(start, refuses, leads[..i]).0
      invariant Counts(added, updated, failed) == StoreLeads(start, refuses, leads[..i]).1
    {
      StoreLeadsStep(start, refuses, leads, i);
      var stored := StoreLead(db.tables, refuses, leads[i]);
      db.tables := stored.tables;
      match stored.outcome {
        case Added => added := added + 1;
        case Updated => updated := updated + 1;
        case Failed => failed := failed + 1;
      }
    }
    assert leads[..|leads|] == leads;
    counts := Counts(added, updated, failed);
  }

  /**
   * `run_linkedin_workflow`: the given or default queries are scraped; with
   * no raw leads, or when processing raises or keeps none, nothing is
   * stored; otherwise the processed leads are stored. Processing is
   * `process`, `None` when it raised.
   */
  method RunLinkedInWorkflow(searchQueries: Option<seq<Query>>, config: Config, settings: LinkedInScraping.Settings,
                             search: Search, process: seq<Record> -> Option<seq<Record>>, db: Database)
    returns (counts: Option<Counts>, ghost rawLeads: seq<Record>, ghost processed: bool)
    modifies db
    ensures searchQueries.Some? ==> rawLeads == ScrapedLeads(searchQueries.value, settings, search)
    ensures searchQueries.None? ==> rawLeads == ScrapedLeads(DefaultQueryList(config), settings, search)
    ensures settings.apiKey == [] ==> rawLeads == []
    ensures rawLeads == [] ==> !processed && counts.None? && db.tables == old(db.tables)
    ensures rawLeads != [] ==> processed
    ensures rawLeads != [] && (process(rawLeads).None? || process(rawLeads) == Some([])) ==>
      counts.None? && db.tables == old(db.tables)
    ensures rawLeads != [] && process(rawLeads).Some? && process(rawLeads) != Some([]) ==>
      counts.Some? && (db.tables, counts.value) == StoreLeads(old(db.tables), db.refuses, process(rawLeads).value)
  {
    var queries: seq<Query>;
    if searchQueries.None? {
      queries := DefaultQueries(config);
    } else {
      queries := searchQueries.value;
    }
    ghost var requests;
    var scraped;
    scraped, requests := ScrapeLinkedIn(queries, settings, search);
    rawLeads := scraped;
    if settings.apiKey == [] {
      NoKeyNoScraping(queries, settings, search);
    }
    processed := false;
    if scraped == [] {
      return None, rawLeads, processed;
    }
    processed := true;
    var leads := process(scraped);
    if leads.None? || leads.value == [] {
      return None, rawLeads, processed;
    }
    var stored := StoreProcessedLeads(db, leads.value);
    counts := Some(stored);
  }

  // ---------------------------------------------------------------------
  // Company-to-board maps

  /** A company-to-board dict (`LEVER_COMPANY_MAP`, `GREENHOUSE_COMPANY_MAP`): name and id pairs in insertion order. */
  type BoardMap = seq<(string, string)>

  /** The company names of a map, in order. */
  function Names(m: BoardMap): (r: seq<string>)
    ensures |r| == |m|
    ensures forall k :: 0 <= k < |m| ==> r[k] == m[k].0
  {
    if m == [] then [] else [m[0].0] + Names(m[1..])
  }

  /** `m.get(name)`. */
  function Lookup(m: BoardMap, name: string): Option<string>
  {
    if m == [] then None
    else if m[0].0 == name then Some(m[0].1)
    else Lookup(m[1..], name)
  }

  /** A piece of a map entry: non-empty and without surrounding whitespace. */
  predicate Stripped(s: string)
  {
    s != [] && !IsSpace(s[0]) && !IsSpace(s[|s| - 1])
  }

  /**
   * The entry one comma-separated item contributes: it is split at its
   * first colon and both sides are stripped; an item without a colon, or
   * with either side blank, contributes nothing.
   */
  function MapItem(item: string): (r: Option<(string, string)>)
    ensures r.Some? ==> Contains(item, ":") && !Contains(r.value.0, ":")
    ensures r.Some? ==> Stripped(r.value.0) && Stripped(r.value.1)
    ensures !Contains(item, ":") ==> r.None?
  {
    if !Contains(item, ":") then None
    else
      var parts := SplitOnce(item, ":");
      var name, id := Strip(parts[0]), Strip(parts[1]);
      ContainsOfStrip(parts[0], ":");
      if name != [] && id != [] then Some((name, id)) else None
  }

  /** The split at the first colon is the one into a colon-free name part, a colon and the rest. */
  lemma FirstColonSplit(item: string, name: string, id: string)
    requires item == name + ":" + id && !Contains(name, ":")
    ensures SplitOnce(item, ":") == [name, id]
  {
    ContainsAt(item, ":", |name|);
    var parts := SplitOnce(item, ":");
    var a := parts[0];
    if |a| < |name| {
      assert item[|a|] == ':';
      assert name[|a|..|a| + 1] == ":";
      ContainsAt(name, ":", |a|);
    } else if |name| < |a| {
      assert item[|name|] == ':';
      assert a[|name|..|name| + 1] == ":";
      ContainsAt(a, ":", |name|);
    }
    assert a == item[..|a|] && name == item[..|name|];
    assert parts[1] == item[|a| + 1..] && id == item[|name| + 1..];
  }

  /**
   * An item `name:id` whose name part holds no colon gives the stripped
   * name and id, and is kept exactly when neither is blank.
   */
  lemma MapItemParts(item: string, name: string, id: string)
    requires item == name + ":" + id && !Contains(name, ":")
    ensures MapItem(item) == if Strip(name) != [] && Strip(id) != [] then Some((Strip(name), Strip(id))) else None
  {
    FirstColonSplit(item, name, id);
  }

  /** A text without a character holds no occurrence of it. */
  lemma LacksChar(s: string, c: char)
    requires c !in s
    ensures !Contains(s, [c])
  {
    forall j ensures !OccursAt(s, [c], j) {
      if 0 <= j < |s| {
        assert s[j..j + 1][0] == s[j];
      }
    }
  }

  /** An item whose name part is blank is dropped, whatever follows the colon (`" :x"`, say). */
  lemma MapItemBlankName(id: string)
    ensures MapItem(" :" + id) == None
  {
    var name := " ";
    assert Strip(name) == [] by {
      assert IsSpace(name[0]) && name[1..] == [];
    }
    LacksChar(name, ':');
    MapItemParts(name + ":" + id, name, id);
    assert " :" + id == name + ":" + id;
  }

  /** Only the first colon splits: a stripped id may itself hold colons (`"a:b:c"` maps `a` to `b:c`). */
  lemma MapItemKeepsLaterColons(name: string, id: string)
    requires ':' !in name && Stripped(name) && Stripped(id)
    ensures MapItem(name + ":" + id) == Some((name, id))
  {
    LacksChar(name, ':');
    MapItemParts(name + ":" + id, name, id);
    StripNoEdgeSpace(name);
    StripNoEdgeSpace(id);
  }

  /** `d[name] = id`: a new name is appended, a known one keeps its place and takes the new id. */
  function Put(m: BoardMap, name: string, id: string): (r: BoardMap)
    ensures Names(r) == if name in Names(m) then Names(m) else Names(m) + [name]
    ensures Lookup(r, name) == Some(id)
    ensures forall n :: n != name ==> Lookup(r, n) == Lookup(m, n)
    ensures forall e :: e in r ==> e == (name, id) || e in m
  {
    if m == [] then [(name, id)]
    else if m[0].0 == name then [(name, id)] + m[1..]
    else [m[0]] + Put(m[1..], name, id)
  }

  /** No name occurs twice. */
  predicate Distinct(names: seq<string>)
  {
    forall i, j :: 0 <= i < j < |names| ==> names[i] != names[j]
  }

  /** The map the parsing loop builds from the items, entry by entry. */
  function CompanyMap(items: seq<string>): (r: BoardMap)
    ensures Distinct(Names(r))
    ensures forall e :: e in r ==> Stripped(e.0) && Stripped(e.1) && !Contains(e.0, ":")
    decreases |items|
  {
    if items == [] then []
    else
      var m := CompanyMap(items[..|items| - 1]);
      match MapItem(items[|items| - 1])
      case None => m
      case Some((name, id)) =>
        PutKeepsDistinct(m, name, id);
        Put(m, name, id)
  }

  /** Assigning a name keeps the names distinct. */
  lemma PutKeepsDistinct(m: BoardMap, name: string, id: string)
    requires Distinct(Names(m))
    ensures Distinct(Names(Put(m, name, id)))
  {
    var ns := Names(m);
    if name !in ns {
      assert forall i :: 0 <= i < |ns| ==> ns[i] != name;
      assert Names(Put(m, name, id)) == ns + [name];
    }
  }

  /** The id of the last item that names `name`: the value a dict keeps when a key is assigned more than once. */
  function LastId(items: seq<string>, name: string): Option<string>
    decreases |items|
  {
    if items == [] then None
    else
      var e := MapItem(items[|items| - 1]);
      if e.Some? && e.value.0 == name then Some(e.value.1)
      else LastId(items[..|items| - 1], name)
  }

  /** Looking a company up in the parsed map finds the id its last item gives. */
  lemma {:induction false} CompanyMapLookup(items: seq<string>, name: string)
    ensures Lookup(CompanyMap(items), name) == LastId(items, name)
    decreases |items|
  {
    if items != [] {
      CompanyMapLookup(items[..|items| - 1], name);
    }
  }

  /** The parsing loop of `run_job_board_workflow` for one map setting. */
  method ParseCompanyMap(setting: string) returns (m: BoardMap)
    ensures m == CompanyMap(SplitAll(setting, ","))
  {
    var items := SplitAll(setting, ",");
    m := [];
    for i := 0 to |items|
      invariant m == CompanyMap(items[..i])
    {
      assert items[..i + 1][..i] == items[..i];
      match MapItem(items[i]) {
        case None =>
        case Some((name, id)) => m := Put(m, name, id);
      }
    }
    assert items[..|items|] == items;
  }

  /** The role keywords used when none are given: `TARGET_KEYWORDS` split at commas and stripped (not lower-cased). */
  function DefaultRoleKeywords(config: Config): seq<string>
  {
    StripAll(SplitAll(Field(config, "TARGET_KEYWORDS", DefaultKeywords), ","))
  }

  /** Every part stripped, one keyword per part. */
  function StripAll(parts: seq<string>): (r: seq<string>)
    ensures |r| == |parts| && forall k :: 0 <= k < |r| ==> |r[k]| <= |parts[k]| && (r[k] == [] || Stripped(r[k]))
  {
    seq(|parts|, k requires 0 <= k < |parts| => Strip(parts[k]))
  }

  // ---------------------------------------------------------------------
  // Storing the postings of one company

  /** The columns a job posting is deduplicated on: `(job_url, company_id)`. */
  function JobKey(row: Record): (Value, Value)
  {
    (Field(row, "job_url", Null), Field(row, "company_id", Null))
  }

  /** A job with this URL is already stored for this company. */
  predicate HasJob(jobs: seq<Record>, url: Value, companyId: Value)
  {
    exists i :: 0 <= i < |jobs| && JobKey(jobs[i]) == (url, companyId)
  }

  /** No two jobs of one company share a URL. */
  predicate UniqueJobs(jobs: seq<Record>)
  {
    forall i, j :: 0 <= i < j < |jobs| && Truthy(Field(jobs[i], "job_url", Null)) ==> JobKey(jobs[i]) != JobKey(jobs[j])
  }

  /** The job row written for a cleaned posting: an open posting of the company, with no job type. */
  function JobData(cleaned: Record, url: Value, companyId: Value): (r: Record)
    ensures JobKey(r) == (url, companyId) && "id" !in r
    ensures Field(r, "status", Null) == Str("Open") && Field(r, "job_type", Str("")) == Null
    ensures Field(r, "title", Str("")) == Field(cleaned, "job_title", Null)
  {
    map["title" := Field(cleaned, "job_title", Null), "description" := Field(cleaned, "job_description_snippet", Null),
        "location" := Field(cleaned, "job_location", Null), "job_type" := Null, "status" := Str("Open"),
        "company_id" := companyId, "job_url" := url]
  }

  /** Giving a new row its id leaves its key. */
  lemma KeyWithId(data: Record, id: Value)
    ensures JobKey(data["id" := id]) == JobKey(data)
  {
    assert |"id"| == 2;
  }

  /** A prefix of a prefix. */
  lemma PrefixOfPrefix(a: seq<Record>, b: seq<Record>, c: seq<Record>)
    requires |a| <= |b| <= |c| && b[..|a|] == a && c[..|b|] == b
    ensures c[..|a|] == a
  {
    assert c[..|a|] == c[..|b|][..|a|];
  }

  /**
   * A cleaned posting: skipped without a URL or when the company already
   * has a job with its URL, else created; a refused creation raises. The
   * flag says whether a job was added.
   */
  function StoreCleaned(jobs: seq<Record>, refuses: Record -> bool, companyId: Value, cleaned: Record): (r: Res<(seq<Record>, bool)>)
    ensures r.Ok? ==> |r.value.0| == |jobs| + (if r.value.1 then 1 else 0) && r.value.0[..|jobs|] == jobs
    ensures r.Ok? && r.value.1 ==> JobKey(r.value.0[|jobs|]) == (Field(cleaned, "job_url", Null), companyId)
    ensures r.Ok? && r.value.1 ==> Truthy(Field(cleaned, "job_url", Null)) && !HasJob(jobs, Field(cleaned, "job_url", Null), companyId)
    ensures r.Ok? && !r.value.1 ==> r.value.0 == jobs
    ensures r.Fail? ==> r.error == DataProcessingError
    ensures var url := Field(cleaned, "job_url", Null);
      (!Truthy(url) || HasJob(jobs, url, companyId) ==> r == Ok((jobs, false))) &&
      (Truthy(url) && !HasJob(jobs, url, companyId) ==> (r.Ok? <==> !refuses(JobData(cleaned, url, companyId))) && (r.Ok? ==> r.value.1))
  {
    var url := Field(cleaned, "job_url", Null);
    if !Truthy(url) || HasJob(jobs, url, companyId) then Ok((jobs, false))
    else
      var data := JobData(cleaned, url, companyId);
      if refuses(data) then Fail(DataProcessingError)
      else
        KeyWithId(data, Int(|jobs| + 1));
        Ok((Created(jobs, data), true))
  }

  /**
   * `clean_job_posting_data`, which may raise; the workflow passes
   * `DataCleaner.CleanJobPostingData`, and the loops below hold for any.
   */
  type Cleaner = Record -> Res<Record>

  /** One posting: cleaned, which may raise, then stored. */
  function StoreJob(jobs: seq<Record>, refuses: Record -> bool, clean: Cleaner, companyId: Value, posting: Record): (r: Res<(seq<Record>, bool)>)
    ensures clean(posting).Fail? ==> r.Fail?
    ensures clean(posting).Ok? ==>
      r == StoreCleaned(jobs, refuses, companyId, clean(posting).value)
  {
    var cleaned :- clean(posting);
    StoreCleaned(jobs, refuses, companyId, cleaned)
  }

  /** A posting with a URL the company does not have yet is created, or raises when the row is refused. */
  lemma NewPostingStored(jobs: seq<Record>, refuses: Record -> bool, companyId: Value, cleaned: Record)
    requires var url := Field(cleaned, "job_url", Null); Truthy(url) && !HasJob(jobs, url, companyId)
    ensures var url := Field(cleaned, "job_url", Null); var data := JobData(cleaned, url, companyId);
      StoreCleaned(jobs, refuses, companyId, cleaned) ==
        if refuses(data) then Fail(DataProcessingError) else Ok((Created(jobs, data), true))
  {
  }

  /** A posting whose URL the company already has adds nothing. */
  lemma DuplicatePostingSkipped(jobs: seq<Record>, refuses: Record -> bool, companyId: Value, cleaned: Record)
    requires HasJob(jobs, Field(cleaned, "job_url", Null), companyId)
    ensures StoreCleaned(jobs, refuses, companyId, cleaned) == Ok((jobs, false))
  {
  }

  /** Storing the same posting twice adds it at most once. */
  lemma StoreCleanedIdempotent(jobs: seq<Record>, refuses: Record -> bool, companyId: Value, cleaned: Record)
    requires StoreCleaned(jobs, refuses, companyId, cleaned).Ok?
    ensures var jobs' := StoreCleaned(jobs, refuses, companyId, cleaned).value.0;
      StoreCleaned(jobs', refuses, companyId, cleaned) == Ok((jobs', false))
  {
    var r := StoreCleaned(jobs, refuses, companyId, cleaned).value;
    if r.1 {
      assert JobKey(r.0[|jobs|]) == (Field(cleaned, "job_url", Null), companyId);
      DuplicatePostingSkipped(r.0, refuses, companyId, cleaned);
    }
  }

  /** Storing a posting keeps the jobs of each company unique by URL. */
  lemma StoreCleanedKeepsUnique(jobs: seq<Record>, refuses: Record -> bool, companyId: Value, cleaned: Record)
    requires UniqueJobs(jobs)
    requires StoreCleaned(jobs, refuses, companyId, cleaned).Ok?
    ensures UniqueJobs(StoreCleaned(jobs, refuses, companyId, cleaned).value.0)
  {
    var r := StoreCleaned(jobs, refuses, companyId, cleaned).value;
    if r.1 {
      var n := |jobs|;
      var url := Field(cleaned, "job_url", Null);
      assert forall k :: 0 <= k < n ==> r.0[k] == jobs[k];
      forall i | 0 <= i < n
        ensures JobKey(r.0[i]) != JobKey(r.0[n])
      {
        assert !(0 <= i < n && JobKey(jobs[i]) == (url, companyId));
      }
    }
  }

  /** The postings loop: posting by posting, until one raises; `raised` says whether one did. */
  datatype PostingsStored = PostingsStored(jobs: seq<Record>, added: nat, raised: bool)

  /** One pass of the postings loop: nothing more once a posting has raised. */
  function Advance(s: PostingsStored, refuses: Record -> bool, clean: Cleaner, companyId: Value, posting: Record): (r: PostingsStored)
    ensures s.raised ==> r == s
    ensures r.added == s.added || r.added == s.added + 1
    ensures |r.jobs| == |s.jobs| + (r.added - s.added) && r.jobs[..|s.jobs|] == s.jobs
  {
    if s.raised then s
    else
      match StoreJob(s.jobs, refuses, clean, companyId, posting)
      case Fail(_) => s.(raised := true)
      case Ok((jobs', added)) => PostingsStored(jobs', s.added + (if added then 1 else 0), false)
  }

  function StorePostings(jobs: seq<Record>, refuses: Record -> bool, clean: Cleaner, companyId: Value, postings: seq<Record>): (r: PostingsStored)
    ensures |r.jobs| == |jobs| + r.added && r.jobs[..|jobs|] == jobs
    ensures r.added <= |postings|
    decreases |postings|
  {
    if postings == [] then PostingsStored(jobs, 0, false)
    else
      var prev := StorePostings(jobs, refuses, clean, companyId, postings[..|postings| - 1]);
      var next := Advance(prev, refuses, clean, companyId, postings[|postings| - 1]);
      PrefixOfPrefix(jobs, prev.jobs, next.jobs);
      next
  }

  /** The postings loop one posting further. */
  lemma StorePostingsStep(jobs: seq<Record>, refuses: Record -> bool, clean: Cleaner, companyId: Value, postings: seq<Record>, i: nat)
    requires i < |postings|
    ensures StorePostings(jobs, refuses, clean, companyId, postings[..i + 1]) ==
      Advance(StorePostings(jobs, refuses, clean, companyId, postings[..i]), refuses, clean, companyId, postings[i])
  {
    assert postings[..i + 1][..i] == postings[..i];
  }

  /** Once a posting raises, the postings after it are not looked at: the jobs created before it stay. */
  lemma {:induction false} RaisedStopsStoring(jobs: seq<Record>, refuses: Record -> bool, clean: Cleaner, companyId: Value, postings: seq<Record>, k: nat)
    requires k <= |postings| && StorePostings(jobs, refuses, clean, companyId, postings[..k]).raised
    ensures StorePostings(jobs, refuses, clean, companyId, postings) == StorePostings(jobs, refuses, clean, companyId, postings[..k])
    decreases |postings|
  {
    if k < |postings| {
      var init := postings[..|postings| - 1];
      assert init[..k] == postings[..k];
      RaisedStopsStoring(jobs, refuses, clean, companyId, init, k);
    } else {
      assert postings[..k] == postings;
    }
  }

  /** The postings loop keeps the jobs of each company unique by URL. */
  lemma {:induction false} StorePostingsKeepsUnique(jobs: seq<Record>, refuses: Record -> bool, clean: Cleaner, companyId: Value, postings: seq<Record>)
    requires UniqueJobs(jobs)
    ensures UniqueJobs(StorePostings(jobs, refuses, clean, companyId, postings).jobs)
    decreases |postings|
  {
    if postings != [] {
      var init := postings[..|postings| - 1];
      StorePostingsKeepsUnique(jobs, refuses, clean, companyId, init);
      var prev := StorePostings(jobs, refuses, clean, companyId, init);
      assert StorePostings(jobs, refuses, clean, companyId, postings) == Advance(prev, refuses, clean, companyId, postings[|postings| - 1]);
      var cleaned := clean(postings[|postings| - 1]);
      if !prev.raised && cleaned.Ok? && StoreCleaned(prev.jobs, refuses, companyId, cleaned.value).Ok? {
        StoreCleanedKeepsUnique(prev.jobs, refuses, companyId, cleaned.value);
      }
    }
  }

  // ---------------------------------------------------------------------
  // The per-company and per-board loops

  /** The counters of the job-board workflow; `jobs_updated` stays zero in the source and is not kept. */
  datatype JobCounts = JobCounts(added: nat, failed: nat)

  function Plus(a: JobCounts, b: JobCounts): JobCounts
  {
    JobCounts(a.added + b.added, a.failed + b.failed)
  }

  /** A client's `get_postings(id, role_keywords=…)`, with the exception it may raise. */
  type Fetch = (string, seq<string>) -> Res<seq<Record>>

  /** The company row a map entry names, looked up by its normalised name. */
  function CompanyRow(companies: seq<Record>, name: string): Option<nat>
  {
    FindBy(companies, "name", DataCleaner.CompanyNameValue(Str(name)))
  }

  /**
   * One company of a map: skipped uncounted when it is not in the
   * database; otherwise its postings are fetched and stored, and a raised
   * exception (from the fetch, the cleaning or a refused creation) counts
   * one failure for the company.
   */
  function CompanyJobs(t: Tables, refuses: Record -> bool, clean: Cleaner, name: string, id: string, keywords: seq<string>, fetch: Fetch): (r: (Tables, JobCounts))
    ensures r.0.companies == t.companies && r.0.leads == t.leads
    ensures |r.0.jobs| == |t.jobs| + r.1.added && r.0.jobs[..|t.jobs|] == t.jobs
    ensures r.1.failed <= 1
    ensures CompanyRow(t.companies, name).None? ==> r == (t, JobCounts(0, 0))
    ensures CompanyRow(t.companies, name).Some? && fetch(id, keywords).Fail? ==> r == (t, JobCounts(0, 1))
  {
    match CompanyRow(t.companies, name)
    case None => (t, JobCounts(0, 0))
    case Some(i) =>
      var companyId := Field(t.companies[i], "id", Null);
      match fetch(id, keywords)
      case Fail(_) => (t, JobCounts(0, 1))
      case Ok(postings) =>
        var s := StorePostings(t.jobs, refuses, clean, companyId, postings);
        (t.(jobs := s.jobs), JobCounts(s.added, if s.raised then 1 else 0))
  }

  /** The loop over one board's map, in the map's order. */
  function BoardJobs(t: Tables, refuses: Record -> bool, clean: Cleaner, m: BoardMap, keywords: seq<string>, fetch: Fetch): (r: (Tables, JobCounts))
    ensures r.0.companies == t.companies && r.0.leads == t.leads
    ensures |r.0.jobs| == |t.jobs| + r.1.added && r.0.jobs[..|t.jobs|] == t.jobs
    ensures r.1.failed <= |m|
    decreases |m|
  {
    if m == [] then (t, JobCounts(0, 0))
    else
      var prev := BoardJobs(t, refuses, clean, m[..|m| - 1], keywords, fetch);
      var (name, id) := m[|m| - 1];
      var next := CompanyJobs(prev.0, refuses, clean, name, id, keywords, fetch);
      PrefixOfPrefix(t.jobs, prev.0.jobs, next.0.jobs);
      (next.0, Plus(prev.1, next.1))
  }

  /** One board's loop when it is among the sources, else nothing. */
  function Phase(t: Tables, refuses: Record -> bool, clean: Cleaner, included: bool, m: BoardMap, keywords: seq<string>, fetch: Fetch): (r: (Tables, JobCounts))
    ensures r.0.companies == t.companies && r.0.leads == t.leads
    ensures |r.0.jobs| == |t.jobs| + r.1.added && r.0.jobs[..|t.jobs|] == t.jobs
    ensures r.1.failed <= |m|
    ensures !included ==> r == (t, JobCounts(0, 0))
  {
    if included then BoardJobs(t, refuses, clean, m, keywords, fetch) else (t, JobCounts(0, 0))
  }

  /** The two boards in turn, Lever first, each only when it is among the sources. */
  function JobBoards(t: Tables, refuses: Record -> bool, clean: Cleaner, sources: seq<string>, keywords: seq<string>,
                     leverMap: BoardMap, greenhouseMap: BoardMap, lever: Fetch, greenhouse: Fetch): (Tables, JobCounts)
  {
    var first := Phase(t, refuses, clean, "lever" in sources, leverMap, keywords, lever);
    var second := Phase(first.0, refuses, clean, "greenhouse" in sources, greenhouseMap, keywords, greenhouse);
    (second.0, Plus(first.1, second.1))
  }

  /**
   * The workflow only appends jobs, touches neither companies nor leads,
   * counts at most one failure per mapped company, and does nothing when
   * neither board is among the sources.
   */
  lemma JobBoardsFrame(t: Tables, refuses: Record -> bool, clean: Cleaner, sources: seq<string>, keywords: seq<string>,
                       leverMap: BoardMap, greenhouseMap: BoardMap, lever: Fetch, greenhouse: Fetch)
    ensures var r := JobBoards(t, refuses, clean, sources, keywords, leverMap, greenhouseMap, lever, greenhouse);
      r.0.companies == t.companies && r.0.leads == t.leads &&
      |r.0.jobs| == |t.jobs| + r.1.added && r.0.jobs[..|t.jobs|] == t.jobs &&
      r.1.failed <= |leverMap| + |greenhouseMap| &&
      ("lever" !in sources && "greenhouse" !in sources ==> r == (t, JobCounts(0, 0)))
  {
    var first := Phase(t, refuses, clean, "lever" in sources, leverMap, keywords, lever);
    var second := Phase(first.0, refuses, clean, "greenhouse" in sources, greenhouseMap, keywords, greenhouse);
    PrefixOfPrefix(t.jobs, first.0.jobs, second.0.jobs);
  }

  /** Storing one company's postings keeps the jobs unique by company and URL. */
  lemma CompanyJobsKeepUnique(t: Tables, refuses: Record -> bool, clean: Cleaner, name: string, id: string, keywords: seq<string>, fetch: Fetch)
    requires UniqueJobs(t.jobs)
    ensures UniqueJobs(CompanyJobs(t, refuses, clean, name, id, keywords, fetch).0.jobs)
  {
    var row := CompanyRow(t.companies, name);
    if row.Some? && fetch(id, keywords).Ok? {
      StorePostingsKeepsUnique(t.jobs, refuses, clean, Field(t.companies[row.value], "id", Null), fetch(id, keywords).value);
    }
  }

  /** A board's loop keeps the jobs unique by company and URL. */
  lemma {:induction false} BoardJobsKeepUnique(t: Tables, refuses: Record -> bool, clean: Cleaner, m: BoardMap, keywords: seq<string>, fetch: Fetch)
    requires UniqueJobs(t.jobs)
    ensures UniqueJobs(BoardJobs(t, refuses, clean, m, keywords, fetch).0.jobs)
    decreases |m|
  {
    if m != [] {
      BoardJobsKeepUnique(t, refuses, clean, m[..|m| - 1], keywords, fetch);
      var prev := BoardJobs(t, refuses, clean, m[..|m| - 1], keywords, fetch);
      CompanyJobsKeepUnique(prev.0, refuses, clean, m[|m| - 1].0, m[|m| - 1].1, keywords, fetch);
    }
  }

  /** However often the workflow runs, no company ever has two jobs with the same URL. */
  lemma JobBoardsKeepUnique(t: Tables, refuses: Record -> bool, clean: Cleaner, sources: seq<string>, keywords: seq<string>,
                            leverMap: BoardMap, greenhouseMap: BoardMap, lever: Fetch, greenhouse: Fetch)
    requires UniqueJobs(t.jobs)
    ensures UniqueJobs(JobBoards(t, refuses, clean, sources, keywords, leverMap, greenhouseMap, lever, greenhouse).0.jobs)
  {
    var first := Phase(t, refuses, clean, "lever" in sources, leverMap, keywords, lever);
    if "lever" in sources {
      BoardJobsKeepUnique(t, refuses, clean, leverMap, keywords, lever);
    }
    if "greenhouse" in sources {
      BoardJobsKeepUnique(first.0, refuses, clean, greenhouseMap, keywords, greenhouse);
    }
  }

  // ---------------------------------------------------------------------
  // The job-board workflow

  /** The postings loop for one company, stopping at the first exception; each created job is written at once. */
  method StorePostingsOf(db: Database, clean: Cleaner, companyId: Value, postings: seq<Record>) returns (added: nat, raised: bool)
    modifies db
    ensures var s := StorePostings(old(db.tables.jobs), db.refuses, clean, companyId, postings);
      db.tables == old(db.tables).(jobs := s.jobs) && added == s.added && raised == s.raised
  {
    var refuses, start := db.refuses, db.tables;
    var state := PostingsStored(start.jobs, 0, false);
    var i := 0;
    while i < |postings| && !state.raised
      invariant 0 <= i <= |postings|
      invariant state == StorePostings(start.jobs, refuses, clean, companyId, postings[..i])
      invariant db.tables == start.(jobs := state.jobs)
    {
      StorePostingsStep(start.jobs, refuses, clean, companyId, postings, i);
      state := Advance(state, refuses, clean, companyId, postings[i]);
      db.tables := start.(jobs := state.jobs);
      i := i + 1;
    }
    if state.raised {
      RaisedStopsStoring(start.jobs, refuses, clean, companyId, postings, i);
    } else {
      assert postings[..i] == postings;
    }
    added, raised := state.added, state.raised;
  }

  /** One company of a map, with the company-level `try`. */
  method StoreCompanyJobs(db: Database, clean: Cleaner, name: string, id: string, keywords: seq<string>, fetch: Fetch) returns (counts: JobCounts)
    modifies db
    ensures (db.tables, counts) == CompanyJobs(old(db.tables), db.refuses, clean, name, id, keywords, fetch)
  {
    var row := CompanyRow(db.tables.companies, name);
    if row.None? {
      return JobCounts(0, 0);
    }
    var companyId := Field(db.tables.companies[row.value], "id", Null);
    var postings := fetch(id, keywords);
    if postings.Fail? {
      return JobCounts(0, 1);
    }
    var added, raised := StorePostingsOf(db, clean, companyId, postings.value);
    counts := JobCounts(added, if raised then 1 else 0);
  }

  /** The loop over one board's map. */
  method StoreBoard(db: Database, clean: Cleaner, m: BoardMap, keywords: seq<string>, fetch: Fetch) returns (counts: JobCounts)
    modifies db
    ensures (db.tables, counts) == BoardJobs(old(db.tables), db.refuses, clean, m, keywords, fetch)
  {
    var start := db.tables;
    counts := JobCounts(0, 0);
    for i := 0 to |m|
      invariant (db.tables, counts) == BoardJobs(start, db.refuses, clean, m[..i], keywords, fetch)
    {
      assert m[..i + 1][..i] == m[..i];
      var c := StoreCompanyJobs(db, clean, m[i].0, m[i].1, keywords, fetch);
      counts := Plus(counts, c);
    }
    assert m[..|m|] == m;
  }

  /** The role keywords: the given ones, else the configured defaults. */
  function RoleKeywords(roleKeywords: Option<seq<string>>, config: Config): seq<string>
  {
    if roleKeywords.Some? then roleKeywords.value else DefaultRoleKeywords(config)
  }

  /**
   * `run_job_board_workflow`, with the Lever and Greenhouse clients'
   * `get_postings` as `lever` and `greenhouse`: both maps are parsed; with
   * neither holding a company nothing happens; otherwise the boards among
   * `sources` are processed and the counters are those of `JobBoards`.
   */
  method RunJobBoardWorkflow(sources: seq<string>, roleKeywords: Option<seq<string>>, config: Config,
                             lever: Fetch, greenhouse: Fetch, db: Database)
    returns (counts: Option<JobCounts>)
    modifies db
    ensures var leverMap := CompanyMap(SplitAll(Field(config, "LEVER_COMPANY_MAP", ""), ","));
      var greenhouseMap := CompanyMap(SplitAll(Field(config, "GREENHOUSE_COMPANY_MAP", ""), ","));
      (leverMap == [] && greenhouseMap == [] ==> counts.None? && db.tables == old(db.tables)) &&
      (leverMap != [] || greenhouseMap != [] ==>
        counts.Some? &&
        (db.tables, counts.value) == JobBoards(old(db.tables), db.refuses, DataCleaner.CleanJobPostingData, sources, RoleKeywords(roleKeywords, config),
                                               leverMap, greenhouseMap, lever, greenhouse))
  {
    var leverMap := ParseCompanyMap(Field(config, "LEVER_COMPANY_MAP", ""));
    var greenhouseMap := ParseCompanyMap(Field(config, "GREENHOUSE_COMPANY_MAP", ""));
    if leverMap == [] && greenhouseMap == [] {
      return None;
    }
    var keywords := RoleKeywords(roleKeywords, config);
    var total := JobCounts(0, 0);
    if "lever" in sources && leverMap != [] {
      total := StoreBoard(db, DataCleaner.CleanJobPostingData, leverMap, keywords, lever);
    }
    if "greenhouse" in sources && greenhouseMap != [] {
      var c := StoreBoard(db, DataCleaner.CleanJobPostingData, greenhouseMap, keywords, greenhouse);
      total := Plus(total, c);
    }
    counts := Some(total);
  }

  /**
   * `run_full_workflow`: the LinkedIn workflow with the default queries,
   * then the job-board workflow for both boards with the configured role
   * keywords, on the tables the first one left behind (`middle`).
   */
  method RunFullWorkflow(config: Config, settings: LinkedInScraping.Settings, search: Search,
                         process: seq<Record> -> Option<seq<Record>>, lever: Fetch, greenhouse: Fetch, db: Database)
    returns (leadCounts: Option<Counts>, jobCounts: Option<JobCounts>, ghost rawLeads: seq<Record>, ghost middle: Tables)
    modifies db
    ensures rawLeads == ScrapedLeads(DefaultQueryList(config), settings, search)
    ensures settings.apiKey == [] ==> rawLeads == [] && leadCounts.None?
    ensures leadCounts.None? ==> middle == old(db.tables)
    ensures leadCounts.Some? ==>
      process(rawLeads).Some? && (middle, leadCounts.value) == StoreLeads(old(db.tables), db.refuses, process(rawLeads).value)
    ensures var leverMap := CompanyMap(SplitAll(Field(config, "LEVER_COMPANY_MAP", ""), ","));
      var greenhouseMap := CompanyMap(SplitAll(Field(config, "GREENHOUSE_COMPANY_MAP", ""), ","));
      (leverMap == [] && greenhouseMap == [] ==> jobCounts.None? && db.tables == middle) &&
      (leverMap != [] || greenhouseMap != [] ==>
        jobCounts.Some? &&
        (db.tables, jobCounts.value) == JobBoards(middle, db.refuses, DataCleaner.CleanJobPostingData, ["lever", "greenhouse"],
                                                  DefaultRoleKeywords(config), leverMap, greenhouseMap, lever, greenhouse))
  {
    ghost var processed;
    leadCounts, rawLeads, processed := RunLinkedInWorkflow(None, config, settings, search, process, db);
    middle := db.tables;
    jobCounts := RunJobBoardWorkflow(["lever", "greenhouse"], None, config, lever, greenhouse, db);
  }
}
