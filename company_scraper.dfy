/**
 * The company scraper: company facts are looked up through a web-search
 * API (SerpApi) — the LinkedIn company page of a name, the data shown for
 * that page, and a general profile — with the page data cached per URL.
 */
module CompanyScraping {
  import opened Wrappers
  import opened Strings
  import opened Py
  import opened ResponseCache
  import opened SerpApi

  const DefaultExpirySeconds: int := 3600 * 24
  const ExpiryKey := "COMPANY_CACHE_EXPIRY_SECONDS"

  /** The parameters `_make_serpapi_request` sends. */
  function RequestParams(query: string, apiKey: string, num: nat): (r: Params)
    ensures r.Keys == {"engine", "q", "api_key", "num"} && r["q"] == query && r["num"] == NatToString(num)
  {
    map["engine" := "google", "q" := query, "api_key" := apiKey, "num" := NatToString(num)]
  }

  /**
   * `_make_serpapi_request`: no key, a raising call, results that are not a
   * dictionary, an `error` entry, or missing or empty organic results all
   * give `None`; otherwise the results.
   */
  function SerpApiRequest(apiKey: string, query: string, num: nat, search: Search): (r: Option<Value>)
    ensures apiKey == [] ==> r.None?
    ensures r.Some? ==> r.value.Dict? && "organic_results" in r.value.fields && Truthy(r.value.fields["organic_results"])
    ensures r.Some? ==> Some(r.value) == search(RequestParams(query, apiKey, num)) && !Truthy(Field(r.value.fields, "error", Null))
  {
    if apiKey == [] then None
    else
      match search(RequestParams(query, apiKey, num))
      case None => None
      case Some(results) =>
        if !results.Dict? || Truthy(Field(results.fields, "error", Null)) then None
        else if "organic_results" !in results.fields || !Truthy(results.fields["organic_results"]) then None
        else Some(results)
  }

  // ---------------------------------------------------------------------
  // Finding the LinkedIn company page of a name

  /** The query searched for a company's LinkedIn page. */
  function PageQuery(companyName: string): string
  {
    companyName + " site:linkedin.com/company"
  }

  /** A search result whose `link` and `title` (defaulting to `""`) can be lowercased. */
  predicate Readable(result: Value)
  {
    result.Dict? && Field(result.fields, "link", Str("")).Str? && Field(result.fields, "title", Str("")).Str?
  }

  function LinkOf(result: Value): string
    requires Readable(result)
  {
    Field(result.fields, "link", Str("")).s
  }

  /** The result links a LinkedIn company page whose title mentions the company, both compared lowercased. */
  predicate IsCompanyPage(result: Value, companyName: string)
  {
    Readable(result) &&
    Contains(Lower(LinkOf(result)), "linkedin.com/company/") &&
    Contains(Lower(Field(result.fields, "title", Str("")).s), Lower(companyName))
  }

  /** The result is readable and is not a company page: the search loop passes over it. */
  predicate PassedOver(result: Value, companyName: string)
  {
    Readable(result) && !IsCompanyPage(result, companyName)
  }

  /**
   * The search loop over the organic results: the link, in its original
   * case, of the first company page; a result that cannot be read raises.
   */
  function FirstCompanyPage(results: seq<Value>, companyName: string): Res<Option<string>>
    decreases |results|
  {
    if results == [] then Ok(None)
    else if !Readable(results[0]) then Fail(AttributeError)
    else if IsCompanyPage(results[0], companyName) then Ok(Some(LinkOf(results[0])))
    else FirstCompanyPage(results[1..], companyName)
  }

  /**
   * A link is found exactly at the first company page, after results that
   * are all passed over; nothing is found exactly when every result is
   * passed over.
   */
  lemma {:induction false} FirstCompanyPageSpec(results: seq<Value>, companyName: string)
    ensures var r := FirstCompanyPage(results, companyName);
      r.Ok? && r.value.Some? ==>
        exists i :: 0 <= i < |results| && IsCompanyPage(results[i], companyName) && LinkOf(results[i]) == r.value.value &&
          forall j :: 0 <= j < i ==> PassedOver(results[j], companyName)
    ensures FirstCompanyPage(results, companyName) == Ok(None) <==>
      forall i :: 0 <= i < |results| ==> PassedOver(results[i], companyName)
    decreases |results|
  {
    if results == [] {
    } else if !Readable(results[0]) {
      assert !PassedOver(results[0], companyName);
    } else if IsCompanyPage(results[0], companyName) {
      assert !PassedOver(results[0], companyName);
    } else {
      var tail := results[1..];
      FirstCompanyPageSpec(tail, companyName);
      var r := FirstCompanyPage(tail, companyName);
      assert FirstCompanyPage(results, companyName) == r;
      assert forall i :: 1 <= i < |results| ==> tail[i - 1] == results[i];
      if r.Ok? && r.value.Some? {
        var i :| 0 <= i < |tail| && IsCompanyPage(tail[i], companyName) && LinkOf(tail[i]) == r.value.value &&
          forall j :: 0 <= j < i ==> PassedOver(tail[j], companyName);
        assert forall j :: 0 <= j < i + 1 ==> PassedOver(results[j], companyName);
      }
    }
  }

  /** `find_company_linkedin_url` as a value: `None` when the search gives nothing to look through. */
  function CompanyPageUrl(apiKey: string, companyName: string, search: Search): (r: Res<Option<string>>)
    ensures apiKey == [] ==> r == Ok(None)
  {
    match SerpApiRequest(apiKey, PageQuery(companyName), 3, search)
    case None => Ok(None)
    case Some(results) =>
      var organic :- Iterate(results.fields["organic_results"]);
      FirstCompanyPage(organic, companyName)
  }

  // ---------------------------------------------------------------------
  // The general company profile

  /** The parameters `get_company_info` sends; the key travels with the client. */
  function ProfileParams(companyName: string): (r: Params)
    ensures "q" in r && r["q"] == companyName + " company profile overview linkedin"
  {
    map["engine" := "google", "q" := companyName + " company profile overview linkedin", "gl" := "us", "hl" := "en"]
  }

  /** Name and description from the knowledge graph, and its first header image's source as the website when it mentions `http`. */
  function GraphInfo(kg: Value): (r: Res<Record>)
    ensures r.Ok? ==> kg.Dict? && "name" in r.value && r.value["name"] == Field(kg.fields, "title", Null)
  {
    if !kg.Dict? then Fail(AttributeError)
    else
      var info := map["name" := Field(kg.fields, "title", Null), "description" := Field(kg.fields, "description", Null)];
      var header :- First(Field(kg.fields, "header_images", List([Dict(map[])])));
      var source :- Get(header, "source", Null);
      if !Truthy(source) then Ok(info)
      else
        var http :- In("http", source);
        Ok(if http then info["website" := source] else info)
  }

  /** The top organic link becomes the website unless it is a LinkedIn or Wikipedia link. */
  function OrganicWebsite(info: Record, link: Value): (r: Res<Record>)
    ensures r.Ok? ==> forall k :: k != "website" ==> (k in r.value <==> k in info) && (k in info ==> r.value[k] == info[k])
  {
    if !Truthy(link) then Ok(info)
    else
      var onLinkedIn :- In("linkedin.com", link);
      if onLinkedIn then Ok(info)
      else
        var onWikipedia := In("wikipedia.org", link).value;
        Ok(if onWikipedia then info else info["website" := link])
  }

  /** A missing name becomes the top title before its first `-`, stripped. */
  function OrganicName(info: Record, top: Record): (r: Res<Record>)
  {
    if Truthy(Field(info, "name", Null)) then Ok(info)
    else
      var title := Field(top, "title", Str(""));
      if !title.Str? then Fail(AttributeError)
      else Ok(info["name" := Str(Strip(Before(title.s, "-")))])
  }

  /** The top organic result supplies the website, then a missing name and a missing description. */
  function OrganicInfo(results: Record, info: Record): (r: Res<Record>)
  {
    var organic := Field(results, "organic_results", List([]));
    if !Truthy(organic) then Ok(info)
    else
      var top :- First(organic);
      var link :- Get(top, "link", Null);
      var withSite :- OrganicWebsite(info, link);
      var withName :- OrganicName(withSite, top.fields);
      if Truthy(Field(withName, "description", Null)) then Ok(withName)
      else Ok(withName["description" := Field(top.fields, "snippet", Null)])
  }

  /** A still missing name becomes the query text before ` company profile`. */
  function QueryName(results: Record, info: Record): (r: Res<Record>)
  {
    var parameters := Field(results, "search_parameters", Dict(map[]));
    var q :- Get(parameters, "q", Str("Unknown"));
    if !q.Str? then Fail(AttributeError)
    else Ok(info["name" := Str(Before(q.s, " company profile"))])
  }

  /**
   * `_parse_company_results`: knowledge graph first, then the top organic
   * result when no website was found, then the query; `None` when no name
   * could be found.
   */
  function ParseCompanyResults(results: Value): (r: Res<Option<Record>>)
    ensures r.Ok? ==> results.Dict?
    ensures r.Ok? && r.value.Some? ==> "name" in r.value.value && Truthy(r.value.value["name"])
  {
    var kg :- Get(results, "knowledge_graph", Dict(map[]));
    var fromGraph :- if Truthy(kg) then GraphInfo(kg) else Ok(map[]);
    var withOrganic :- if Truthy(Field(fromGraph, "website", Null)) then Ok(fromGraph) else OrganicInfo(results.fields, fromGraph);
    var named :- if Truthy(Field(withOrganic, "name", Null)) then Ok(withOrganic) else QueryName(results.fields, withOrganic);
    Ok(if Truthy(Field(named, "name", Null)) then Some(named) else None)
  }

  /** A titled knowledge graph names the company, and a named result is always returned. */
  lemma ParseGraphName(results: Record, title: Value)
    requires "knowledge_graph" in results && results["knowledge_graph"].Dict?
    requires Field(results["knowledge_graph"].fields, "title", Null) == title && Truthy(title)
    requires ParseCompanyResults(Dict(results)).Ok?
    ensures ParseCompanyResults(Dict(results)).value.Some?
    ensures ParseCompanyResults(Dict(results)).value.value["name"] == title
  {
    var kg := results["knowledge_graph"];
    assert "title" in kg.fields;
    assert Truthy(kg);
    var fromGraph := GraphInfo(kg).value;
    if !Truthy(Field(fromGraph, "website", Null)) {
      var organic := Field(results, "organic_results", List([]));
      if Truthy(organic) {
        var top := First(organic).value;
        var withSite := OrganicWebsite(fromGraph, Get(top, "link", Null).value).value;
        assert withSite["name"] == title;
      }
    }
  }

  /** Without a knowledge graph, a named result keeps the website the organic step found, and the name it found when it found one. */
  lemma ParseWithoutGraph(results: Record)
    requires Field(results, "knowledge_graph", Dict(map[])) == Dict(map[])
    requires ParseCompanyResults(Dict(results)).Ok?
    ensures OrganicInfo(results, map[]).Ok?
    ensures var found := OrganicInfo(results, map[]).value;
      Truthy(Field(found, "name", Null)) ==> ParseCompanyResults(Dict(results)) == Ok(Some(found))
    ensures ParseCompanyResults(Dict(results)).value.Some? ==>
      var found := OrganicInfo(results, map[]).value;
      var info := ParseCompanyResults(Dict(results)).value.value;
      ("website" in info <==> "website" in found) && ("website" in found ==> info["website"] == found["website"])
  {
    assert !Truthy(Dict(map[]));
    var empty: Record := map[];
    assert !Truthy(Field(empty, "website", Null));
  }

  /** Without a knowledge graph, the top organic link is the website exactly when it is neither a LinkedIn nor a Wikipedia link. */
  lemma ParseOrganicWebsite(results: Record, top: Record, rest: seq<Value>, link: string)
    requires Field(results, "knowledge_graph", Dict(map[])) == Dict(map[])
    requires Field(results, "organic_results", List([])) == List([Dict(top)] + rest)
    requires Field(top, "link", Null) == Str(link) && link != []
    requires ParseCompanyResults(Dict(results)).Ok? && ParseCompanyResults(Dict(results)).value.Some?
    ensures var info := ParseCompanyResults(Dict(results)).value.value;
      ("website" in info <==> !Contains(link, "linkedin.com") && !Contains(link, "wikipedia.org")) &&
      ("website" in info ==> info["website"] == Str(link))
  {
    ParseWithoutGraph(results);
    var withSite := OrganicWebsite(map[], Str(link));
    assert withSite.Ok?;
    var withName := OrganicName(withSite.value, top);
    assert withName.Ok?;
    assert "website" in withName.value <==> "website" in withSite.value;
  }

  /** Without a knowledge graph, a named result takes its name from the top title before its first `-`, when that is not blank. */
  lemma ParseOrganicName(results: Record, top: Record, rest: seq<Value>, title: string)
    requires Field(results, "knowledge_graph", Dict(map[])) == Dict(map[])
    requires Field(results, "organic_results", List([])) == List([Dict(top)] + rest)
    requires Field(top, "title", Str("")) == Str(title) && Strip(Before(title, "-")) != []
    requires ParseCompanyResults(Dict(results)).Ok?
    ensures ParseCompanyResults(Dict(results)).value.Some?
    ensures ParseCompanyResults(Dict(results)).value.value["name"] == Str(Strip(Before(title, "-")))
  {
    ParseWithoutGraph(results);
    OrganicTitleName(results, top, rest, title);
    var found := OrganicInfo(results, map[]).value;
    assert Truthy(Field(found, "name", Null));
  }

  /** Starting from nothing, the organic step names the company after the top title before its first `-`. */
  lemma OrganicTitleName(results: Record, top: Record, rest: seq<Value>, title: string)
    requires Field(results, "organic_results", List([])) == List([Dict(top)] + rest)
    requires Field(top, "title", Str("")) == Str(title)
    requires OrganicInfo(results, map[]).Ok?
    ensures Field(OrganicInfo(results, map[]).value, "name", Null) == Str(Strip(Before(title, "-")))
  {
    var withSite := OrganicWebsite(map[], Get(Dict(top), "link", Null).value);
    assert withSite.Ok?;
    assert !Truthy(Field(withSite.value, "name", Null));
  }

  /**
   * With neither knowledge graph nor organic results, the name is the query
   * before ` company profile`, and the result is `None` when that is empty.
   */
  lemma ParseQueryFallback(results: Record, q: string)
    requires Field(results, "knowledge_graph", Dict(map[])) == Dict(map[])
    requires "organic_results" !in results
    requires Field(results, "search_parameters", Dict(map[])) == Dict(map["q" := Str(q)])
    ensures var name := Before(q, " company profile");
      ParseCompanyResults(Dict(results)) == (if name == [] then Ok(None) else Ok(Some(map["name" := Str(name)])))
  {
  }

  /** `get_company_info`: no key gives `None`, and so does any exception raised by the search or the parsing. */
  function CompanyInfo(apiKey: string, companyName: string, search: Search): (r: Option<Record>)
    ensures apiKey == [] ==> r.None?
    ensures r.Some? ==>
      search(ProfileParams(companyName)).Some? &&
      ParseCompanyResults(search(ProfileParams(companyName)).value) == Ok(r)
  {
    if apiKey == [] then None
    else
      match search(ProfileParams(companyName))
      case None => None
      case Some(results) =>
        match ParseCompanyResults(results)
        case Ok(info) => info
        case Fail(_) => None
  }

  // ---------------------------------------------------------------------
  // Extracting the data of a company page

  /** The dictionary extraction starts from: the URL and every other field `None`. */
  function Blank(url: string): (r: Record)
    ensures r.Keys == {"linkedin_url", "name", "description", "industry", "size", "location", "website"}
  {
    map["linkedin_url" := Str(url), "name" := Null, "description" := Null, "industry" := Null,
        "size" := Null, "location" := Null, "website" := Null]
  }

  /** The industry the knowledge graph gives: set only for an organization type, preferring `industry` to the type. */
  function GraphIndustry(kg: Record): Value
  {
    var typ := Field(kg, "type", Null);
    if Truthy(typ) && typ.Str? && Contains(Lower(typ.s), "organization") then
      if Truthy(Field(kg, "industry", Null)) then Field(kg, "industry", Null) else typ
    else Null
  }

  /** Name, description, industry and website from the knowledge graph; a truthy type that is not text cannot be lowercased. */
  function GraphExtract(info: Record, kg: Value): (r: Res<Record>)
    requires "name" in info && "description" in info && "industry" in info && "website" in info
    ensures r.Ok? ==> kg.Dict? && r.value.Keys == info.Keys
    ensures r.Ok? ==> forall k :: k in info && k != "name" && k != "description" && k != "industry" && k != "website" ==> r.value[k] == info[k]
    ensures r.Ok? ==> r.value["name"] == Field(kg.fields, "title", Null) && r.value["description"] == Field(kg.fields, "description", Null)
    ensures r.Ok? ==> r.value["website"] == Field(kg.fields, "website", Null)
    ensures r.Ok? ==> r.value["industry"] == (if GraphIndustry(kg.fields).Null? then info["industry"] else GraphIndustry(kg.fields))
  {
    if !kg.Dict? then Fail(AttributeError)
    else
      var g := kg.fields;
      var named := info["name" := Field(g, "title", Null)]["description" := Field(g, "description", Null)];
      var typ := Field(g, "type", Null);
      var lowered :- if Truthy(typ) then LowerOf(typ) else Ok("");
      var withIndustry := if Truthy(typ) && Contains(lowered, "organization") then named["industry" := GraphIndustry(g)] else named;
      Ok(withIndustry["website" := Field(g, "website", Null)])
  }

  /** Name, a missing description and a missing website from the first organic result; the website only when its link is not a LinkedIn one. */
  function OrganicExtract(info: Record, organic: Value): (r: Res<Record>)
    requires "name" in info && "description" in info && "website" in info
    ensures r.Ok? ==> r.value.Keys == info.Keys
    ensures r.Ok? ==> forall k :: k in info && k != "name" && k != "description" && k != "website" ==> r.value[k] == info[k]
  {
    var first :- First(organic);
    if !first.Dict? then Fail(AttributeError)
    else
      var f := first.fields;
      var named := info["name" := Field(f, "title", Null)];
      var described := if Truthy(info["description"]) then named else named["description" := Field(f, "snippet", Null)];
      if Truthy(info["website"]) then Ok(described)
      else
        var onLinkedIn :- In("linkedin.com", Field(f, "link", Str("")));
        Ok(if onLinkedIn then described else described["website" := Field(f, "link", Null)])
  }

  /**
   * The name cleanup: ` - LinkedIn` is removed and the rest stripped, then
   * everything from ` | LinkedIn` on is dropped and the rest stripped; only
   * text can be cleaned.
   */
  function CleanName(name: Value): (r: Res<Value>)
    ensures r.Ok? && r.value.Str? ==> !Contains(r.value.s, " | LinkedIn")
    ensures !Truthy(name) ==> r == Ok(name)
    ensures name.Str? && !Contains(name.s, " - LinkedIn") && !Contains(name.s, " | LinkedIn") ==> r == Ok(name)
    ensures name.Str? && !Contains(name.s, " - LinkedIn") && Contains(name.s, " | LinkedIn") ==>
      r == Ok(Str(Strip(Before(name.s, " | LinkedIn"))))
    ensures name.Str? && Contains(name.s, " - LinkedIn") ==>
      var undashed := Strip(ReplaceAll(name.s, " - LinkedIn", ""));
      r == Ok(Str(if Contains(undashed, " | LinkedIn") then Strip(Before(undashed, " | LinkedIn")) else undashed))
    ensures !name.Str? && Truthy(name) ==>
      (r.Ok? <==> In(" - LinkedIn", name) == Ok(false) && In(" | LinkedIn", name) == Ok(false)) && (r.Ok? ==> r == Ok(name))
  {
    var dashed :- if Truthy(name) then In(" - LinkedIn", name) else Ok(false);
    if dashed && !name.Str? then Fail(AttributeError)
    else
      var n := if dashed then Str(Strip(ReplaceAll(name.s, " - LinkedIn", ""))) else name;
      var piped := Truthy(n) && In(" | LinkedIn", n).value;
      if !piped then
        if n.Str? && n.s == [] then
          ShorterLacks(n.s, " | LinkedIn");
          Ok(n)
        else Ok(n)
      else if n.Str? then
        ContainsOfStrip(Before(n.s, " | LinkedIn"), " | LinkedIn");
        Ok(Str(Strip(Before(n.s, " | LinkedIn"))))
      else Fail(AttributeError)
  }

  /**
   * The data extracted from the search results of a company page, for
   * results that passed the request checks: knowledge graph first, the
   * first organic result when no name was found, then the name cleanup.
   */
  function ExtractedInfo(url: string, results: Record): (r: Res<Record>)
    ensures r.Ok? ==> r.value.Keys == Blank(url).Keys && r.value["linkedin_url"] == Str(url)
    ensures r.Ok? && r.value["name"].Str? ==> !Contains(r.value["name"].s, " | LinkedIn")
  {
    var found :- FoundInfo(url, results);
    var name :- CleanName(found["name"]);
    Ok(found["name" := name])
  }

  /** The fields found before the name cleanup. */
  function FoundInfo(url: string, results: Record): (r: Res<Record>)
    ensures r.Ok? ==> r.value.Keys == Blank(url).Keys && r.value["linkedin_url"] == Str(url)
  {
    var fromGraph :- if "knowledge_graph" in results then GraphExtract(Blank(url), results["knowledge_graph"]) else Ok(Blank(url));
    if !Truthy(fromGraph["name"]) && "organic_results" in results && Truthy(results["organic_results"])
    then OrganicExtract(fromGraph, results["organic_results"]) else Ok(fromGraph)
  }

  /** The industry is set only from an organization-typed knowledge graph, to its `industry` or else its type. */
  lemma ExtractedIndustry(url: string, results: Record)
    requires ExtractedInfo(url, results).Ok?
    ensures "knowledge_graph" in results ==>
      results["knowledge_graph"].Dict? &&
      ExtractedInfo(url, results).value["industry"] == GraphIndustry(results["knowledge_graph"].fields)
    ensures "knowledge_graph" !in results ==> ExtractedInfo(url, results).value["industry"] == Null
  {
  }

  /** A titled knowledge graph also supplies the description and the website; the organic results are not consulted. */
  lemma ExtractedFromGraph(url: string, results: Record)
    requires "knowledge_graph" in results && results["knowledge_graph"].Dict?
    requires Truthy(Field(results["knowledge_graph"].fields, "title", Null))
    requires ExtractedInfo(url, results).Ok?
    ensures var g := results["knowledge_graph"].fields;
      ExtractedInfo(url, results).value["description"] == Field(g, "description", Null) &&
      ExtractedInfo(url, results).value["website"] == Field(g, "website", Null)
  {
  }

  /** Without a knowledge graph, the first organic link is the website exactly when it is not a LinkedIn link. */
  lemma ExtractedOrganicWebsite(url: string, results: Record, first: Record, rest: seq<Value>, link: string)
    requires "knowledge_graph" !in results
    requires "organic_results" in results && results["organic_results"] == List([Dict(first)] + rest)
    requires "link" in first && first["link"] == Str(link)
    requires ExtractedInfo(url, results).Ok?
    ensures ExtractedInfo(url, results).value["website"] == if Contains(link, "linkedin.com") then Null else Str(link)
  {
  }

  class CompanyScraper {
    const apiKey: string
    var cache: Cache<Record>
    const cacheExpirySeconds: int

    /** A new scraper has the configured key, an empty cache and its configured expiry. */
    constructor (config: Config, scrapingApiKey: string)
      ensures apiKey == scrapingApiKey && cache == map[]
      ensures cacheExpirySeconds == ExpirySetting(config, ExpiryKey, DefaultExpirySeconds)
    {
      apiKey := scrapingApiKey;
      cache := map[];
      cacheExpirySeconds := ExpirySetting(config, ExpiryKey, DefaultExpirySeconds);
    }

    /** `_is_cache_valid` with this scraper's expiry. */
    predicate IsCacheValid(e: Entry<Record>, now: real)
    {
      IsValid(e, now, cacheExpirySeconds)
    }

    /** `clear_cache` empties the cache. */
    method ClearCache()
      modifies this
      ensures cache == map[]
    {
      cache := map[];
    }

    /** `find_company_linkedin_url`: the search loop, leaving at the first company page. */
    method FindCompanyLinkedInUrl(companyName: string, search: Search) returns (r: Res<Option<string>>)
      ensures r == CompanyPageUrl(apiKey, companyName, search)
    {
      var results := SerpApiRequest(apiKey, PageQuery(companyName), 3, search);
      if results.None? {
        return Ok(None);
      }
      var organic := Iterate(results.value.fields["organic_results"]);
      if organic.Fail? {
        return Fail(organic.error);
      }
      var items := organic.value;
      var i := 0;
      while i < |items|
        invariant 0 <= i <= |items|
        invariant FirstCompanyPage(items[i..], companyName) == FirstCompanyPage(items, companyName)
      {
        var result := items[i];
        if !result.Dict? {
          return Fail(AttributeError);
        }
        var link := LowerOf(Field(result.fields, "link", Str("")));
        if link.Fail? {
          return Fail(link.error);
        }
        var title := LowerOf(Field(result.fields, "title", Str("")));
        if title.Fail? {
          return Fail(title.error);
        }
        if Contains(link.value, "linkedin.com/company/") && Contains(title.value, Lower(companyName)) {
          return Ok(Some(Field(result.fields, "link", Str("")).s));
        }
        assert items[i..][1..] == items[i + 1..];
        i := i + 1;
      }
      return Ok(None);
    }

    /**
     * `extract_company_data_from_url`: a valid cached entry is returned with
     * no request; otherwise the URL itself is searched once, `None` is
     * returned with the cache untouched when the request gives nothing, and
     * the extracted data is returned and stored under the URL with the
     * current time. `requests` lists the requests made.
     */
    method ExtractCompanyDataFromUrl(url: string, now: real, search: Search)
      returns (r: Res<Option<Record>>, ghost requests: seq<Params>)
      modifies this
      ensures Lookup(old(cache), url, now, cacheExpirySeconds).Some? ==>
        r == Ok(Lookup(old(cache), url, now, cacheExpirySeconds)) && requests == [] && cache == old(cache)
      ensures Lookup(old(cache), url, now, cacheExpirySeconds).None? ==>
        requests == (if apiKey == [] then [] else [RequestParams(url, apiKey, 1)]) &&
        match SerpApiRequest(apiKey, url, 1, search)
        case None => r == Ok(None) && cache == old(cache)
        case Some(results) =>
          match ExtractedInfo(url, results.fields)
          case Fail(e) => r == Fail(e) && cache == old(cache)
          case Ok(info) => r == Ok(Some(info)) && cache == old(cache)[url := Stored(now, info)]
    {
      requests := [];
      if url in cache && IsCacheValid(cache[url], now) {
        return Ok(cache[url].data), requests;
      }
      if apiKey != [] {
        requests := [RequestParams(url, apiKey, 1)];
      }
      var results := SerpApiRequest(apiKey, url, 1, search);
      if results.None? {
        return Ok(None), requests;
      }
      var info := ExtractedInfo(url, results.value.fields);
      if info.Fail? {
        return Fail(info.error), requests;
      }
      cache := cache[url := Stored(now, info.value)];
      r := Ok(Some(info.value));
    }
  }
}
