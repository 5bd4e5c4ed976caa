/**
 * The Greenhouse job-board client: postings of a public board are fetched,
 * optionally filtered by role keywords, mapped to the pipeline's posting
 * dictionaries and cached per board, keyword set and content flag.
 */
module Greenhouse {
  import opened Wrappers
  import opened Strings
  import opened Py
  import StringSort
  import opened ResponseCache

  const DefaultExpirySeconds: int := 3600 * 6
  const ExpiryKey := "GREENHOUSE_CACHE_EXPIRY_SECONDS"
  const BaseUrl := "https://boards-api.greenhouse.io/v1/boards"
  /** Characters of the job content kept in the snippet. */
  const SnippetLength: nat := 500

  /** The cache key: the token, the sorted keywords joined by `_`, and the content flag. */
  function CacheKey(token: string, keywords: seq<string>, content: bool): (r: string)
    ensures StartsWith(r, token + "_")
  {
    var middle := if keywords != [] then Join("_", StringSort.Sort(keywords)) else "";
    var r := token + "_" + middle + "_" + BoolText(content);
    assert r[..|token + "_"|] == token + "_";
    r
  }

  /** The key does not depend on the order in which the keywords are given. */
  lemma CacheKeyIgnoresOrder(token: string, k1: seq<string>, k2: seq<string>, content: bool)
    requires multiset(k1) == multiset(k2)
    ensures CacheKey(token, k1, content) == CacheKey(token, k2, content)
  {
    StringSort.SortPermutationInvariant(k1, k2);
    assert k1 == [] <==> k2 == [] by {
      assert |multiset(k1)| == |k1| && |multiset(k2)| == |k2|;
    }
  }

  /** Fetches with and without content are cached apart. */
  lemma CacheKeySeparatesMode(token: string, keywords: seq<string>)
    ensures CacheKey(token, keywords, true) != CacheKey(token, keywords, false)
  {
    assert |CacheKey(token, keywords, true)| + 1 == |CacheKey(token, keywords, false)|;
  }

  /** The jobs endpoint of a board, asking for the job content when `content` is set. */
  function ApiUrl(token: string, content: bool): (r: string)
    ensures StartsWith(r, BaseUrl + "/" + token + "/jobs")
  {
    var path := BaseUrl + "/" + token + "/jobs";
    var r := if content then path + "?content=true" else path;
    assert r[..|path|] == path;
    r
  }

  /** `content[:500].strip() + "..."` for truthy content and `""` otherwise; only text can be sliced and stripped. */
  function Snippet(content: Value): (r: Res<string>)
    ensures r.Ok? <==> !Truthy(content) || content.Str?
    ensures !Truthy(content) ==> r == Ok("")
    ensures Truthy(content) && r.Ok? ==> |r.value| <= SnippetLength + 3 && EndsWith(r.value, "...")
  {
    if !Truthy(content) then Ok("")
    else if content.Str? then
      var body := Strip(Take(content.s, SnippetLength));
      var r := body + "...";
      assert r[|r| - 3..] == "...";
      Ok(r)
    else if content.List? then Fail(AttributeError)
    else Fail(TypeError)
  }

  /** Short content without surrounding whitespace is kept whole. */
  lemma SnippetOfShortContent(s: string)
    requires 0 < |s| <= SnippetLength && !IsSpace(s[0]) && !IsSpace(s[|s| - 1])
    ensures Snippet(Str(s)) == Ok(s + "...")
  {
    StripNoEdgeSpace(s);
  }

  /** The location's `name` when the location is a dictionary, else the location itself. */
  function LocationName(post: Record): (r: Value)
    ensures Field(post, "location", Null).Dict? ==> r == Field(Field(post, "location", Null).fields, "name", Null)
  {
    var loc := Field(post, "location", Null);
    if loc.Dict? then Field(loc.fields, "name", Null) else Field(post, "location", Str(""))
  }

  /** Some keyword occurs in the text, both lowercased. */
  predicate Mentions(keywords: seq<string>, text: string)
  {
    exists i :: 0 <= i < |keywords| && Contains(Lower(text), Lower(keywords[i]))
  }

  /** The text the keywords are searched in: the title, a space and the content when there is any. */
  function SearchText(title: string, content: Value): string
    requires !Truthy(content) || content.Str?
  {
    title + " " + (if Truthy(content) then content.s else "")
  }

  /** The posting dictionary built from a job. */
  function PostingRecord(token: string, post: Record, snippet: string): (r: Record)
    ensures r.Keys == {"job_id", "job_title", "company_name", "job_location", "job_url", "job_description_snippet", "source_api"}
    ensures r["company_name"] == Str(token) && r["source_api"] == Str("Greenhouse")
    ensures r["job_title"] == Field(post, "title", Str("")) && r["job_url"] == Field(post, "absolute_url", Str(""))
  {
    map[
      "job_id" := Field(post, "id", Null),
      "job_title" := Field(post, "title", Str("")),
      "company_name" := Str(token),
      "job_location" := LocationName(post),
      "job_url" := Field(post, "absolute_url", Str("")),
      "job_description_snippet" := Str(snippet),
      "source_api" := Str("Greenhouse")
    ]
  }

  /**
   * One iteration of the parsing loop: a non-dictionary item is skipped; a
   * job is kept when there are no keywords or when one occurs in its search
   * text; slicing non-text content or concatenating a non-text title raises.
   */
  function ParsePosting(token: string, keywords: seq<string>, job: Value): (r: Res<Option<Record>>)
  {
    if !job.Dict? then Ok(None)
    else
      var post := job.fields;
      var title := Field(post, "title", Str(""));
      var content := Field(post, "content", Str(""));
      var snippet :- Snippet(content);
      if keywords == [] then Ok(Some(PostingRecord(token, post, snippet)))
      else if !title.Str? then Fail(TypeError)
      else if Mentions(keywords, SearchText(title.s, content)) then Ok(Some(PostingRecord(token, post, snippet)))
      else Ok(None)
  }

  /** A job with text fields parses, and is kept exactly when no keywords are given or one is mentioned. */
  lemma ParsePostingKeeps(token: string, keywords: seq<string>, post: Record, title: string, content: Value)
    requires Field(post, "title", Str("")) == Str(title) && Field(post, "content", Str("")) == content
    requires !Truthy(content) || content.Str?
    ensures ParsePosting(token, keywords, Dict(post)).Ok?
    ensures ParsePosting(token, keywords, Dict(post)).value.Some? <==>
      keywords == [] || Mentions(keywords, SearchText(title, content))
    ensures ParsePosting(token, keywords, Dict(post)).value.Some? ==>
      ParsePosting(token, keywords, Dict(post)).value.value == PostingRecord(token, post, Snippet(content).value)
  {
  }

  /** With keywords, a job whose title is not text makes the loop raise; without, it is kept. */
  lemma ParsePostingTitleNotText(token: string, keywords: seq<string>, post: Record)
    requires !Field(post, "title", Str("")).Str?
    requires !Truthy(Field(post, "content", Str("")))
    ensures keywords != [] ==> ParsePosting(token, keywords, Dict(post)) == Fail(TypeError)
    ensures keywords == [] ==> ParsePosting(token, keywords, Dict(post)).Ok? && ParsePosting(token, keywords, Dict(post)).value.Some?
  {
  }

  function Parser(token: string, keywords: seq<string>): Value -> Res<Option<Record>>
  {
    job => ParsePosting(token, keywords, job)
  }

  /**
   * The outcome of a fetch for the response `response` (`None` when the
   * request or the JSON decoding failed): `Some(postings)` to return and
   * cache, `None` to return `[]` without caching, or the exception raised.
   */
  function Postings(token: string, keywords: seq<string>, response: Option<Value>): (r: Res<Option<seq<Record>>>)
    ensures response.None? ==> r == Ok(None)
    ensures response.Some? && !response.value.Dict? ==> r == Fail(AttributeError)
  {
    if response.None? then Ok(None)
    else
      var jobs :- Get(response.value, "jobs", List([]));
      if !jobs.List? then Ok(None)
      else
        var ps :- SelectRes(jobs.items, Parser(token, keywords));
        Ok(Some(ps))
  }

  /**
   * For a response whose `jobs` is a list, the fetch raises exactly when
   * parsing some job raises, and otherwise returns exactly the jobs that
   * parse to a posting; a `jobs` value that is not a list returns nothing to cache.
   */
  lemma PostingsSpec(token: string, keywords: seq<string>, body: Record)
    ensures !Field(body, "jobs", List([])).List? ==> Postings(token, keywords, Some(Dict(body))) == Ok(None)
    ensures Field(body, "jobs", List([])).List? ==>
      var jobs := Field(body, "jobs", List([])).items;
      (Postings(token, keywords, Some(Dict(body))).Ok? <==>
        forall i :: 0 <= i < |jobs| ==> ParsePosting(token, keywords, jobs[i]).Ok?) &&
      (Postings(token, keywords, Some(Dict(body))).Ok? ==>
        Postings(token, keywords, Some(Dict(body))).value.Some? &&
        forall p :: p in Postings(token, keywords, Some(Dict(body))).value.value <==>
          exists i :: 0 <= i < |jobs| && ParsePosting(token, keywords, jobs[i]) == Ok(Some(p)))
  {
    var jobs := Field(body, "jobs", List([]));
    if jobs.List? {
      SelectResSpec(jobs.items, Parser(token, keywords));
    }
  }

  /** Without keywords, every job that is a dictionary with text or empty content is kept. */
  lemma PostingsWithoutKeywords(token: string, jobs: seq<Value>)
    requires forall i :: 0 <= i < |jobs| ==>
      jobs[i].Dict? && (!Truthy(Field(jobs[i].fields, "content", Str(""))) || Field(jobs[i].fields, "content", Str("")).Str?)
    ensures SelectRes(jobs, Parser(token, [])).Ok? && |SelectRes(jobs, Parser(token, [])).value| == |jobs|
  {
    SelectResKeepsAll(jobs, Parser(token, []));
  }

  /** The postings keep board order: those of a concatenation are those of its parts, concatenated. */
  lemma PostingsInOrder(token: string, keywords: seq<string>, a: seq<Value>, b: seq<Value>)
    requires SelectRes(a, Parser(token, keywords)).Ok? && SelectRes(b, Parser(token, keywords)).Ok?
    ensures SelectRes(a + b, Parser(token, keywords)) ==
      Ok(SelectRes(a, Parser(token, keywords)).value + SelectRes(b, Parser(token, keywords)).value)
  {
    SelectResAppend(a, b, Parser(token, keywords));
  }

  /** As written, clearing a board's cache also drops every board whose token extends it. */
  lemma ClearCacheDropsOtherBoards(cache: Cache<seq<Record>>)
    requires CacheKey("token10", [], true) in cache
    ensures CacheKey("token10", [], true) !in WithoutPrefix(cache, "token1")
  {
    assert CacheKey("token10", [], true) == "token10__True";
  }

  /** The entries of the board `token` removed: exactly the keys that start with the token and `_`. */
  function BoardCleared(cache: Cache<seq<Record>>, token: string): (r: Cache<seq<Record>>)
    ensures forall k :: k in r ==> k in cache && r[k] == cache[k]
  {
    WithoutPrefix(cache, token + "_")
  }

  /**
   * Clearing a board by its token and a separator removes every entry that
   * board's fetches wrote and keeps those of every other board, for tokens
   * without the separator.
   */
  lemma BoardClearedExact(cache: Cache<seq<Record>>, token: string, other: string, keywords: seq<string>, content: bool)
    requires '_' !in token && '_' !in other && other != token
    ensures CacheKey(token, keywords, content) !in BoardCleared(cache, token)
    ensures CacheKey(other, keywords, content) in cache ==>
      CacheKey(other, keywords, content) in BoardCleared(cache, token)
  {
    SeparatedPrefixes(CacheKey(other, keywords, content), token, other);
  }

  class GreenhouseClient {
    var cache: Cache<seq<Record>>
    const cacheExpirySeconds: int

    /** A new client starts with an empty cache and its configured expiry. */
    constructor (config: Config)
      ensures cache == map[]
      ensures cacheExpirySeconds == ExpirySetting(config, ExpiryKey, DefaultExpirySeconds)
    {
      cache := map[];
      cacheExpirySeconds := ExpirySetting(config, ExpiryKey, DefaultExpirySeconds);
    }

    /** `_is_cache_valid` with this client's expiry. */
    predicate IsCacheValid(e: Entry<seq<Record>>, now: real)
    {
      IsValid(e, now, cacheExpirySeconds)
    }

    /**
     * `clear_cache`: with a token, every entry whose key starts with the
     * token is deleted and all others are kept (which also drops the
     * entries of any board whose token extends it, see
     * `ClearCacheDropsOtherBoards`; `BoardCleared` is the clear that keeps
     * them); without one, the cache is emptied.
     */
    method ClearCache(boardToken: Option<string>)
      modifies this
      ensures boardToken.Some? && boardToken.value != [] ==> cache == WithoutPrefix(old(cache), boardToken.value)
      ensures boardToken.None? || boardToken.value == [] ==> cache == map[]
    {
      if boardToken.Some? && boardToken.value != [] {
        var keysToDelete := set k | k in cache && StartsWith(k, boardToken.value);
        var remaining := keysToDelete;
        while remaining != {}
          invariant remaining <= keysToDelete
          invariant cache == map k | k in old(cache) && k !in keysToDelete - remaining :: old(cache)[k]
          decreases remaining
        {
          var k :| k in remaining;
          cache := cache - {k};
          remaining := remaining - {k};
        }
      } else {
        cache := map[];
      }
    }

    /**
     * `get_postings`: an empty token returns `[]`; a valid cached entry is
     * returned with no request; otherwise the board's jobs endpoint is
     * requested once, and the outcome is returned and, when it is a list of
     * postings, stored under the key with the current time. `requests` lists
     * the URLs requested.
     */
    method GetPostings(boardToken: string, roleKeywords: seq<string>, content: bool, now: real, fetch: string -> Option<Value>)
      returns (r: Res<seq<Record>>, ghost requests: seq<string>)
      modifies this
      ensures boardToken == [] ==> r == Ok([]) && requests == [] && cache == old(cache)
      ensures boardToken != [] ==>
        var key := CacheKey(boardToken, roleKeywords, content);
        var hit := Lookup(old(cache), key, now, cacheExpirySeconds);
        (hit.Some? ==> r == Ok(hit.value) && requests == [] && cache == old(cache)) &&
        (hit.None? ==>
          requests == [ApiUrl(boardToken, content)] &&
          AfterFetch(r, cache, old(cache), key, now, Postings(boardToken, roleKeywords, fetch(ApiUrl(boardToken, content))), []))
    {
      requests := [];
      if boardToken == [] {
        return Ok([]), requests;
      }
      var key := CacheKey(boardToken, roleKeywords, content);
      if key in cache && IsCacheValid(cache[key], now) {
        return Ok(cache[key].data.value), requests;
      }
      var url := ApiUrl(boardToken, content);
      requests := [url];
      var response := fetch(url);
      if response.None? {
        return Ok([]), requests;
      }
      if !response.value.Dict? {
        return Fail(AttributeError), requests;
      }
      var jobs := Field(response.value.fields, "jobs", List([]));
      if !jobs.List? {
        return Ok([]), requests;
      }
      var items := jobs.items;
      var parsed: seq<Record> := [];
      for i := 0 to |items|
        invariant SelectRes(items[..i], Parser(boardToken, roleKeywords)) == Ok(parsed)
      {
        assert items[..i + 1][..i] == items[..i];
        var post := ParsePosting(boardToken, roleKeywords, items[i]);
        if post.Fail? {
          SelectResPrefixFailure(items, i + 1, Parser(boardToken, roleKeywords));
          return Fail(post.error), requests;
        }
        if post.value.Some? {
          parsed := parsed + [post.value.value];
        }
      }
      assert items[..|items|] == items;
      cache := cache[key := Stored(now, parsed)];
      r := Ok(parsed);
    }
  }
}
