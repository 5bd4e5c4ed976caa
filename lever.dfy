/**
 * The Lever job-board client: the public postings of a company are
 * fetched, optionally filtered by role keywords, mapped to the pipeline's
 * posting dictionaries and cached per company and keyword set.
 */
module Lever {
  import opened Wrappers
  import opened Strings
  import opened Py
  import StringSort
  import opened ResponseCache

  const DefaultExpirySeconds: int := 3600 * 6
  const ExpiryKey := "LEVER_CACHE_EXPIRY_SECONDS"
  const BaseUrl := "https://api.lever.co/v0/postings"
  /** Characters of the plain description kept in the snippet. */
  const SnippetLength: nat := 250

  /** The cache key: the company id and the sorted keywords joined by `_`; there is no mode flag. */
  function CacheKey(id: string, keywords: seq<string>): (r: string)
    ensures StartsWith(r, id + "_")
  {
    var r := id + "_" + (if keywords != [] then Join("_", StringSort.Sort(keywords)) else "");
    assert r[..|id + "_"|] == id + "_";
    r
  }

  /** The key does not depend on the order in which the keywords are given. */
  lemma CacheKeyIgnoresOrder(id: string, k1: seq<string>, k2: seq<string>)
    requires multiset(k1) == multiset(k2)
    ensures CacheKey(id, k1) == CacheKey(id, k2)
  {
    StringSort.SortPermutationInvariant(k1, k2);
    assert k1 == [] <==> k2 == [] by {
      assert |multiset(k1)| == |k1| && |multiset(k2)| == |k2|;
    }
  }

  /** The postings endpoint of a company. */
  function ApiUrl(id: string): (r: string)
    ensures StartsWith(r, BaseUrl + "/") && EndsWith(r, id)
  {
    var r := BaseUrl + "/" + id;
    assert r[..|BaseUrl + "/"|] == BaseUrl + "/";
    assert r[|r| - |id|..] == id;
    r
  }

  /**
   * `descriptionPlain[:250] + "..."` when the description is truthy and `""`
   * otherwise; a truthy description that is not text cannot be sliced and
   * concatenated with text.
   */
  function Snippet(description: Value): (r: Res<string>)
    ensures r.Ok? <==> !Truthy(description) || description.Str?
    ensures !Truthy(description) ==> r == Ok("")
    ensures Truthy(description) && r.Ok? ==>
      |r.value| <= SnippetLength + 3 && EndsWith(r.value, "...") && StartsWith(description.s, r.value[..|r.value| - 3])
  {
    if !Truthy(description) then Ok("")
    else if description.Str? then
      var r := Take(description.s, SnippetLength) + "...";
      assert r[|r| - 3..] == "...";
      assert r[..|r| - 3] == Take(description.s, SnippetLength);
      Ok(r)
    else Fail(TypeError)
  }

  /**
   * The keyword loop: for each keyword in turn, its lowercase form is looked
   * for in the lowercase title and, failing that, in the lowercase
   * description; the first hit ends the loop. A title that is not text, or
   * a description that is not text and has to be searched, raises.
   */
  function Matches(keywords: seq<string>, title: string, description: Value): (r: Res<bool>)
    decreases |keywords|
  {
    if keywords == [] then Ok(false)
    else
      var k := Lower(keywords[0]);
      if Contains(Lower(title), k) then Ok(true)
      else if !description.Str? then Fail(AttributeError)
      else if Contains(Lower(description.s), k) then Ok(true)
      else Matches(keywords[1..], title, description)
  }

  /** Some keyword occurs in the title or in the description, both lowercased. */
  predicate Mentions(keywords: seq<string>, title: string, description: string)
  {
    exists i :: 0 <= i < |keywords| &&
      (Contains(Lower(title), Lower(keywords[i])) || Contains(Lower(description), Lower(keywords[i])))
  }

  /** With a text description, the loop finds a match exactly when some keyword is mentioned. */
  lemma {:induction false} MatchesMentions(keywords: seq<string>, title: string, description: string)
    ensures Matches(keywords, title, Str(description)) == Ok(Mentions(keywords, title, description))
    decreases |keywords|
  {
    if keywords != [] {
      MatchesMentions(keywords[1..], title, description);
      var tail := keywords[1..];
      if Mentions(tail, title, description) {
        var i :| 0 <= i < |tail| &&
          (Contains(Lower(title), Lower(tail[i])) || Contains(Lower(description), Lower(tail[i])));
        assert tail[i] == keywords[i + 1];
      }
      if Mentions(keywords, title, description) {
        var i :| 0 <= i < |keywords| &&
          (Contains(Lower(title), Lower(keywords[i])) || Contains(Lower(description), Lower(keywords[i])));
        if i > 0 {
          assert tail[i - 1] == keywords[i];
        }
      }
    }
  }

  /**
   * With a description that is not text (a `null` one, say), the loop
   * succeeds only when the first keyword is in the title, and raises otherwise.
   */
  lemma MatchesWithoutDescription(keywords: seq<string>, title: string, description: Value)
    requires keywords != [] && !description.Str?
    ensures Contains(Lower(title), Lower(keywords[0])) ==> Matches(keywords, title, description) == Ok(true)
    ensures !Contains(Lower(title), Lower(keywords[0])) ==> Matches(keywords, title, description) == Fail(AttributeError)
  {
  }

  /** The posting dictionary built from a posting and its category values. */
  function PostingRecord(id: string, post: Record, location: Value, commitment: Value, snippet: string): (r: Record)
    ensures r.Keys == {"job_title", "company_name", "job_location", "commitment", "job_url", "job_description_snippet", "source_api"}
    ensures r["company_name"] == Str(id) && r["source_api"] == Str("Lever")
    ensures r["job_title"] == Field(post, "text", Str("")) && r["job_url"] == Field(post, "hostedUrl", Str(""))
  {
    map[
      "job_title" := Field(post, "text", Str("")),
      "company_name" := Str(id),
      "job_location" := location,
      "commitment" := commitment,
      "job_url" := Field(post, "hostedUrl", Str("")),
      "job_description_snippet" := Str(snippet),
      "source_api" := Str("Lever")
    ]
  }

  /**
   * One iteration of the parsing loop: a non-dictionary item is skipped;
   * the location and commitment are read from the `categories` dictionary;
   * with keywords, a posting is kept only when the keyword loop matches.
   */
  function ParsePosting(id: string, keywords: seq<string>, item: Value): (r: Res<Option<Record>>)
  {
    if !item.Dict? then Ok(None)
    else
      var post := item.fields;
      var title := Field(post, "text", Str(""));
      var categories := Field(post, "categories", Dict(map[]));
      var location :- Get(categories, "location", Str(""));
      var commitment :- Get(categories, "commitment", Str(""));
      var snippet :- Snippet(Field(post, "descriptionPlain", Null));
      var record := PostingRecord(id, post, location, commitment, snippet);
      if keywords == [] then Ok(Some(record))
      else if !title.Str? then Fail(AttributeError)
      else
        var hit :- Matches(keywords, title.s, Field(post, "descriptionPlain", Str("")));
        Ok(if hit then Some(record) else None)
  }

  /**
   * A posting with text fields and a categories dictionary parses, and is
   * kept exactly when no keywords are given or one is mentioned in its title
   * or description.
   */
  lemma ParsePostingKeeps(id: string, keywords: seq<string>, post: Record, title: string, description: string)
    requires Field(post, "text", Str("")) == Str(title) && Field(post, "categories", Dict(map[])).Dict?
    requires "descriptionPlain" in post && post["descriptionPlain"] == Str(description)
    ensures ParsePosting(id, keywords, Dict(post)).Ok?
    ensures ParsePosting(id, keywords, Dict(post)).value.Some? <==> keywords == [] || Mentions(keywords, title, description)
  {
    MatchesMentions(keywords, title, description);
  }

  /** Categories that are not a dictionary make the loop raise. */
  lemma CategoriesNotDict(id: string, keywords: seq<string>, post: Record)
    requires !Field(post, "categories", Dict(map[])).Dict?
    ensures ParsePosting(id, keywords, Dict(post)) == Fail(AttributeError)
  {
  }

  function Parser(id: string, keywords: seq<string>): Value -> Res<Option<Record>>
  {
    item => ParsePosting(id, keywords, item)
  }

  /**
   * The outcome of a fetch for the decoded response `response` (`None` when
   * the request or the decoding failed): the postings to return and cache,
   * `None` to return `[]` without caching, or the exception raised;
   * iterating a value that is not iterable raises.
   */
  function Postings(id: string, keywords: seq<string>, response: Option<Value>): (r: Res<Option<seq<Record>>>)
    ensures response.None? ==> r == Ok(None)
    ensures r.Ok? && response.Some? ==> r.value.Some?
  {
    if response.None? then Ok(None)
    else
      var items :- Iterate(response.value);
      var ps :- SelectRes(items, Parser(id, keywords));
      Ok(Some(ps))
  }

  /**
   * For a list response, the fetch raises exactly when parsing some item
   * raises, and otherwise returns exactly the items that parse to a posting.
   */
  lemma PostingsSpec(id: string, keywords: seq<string>, items: seq<Value>)
    ensures Postings(id, keywords, Some(List(items))).Ok? <==>
      forall i :: 0 <= i < |items| ==> ParsePosting(id, keywords, items[i]).Ok?
    ensures Postings(id, keywords, Some(List(items))).Ok? ==> forall p :: p in Postings(id, keywords, Some(List(items))).value.value <==>
      exists i :: 0 <= i < |items| && ParsePosting(id, keywords, items[i]) == Ok(Some(p))
  {
    SelectResSpec(items, Parser(id, keywords));
  }

  /** A text or dictionary response iterates over text only, so it yields no postings, and that empty list is cached. */
  lemma PostingsOfNonList(id: string, keywords: seq<string>, v: Value)
    requires v.Str? || v.Dict?
    ensures Postings(id, keywords, Some(v)) == Ok(Some([]))
  {
    SelectResSkipsAll(Iterate(v).value, Parser(id, keywords));
  }

  /** A `null` or numeric response is not iterable. */
  lemma PostingsOfScalar(id: string, keywords: seq<string>, v: Value)
    requires v.Null? || v.Bool? || v.Int?
    ensures Postings(id, keywords, Some(v)) == Fail(TypeError)
  {
  }

  /** The postings keep response order. */
  lemma PostingsInOrder(id: string, keywords: seq<string>, a: seq<Value>, b: seq<Value>)
    requires SelectRes(a, Parser(id, keywords)).Ok? && SelectRes(b, Parser(id, keywords)).Ok?
    ensures SelectRes(a + b, Parser(id, keywords)) ==
      Ok(SelectRes(a, Parser(id, keywords)).value + SelectRes(b, Parser(id, keywords)).value)
  {
    SelectResAppend(a, b, Parser(id, keywords));
  }

  /** As written, clearing a company's cache never removes an entry that a fetch for it stored. */
  lemma ClearCacheMissesFetches(cache: Cache<seq<Record>>, id: string, keywords: seq<string>)
    requires CacheKey(id, keywords) in cache
    ensures CacheKey(id, keywords) in cache - {id}
    ensures (cache - {id})[CacheKey(id, keywords)] == cache[CacheKey(id, keywords)]
  {
    assert |CacheKey(id, keywords)| > |id|;
  }

  /** The entries of the company `id` removed: the key `id` itself and every key that starts with `id` and `_`. */
  function CompanyCleared(cache: Cache<seq<Record>>, id: string): (r: Cache<seq<Record>>)
    ensures forall k :: k in r ==> k in cache && r[k] == cache[k]
    ensures id !in r
  {
    WithoutPrefix(cache, id + "_") - {id}
  }

  /**
   * Clearing a company removes every entry its fetches stored and keeps
   * those of every other company, for ids without `_`.
   */
  lemma CompanyClearedExact(cache: Cache<seq<Record>>, id: string, other: string, keywords: seq<string>)
    requires '_' !in id && '_' !in other && other != id
    ensures CacheKey(id, keywords) !in CompanyCleared(cache, id)
    ensures CacheKey(other, keywords) in cache ==> CacheKey(other, keywords) in CompanyCleared(cache, id)
  {
    var k := CacheKey(other, keywords);
    SeparatedPrefixes(k, id, other);
    assert k[..|other| + 1] == other + "_";
    assert k[|other|] == '_';
    if |id| > |other| {
      assert id[|other|] != '_';
    }
    assert k != id;
  }

  class LeverClient {
    var cache: Cache<seq<Record>>
    const cacheExpirySeconds: int

    /** A new client starts with an empty cache and its configured expiry. */
    constructor (config: Config)
      ensures cache == map[]
      ensures cacheExpirySeconds == ExpirySetting(config, ExpiryKey, DefaultExpirySeconds)
    {
      cache := map[];
      cacheExpirySeconds := ExpirySetting(config, ExpiryKey, DefaultExpirySeconds);
    }

    /** `_is_cache_valid` with this client's expiry. */
    predicate IsCacheValid(e: Entry<seq<Record>>, now: real)
    {
      IsValid(e, now, cacheExpirySeconds)
    }

    /**
     * `clear_cache`: with an id, only the entry under the bare id is
     * deleted, when there is one; the entries `get_postings` stores under
     * `id_…` stay (see `ClearCacheMissesFetches`; `CompanyCleared` is the
     * clear that removes them). Without an id, the cache is emptied.
     */
    method ClearCache(companyLeverId: Option<string>)
      modifies this
      ensures companyLeverId.Some? && companyLeverId.value != [] ==> cache == old(cache) - {companyLeverId.value}
      ensures companyLeverId.None? || companyLeverId.value == [] ==> cache == map[]
    {
      if companyLeverId.Some? && companyLeverId.value != [] {
        if companyLeverId.value in cache {
          cache := cache - {companyLeverId.value};
        }
      } else {
        cache := map[];
      }
    }

    /**
     * `get_postings`: an empty id returns `[]`; a valid cached entry is
     * returned with no request; otherwise the company's postings are
     * requested once, and the outcome is returned and, when there are
     * postings to keep, stored under the key with the current time.
     * `requests` lists the URLs requested.
     */
    method GetPostings(companyLeverId: string, roleKeywords: seq<string>, now: real, fetch: string -> Option<Value>)
      returns (r: Res<seq<Record>>, ghost requests: seq<string>)
      modifies this
      ensures companyLeverId == [] ==> r == Ok([]) && requests == [] && cache == old(cache)
      ensures companyLeverId != [] ==>
        var key := CacheKey(companyLeverId, roleKeywords);
        var hit := Lookup(old(cache), key, now, cacheExpirySeconds);
        (hit.Some? ==> r == Ok(hit.value) && requests == [] && cache == old(cache)) &&
        (hit.None? ==>
          requests == [ApiUrl(companyLeverId)] &&
          AfterFetch(r, cache, old(cache), key, now, Postings(companyLeverId, roleKeywords, fetch(ApiUrl(companyLeverId))), []))
    {
      requests := [];
      if companyLeverId == [] {
        return Ok([]), requests;
      }
      var key := CacheKey(companyLeverId, roleKeywords);
      if key in cache && IsCacheValid(cache[key], now) {
        return Ok(cache[key].data.value), requests;
      }
      var url := ApiUrl(companyLeverId);
      requests := [url];
      var response := fetch(url);
      if response.None? {
        return Ok([]), requests;
      }
      var iterated := Iterate(response.value);
      if iterated.Fail? {
        return Fail(iterated.error), requests;
      }
      var items := iterated.value;
      var parsed: seq<Record> := [];
      for i := 0 to |items|
        invariant SelectRes(items[..i], Parser(companyLeverId, roleKeywords)) == Ok(parsed)
      {
        assert items[..i + 1][..i] == items[..i];
        var post := ParsePosting(companyLeverId, roleKeywords, items[i]);
        if post.Fail? {
          SelectResPrefixFailure(items, i + 1, Parser(companyLeverId, roleKeywords));
          return Fail(post.error), requests;
        }
        if post.value.Some? {
          parsed := parsed + [post.value.value];
        }
      }
      assert items[..|items|] == items;
      cache := cache[key := Stored(now, parsed)];
      r := Ok(parsed);
    }
  }
}
