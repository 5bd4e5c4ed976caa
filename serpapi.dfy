/** The web-search API (SerpApi) both scrapers send their queries to. */
module SerpApi {
  import opened Wrappers
  import Py

  /** The parameters of a search request. */
  type Params = map<string, string>

  /**
   * The search API as the scrapers see it: the decoded JSON results of a
   * request, or `None` when the call raised (network, HTTP status or JSON
   * errors, after any retries).
   */
  type Search = Params -> Option<Py.Value>
}
