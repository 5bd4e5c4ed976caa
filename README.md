# Networking assistant lead pipeline, modelled in Dafny

The networking assistant gathers leads and job postings for a job search. It
searches LinkedIn profiles through a web-search API (SerpApi) and turns each
result into a lead: name, role, company, location, alma-mater matches. It
cleans every lead and enriches it with the company's LinkedIn page and
profile. It keeps only product managers, not senior ones, in a target
location, scores them and stores them by e-mail in the database. A second
workflow reads the Lever and Greenhouse job boards of configured companies
and stores the postings that match the role keywords.

This project models that core:
- the `retry_with_backoff` decorator and the exception hierarchy;
- the Greenhouse and Lever clients, with their response caches;
- the company and LinkedIn scrapers;
- the data cleaner and the lead processor;
- the orchestrator's LinkedIn, job-board and full workflows.

Python values are modelled by `Py.Value`, a JSON-like sum type, and a record is a `map<string, Value>`. A Python exception that the code does not catch is a `Py.Res` failure, not a precondition. The clock, random numbers, HTTP calls and SerpApi searches are parameters, and so is the lead processing the LinkedIn workflow calls. The database is a value of three tables (companies, leads, jobs) held by a `Database` object.

Modules, one per source file:
- `Exceptions` (exceptions.py), `Retry` (retry_utils.py);
- `ResponseCache`, the caches the clients share;
- `Greenhouse` and `Lever` (the two clients);
- `SerpApi`, `CompanyScraping` and `LinkedInScraping` (the scrapers);
- `DataCleaner` and `LeadProcessing`;
- `Orchestration` (orchestrator.py, with the `db_utils` create and update calls it makes).

The helper modules are:
- `Py`, Python value semantics;
- `Strings`, Python string methods: Unicode whitespace as `str.isspace`, ASCII case and word characters;
- `StringSort`, `sorted` on strings;
- `Wrappers`, an `Option` type.

## Model

| member | source | states |
|---|---|---|
| Exceptions.Hierarchy | src/core/exceptions.py:5-74 | every error class is a `PersonalResearchAgentError`; `ApiLimitError` and `ApiAuthError` are `DataAcquisitionError`s, and those three are exactly the `DataAcquisitionError` classes |
| Exceptions.Raise | src/core/exceptions.py:7-10 | an error raised with default arguments has its class, no original exception and no detail |
| Exceptions.Str | src/core/exceptions.py:12-15 | `str(e)` always starts with the error's message |
| Exceptions.StrPlain | src/core/exceptions.py:12-15 | without original exception or detail, `str(e)` is the message alone |
| Exceptions.StrWrapped | src/core/exceptions.py:12-15 | with an original exception, `str(e)` is `message: Type - str(original)` |
| Exceptions.StrConfigPath | src/core/exceptions.py:25-33 | a `ConfigError` with a path prints `message (Config Path: path)`, or `message: Type - str(original) (Config Path: path)` when it wraps an exception |
| Exceptions.StrSource | src/core/exceptions.py:38-56 | every data-acquisition error (limit and auth included) with a source prints `message (Source: source)`, after the wrapped exception when there is one |
| Exceptions.StrOutputPath | src/core/exceptions.py:66-74 | an `OutputGenerationError` with a path prints `message (Output Path: path)`, after the wrapped exception when there is one |
| Exceptions.StrWithoutAttribute | src/core/exceptions.py:12-15 | an error with no or an empty extra attribute, and every base or `DataProcessingError`, prints its base string: the message alone when it wraps nothing |
| Exceptions.SourceLabel | src/core/exceptions.py:36-56 | every data-acquisition error (limit and auth included) labels its detail `Source` |
| Retry.FirstStop | src/core/retry_utils.py:38-91 | the attempt at which the loop stops is the first attempt, from a given one on, whose verdict ends the run, and it is at most `retries` |
| Retry.RetryWithBackoff | src/core/retry_utils.py:33-95 | the loop's result, number of calls and list of pauses equal those of the specification `Expected` |
| Retry.PowNonNegative | src/core/retry_utils.py:82 | the delay factor raised to any power stays non-negative for a non-negative factor |
| Retry.PauseNonNegative | src/core/retry_utils.py:76-78 | each pause lies between the current delay and the delay plus 10% |
| Retry.AlwaysRetryable | src/core/retry_utils.py:38-91 | an operation that always asks for a retry is called `retries + 1` times, sleeps `retries` times and re-raises the last cause |
| Retry.AuthErrorNotRetried | src/core/retry_utils.py:53-58 | an `ApiAuthError` on the first call is re-raised after exactly one call and no pause |
| Retry.AuthErrorCaughtButNotRetried | src/core/retry_utils.py:13-19 | `ApiAuthError` is caught by the default tuple (through `DataAcquisitionError`) and still not retried |
| Retry.UncaughtPropagates | src/core/retry_utils.py:66-70 | an exception outside `retry_on_exceptions` is re-raised after one call |
| Retry.AcceptedResponseReturned | src/core/retry_utils.py:42-51 | a response whose status is absent or not a retry status is returned after one call |
| Retry.StatusExhausted | src/core/retry_utils.py:42-49 | a status that always asks for a retry ends, after `retries + 1` calls, in an `HTTPError` carrying the last response |
| Retry.SucceedsAfter | src/core/retry_utils.py:38-82 | after n retry-worthy calls, an accepted (n+1)-th call ends the run with n pauses and that call's result |
| Retry.PausesWithoutJitter | src/core/retry_utils.py:76-82 | without jitter the k-th pause is `initial_delay * backoff_factor^k` |
| Retry.PausesWithJitter | src/core/retry_utils.py:76-82 | with jitter each pause is within 10% above its delay |
| Retry.DelayGrows | src/core/retry_utils.py:82 | each delay is the previous one times the backoff factor |
| ResponseCache.Stored | src/api_integration/greenhouse_client.py:157-160 | a stored entry carries the current time and the data |
| ResponseCache.Lookup | src/api_integration/greenhouse_client.py:49-52 | a lookup hits exactly when the key is present and its entry is still valid, and then returns the entry's data |
| ResponseCache.StoredEntryLifetime | src/api_integration/greenhouse_client.py:49-52 | a freshly stored entry is returned until `expiry` seconds have passed, and not afterwards |
| ResponseCache.StoreIsolated | src/api_integration/greenhouse_client.py:157-160 | storing under one key leaves every other key's lookup unchanged |
| ResponseCache.IncompleteNeverValid | src/api_integration/greenhouse_client.py:50 | an entry without timestamp or data is never valid |
| ResponseCache.ValidBefore | src/api_integration/greenhouse_client.py:49-52 | an entry valid at some time was valid at every earlier time |
| ResponseCache.WithoutPrefix | src/api_integration/greenhouse_client.py:54-60 | clearing by prefix removes exactly the keys that start with the prefix and keeps the others' entries |
| ResponseCache.SeparatedPrefixes | src/api_integration/greenhouse_client.py:83 | for ids without `_`, a key starting with `other_` never starts with `token_` |
| ResponseCache.ExpirySetting | src/api_integration/greenhouse_client.py:36-47 | the expiry is the configured integer, or the default when the setting is missing or not a number |
| Greenhouse.CacheKey | src/api_integration/greenhouse_client.py:83 | a posting-cache key starts with the board token and `_` |
| Greenhouse.CacheKeyIgnoresOrder | src/api_integration/greenhouse_client.py:83 | the key depends on the keywords only through their multiset (they are sorted) |
| Greenhouse.CacheKeySeparatesMode | src/api_integration/greenhouse_client.py:83 | the with-content and without-content keys differ |
| Greenhouse.ApiUrl | src/api_integration/greenhouse_client.py:92 | the request URL is the board's jobs endpoint |
| Greenhouse.Snippet | src/api_integration/greenhouse_client.py:125 | the snippet is empty for empty content, raises for non-text content, and is otherwise at most 500 characters plus `...` |
| Greenhouse.SnippetOfShortContent | src/api_integration/greenhouse_client.py:125 | short stripped content becomes its own text plus `...` |
| Greenhouse.LocationName | src/api_integration/greenhouse_client.py:121 | the job location is the `name` of the location dict |
| Greenhouse.PostingRecord | src/api_integration/greenhouse_client.py:145-153 | a posting has exactly the seven documented fields, with the board token as company and `Greenhouse` as source |
| Greenhouse.ParsePostingKeeps | src/api_integration/greenhouse_client.py:113-153 | a posting with a text title is kept exactly when there are no keywords or a keyword occurs in title or content, and then becomes its posting record |
| Greenhouse.ParsePostingTitleNotText | src/api_integration/greenhouse_client.py:118-137 | a non-text title raises a `TypeError` once keywords are given |
| Greenhouse.Postings | src/api_integration/greenhouse_client.py:95-110 | a failed request yields no postings and a non-dict response raises |
| Greenhouse.PostingsSpec | src/api_integration/greenhouse_client.py:106-153 | a response whose `jobs` is a list succeeds iff every job parses, and its postings are exactly the kept jobs |
| Greenhouse.PostingsWithoutKeywords | src/api_integration/greenhouse_client.py:110-153 | without keywords every job becomes a posting |
| Greenhouse.PostingsInOrder | src/api_integration/greenhouse_client.py:112-153 | postings of concatenated job lists are the concatenated postings (order kept) |
| Greenhouse.ClearCacheDropsOtherBoards | src/api_integration/greenhouse_client.py:54-60 | clearing board `token1` also drops board `token10`'s entries |
| Greenhouse.BoardCleared | src/api_integration/greenhouse_client.py:54-60 | the corrected clear keeps only existing entries |
| Greenhouse.BoardClearedExact | src/api_integration/greenhouse_client.py:54-60 | the corrected clear drops the board's own keys and keeps every other board's |
| Greenhouse.GreenhouseClient.constructor | src/api_integration/greenhouse_client.py:36-47 | a new client has an empty cache and the configured expiry |
| Greenhouse.GreenhouseClient.ClearCache | src/api_integration/greenhouse_client.py:54-67 | clearing with a board token removes every key that starts with the token, other boards' keys sharing the prefix included; clearing without one empties the cache |
| Greenhouse.GreenhouseClient.GetPostings | src/api_integration/greenhouse_client.py:69-163 | an empty token yields no postings; a cache hit returns the cached list without a request; otherwise one request to the board URL, whose parsed postings are returned and cached, or whose failure leaves the cache as it was |
| Lever.CacheKey | src/api_integration/lever_client.py:75 | a posting-cache key starts with the company id and `_` |
| Lever.CacheKeyIgnoresOrder | src/api_integration/lever_client.py:75 | the key depends on the keywords only through their multiset |
| Lever.ApiUrl | src/api_integration/lever_client.py:80 | the request URL is the postings endpoint ending in the company id |
| Lever.Snippet | src/api_integration/lever_client.py:105 | the snippet is empty for an empty description, raises for non-text, and is otherwise a prefix of at most 250 characters plus `...` |
| Lever.MatchesMentions | src/api_integration/lever_client.py:108-115 | for a text description, keyword matching is case-insensitive containment in title or description |
| Lever.MatchesWithoutDescription | src/api_integration/lever_client.py:108-115 | a missing description raises unless the first keyword is already in the title |
| Lever.PostingRecord | src/api_integration/lever_client.py:117-125 | a posting has exactly the seven documented fields, with the company id as company and `Lever` as source |
| Lever.ParsePostingKeeps | src/api_integration/lever_client.py:94-125 | a well-formed posting is kept exactly when there are no keywords or a keyword occurs |
| Lever.CategoriesNotDict | src/api_integration/lever_client.py:101-103 | a `categories` that is not a dict raises `AttributeError` |
| Lever.Postings | src/api_integration/lever_client.py:83-136 | a failed request yields no postings; any successful parse yields a list |
| Lever.PostingsSpec | src/api_integration/lever_client.py:90-136 | a list response succeeds iff every item parses, and its postings are exactly the kept items |
| Lever.PostingsOfNonList | src/api_integration/lever_client.py:94-98 | a text or dict response iterates over characters or keys, which are all skipped, so there are no postings |
| Lever.PostingsOfScalar | src/api_integration/lever_client.py:94-95 | a null, boolean or number response raises `TypeError` |
| Lever.PostingsInOrder | src/api_integration/lever_client.py:94-136 | postings of concatenated item lists are the concatenated postings |
| Lever.ClearCacheMissesFetches | src/api_integration/lever_client.py:54-60 | clearing a company id leaves its fetched entries in the cache |
| Lever.CompanyCleared | src/api_integration/lever_client.py:54-60 | the corrected clear keeps only existing entries and removes the bare id |
| Lever.CompanyClearedExact | src/api_integration/lever_client.py:54-60 | the corrected clear drops the company's fetched keys and keeps other companies' |
| Lever.LeverClient.constructor | src/api_integration/lever_client.py:35-47 | a new client has an empty cache and the configured expiry |
| Lever.LeverClient.ClearCache | src/api_integration/lever_client.py:54-63 | clearing with an id removes only the key equal to the id, so the postings its fetches cached stay; clearing without one empties the cache |
| Lever.LeverClient.GetPostings | src/api_integration/lever_client.py:65-136 | an empty id yields no postings; a cache hit returns the cached list without a request; otherwise one request, whose parsed postings are returned and cached |
| DataCleaner.JoinWordsNormal | src/data_processing/data_cleaner.py:21-25 | joining non-empty words with single spaces gives whitespace-normal text |
| DataCleaner.JoinWordsOfNormal | src/data_processing/data_cleaner.py:21-25 | whitespace-normal text is the join of its own words |
| DataCleaner.CollapseNormal | src/data_processing/data_cleaner.py:21-25 | collapsing whitespace always gives whitespace-normal text: the words joined by single spaces |
| DataCleaner.CollapseOfNormal | src/data_processing/data_cleaner.py:21-25 | collapsing leaves whitespace-normal text unchanged |
| DataCleaner.CollapseIdempotent | src/data_processing/data_cleaner.py:21-25 | collapsing twice is collapsing once, and text is its own collapse iff it is whitespace-normal |
| DataCleaner.CollapseEmpty | src/data_processing/data_cleaner.py:21-25 | the collapse is empty iff the text is all whitespace |
| DataCleaner.CollapseLowered | src/data_processing/data_cleaner.py:21-25 | collapsing lower-case text keeps it lower-case |
| DataCleaner.FindSuffix | src/data_processing/data_cleaner.py:39-40 | the search finds the first position of a legal-suffix match, or reports that none exists |
| DataCleaner.RemoveSuffix | src/data_processing/data_cleaner.py:39-40 | removing the legal suffix leaves a prefix of the name |
| DataCleaner.CutIsPrefix | src/data_processing/data_cleaner.py:27-55 | for a normal name the cut and tidied result is a whitespace-normal prefix |
| DataCleaner.NormalizeCompanyNameShape | src/data_processing/data_cleaner.py:27-55 | the normalised name is absent iff the name is absent or all whitespace, and otherwise a non-empty whitespace-normal prefix of the collapsed name |
| DataCleaner.NoSuffixUnchanged | src/data_processing/data_cleaner.py:27-55 | a name without legal suffix or trailing punctuation normalises to its collapse |
| DataCleaner.DropsLegalSuffix | src/data_processing/data_cleaner.py:27-55 | `word Inc.` style names lose the legal form and its punctuation |
| DataCleaner.KeepsBareLegalForm | src/data_processing/data_cleaner.py:39-55 | a name that is only a legal form is kept as it is |
| DataCleaner.NormalizeLocation | src/data_processing/data_cleaner.py:57-77 | the location is absent iff missing or empty, otherwise whitespace-normal |
| DataCleaner.WhitespaceValueNormal | src/data_processing/data_cleaner.py:83-94 | cleaning a text field gives normal text and leaves normal text unchanged |
| DataCleaner.CompanyNameValue | src/data_processing/data_cleaner.py:92-93 | the normalised company-name field is null or non-empty text |
| DataCleaner.NameAndLocationNormal | src/data_processing/data_cleaner.py:92-94 | the normalised company and location fields are normal text |
| DataCleaner.EmailValueClean | src/data_processing/data_cleaner.py:84 | a cleaned e-mail is stripped and lower-case, and a clean one is unchanged |
| DataCleaner.RunSteps | src/data_processing/data_cleaner.py:79-128 | applying the field steps never loses a field |
| DataCleaner.RunStepsSpec | src/data_processing/data_cleaner.py:79-128 | for independent steps, cleaning succeeds iff every present field is acceptable; the result has the input's fields plus the targets, untouched fields unchanged, each target set to its rule applied to its source |
| DataCleaner.RunStepsTwice | src/data_processing/data_cleaner.py:79-128 | for stable steps cleaning twice equals cleaning once |
| DataCleaner.RunStepsCleans | src/data_processing/data_cleaner.py:79-128 | every step list of the cleaner satisfies the `CleanedBy` specification |
| DataCleaner.LeadStepsIndependent | src/data_processing/data_cleaner.py:83-94 | the lead steps write distinct fields that no other step reads |
| DataCleaner.LeadStepsStable | src/data_processing/data_cleaner.py:83-94 | every lead step that reads its own target is idempotent |
| DataCleaner.CompanyStepsIndependent | src/data_processing/data_cleaner.py:105-110 | the company steps are independent |
| DataCleaner.JobStepsIndependent | src/data_processing/data_cleaner.py:118-126 | the job steps are independent |
| DataCleaner.CleanLeadData | src/data_processing/data_cleaner.py:79-99 | cleaning a lead keeps all its fields |
| DataCleaner.CleanLeadDataSpec | src/data_processing/data_cleaner.py:79-99 | `clean_lead_data` meets the `CleanedBy` specification for the lead steps |
| DataCleaner.CleanLeadKeeps | src/data_processing/data_cleaner.py:79-99 | fields the cleaner does not target keep their values |
| DataCleaner.CleanLeadNormalizes | src/data_processing/data_cleaner.py:83-87 | a cleaned lead's name, phone, source and notes are normal text and its e-mail is clean |
| DataCleaner.CleanLeadIdempotent | src/data_processing/data_cleaner.py:79-99 | cleaning a cleaned lead changes nothing |
| DataCleaner.CleanCompanyData | src/data_processing/data_cleaner.py:101-112 | cleaning a company keeps all its fields |
| DataCleaner.CleanCompanyDataSpec | src/data_processing/data_cleaner.py:101-112 | `clean_company_data` meets the `CleanedBy` specification for the company steps |
| DataCleaner.CleanJobPostingData | src/data_processing/data_cleaner.py:114-128 | cleaning a posting keeps all its fields |
| DataCleaner.CleanJobPostingDataSpec | src/data_processing/data_cleaner.py:114-128 | `clean_job_posting_data` meets the `CleanedBy` specification for the job steps |
| LeadProcessing.Keywords | src/data_processing/lead_processor.py:98-100 | each keyword list has one entry per comma-separated item, stripped and lower-cased |
| LeadProcessing.TargetLocations | src/data_processing/lead_processor.py:82-96 | the target locations are the comma-separated items taken in pairs, one entry per full pair |
| LeadProcessing.TargetLocationShape | src/data_processing/lead_processor.py:82-96 | each target location is lower-case `city, state`, built from the stripped pair |
| LeadProcessing.LeadProcessor.constructor | src/data_processing/lead_processor.py:66-100 | a new processor holds the configured target locations and the target, seniority and mid-level keyword lists |
| LeadProcessing.Scan | src/data_processing/lead_processor.py:122-129 | the scan finds a keyword iff one occurs in the text |
| LeadProcessing.RoleText | src/data_processing/lead_processor.py:111 | the role text is normal lower-case text, empty for a missing role; non-text raises |
| LeadProcessing.PlaceText | src/data_processing/lead_processor.py:110 | the location text is normal lower-case text, empty for a missing location; non-text raises |
| LeadProcessing.ScoreText | src/data_processing/lead_processor.py:219-220 | the scoring text is lower-case and empty iff the field is falsy |
| LeadProcessing.WithScore | src/data_processing/lead_processor.py:290-292 | setting the score adds only the score field and keeps every other field |
| LeadProcessing.ScoreFieldApart | src/data_processing/lead_processor.py:290-292 | the score field is none of the fields the filter and the scorer read |
| LeadProcessing.LeadProcessor.InTarget | src/data_processing/lead_processor.py:104-141 | the filter raises iff role or location is non-text, and accepts only leads with both |
| LeadProcessing.LeadProcessor.IsPmInTargetLocation | src/data_processing/lead_processor.py:104-141 | the loop version decides as `InTarget` |
| LeadProcessing.LeadProcessor.Test | src/data_processing/lead_processor.py:116-139 | the test on normalised texts is the `Matches` condition |
| LeadProcessing.LeadProcessor.SeniorRejected | src/data_processing/lead_processor.py:131-139 | a role containing a seniority keyword is never accepted |
| LeadProcessing.LeadProcessor.SameTest | src/data_processing/lead_processor.py:104-141 | the filter reads nothing but role and location |
| LeadProcessing.LeadProcessor.ScoreLead | src/data_processing/lead_processor.py:208-261 | scoring raises iff role or location is non-text, and the score lies in 0..14 |
| LeadProcessing.LeadProcessor.ScoreOfEmpty | src/data_processing/lead_processor.py:208-261 | an empty lead scores 0 |
| LeadProcessing.LeadProcessor.ScoreWithoutKeyword | src/data_processing/lead_processor.py:224-243 | without a target keyword in the role the score is at most 6 |
| LeadProcessing.LeadProcessor.ScoreOfSenior | src/data_processing/lead_processor.py:224-243 | a senior role scores at most 11 |
| LeadProcessing.LeadProcessor.QualifiedScore | src/data_processing/lead_processor.py:208-243 | every lead the filter accepts (with normal texts) scores at least 12 |
| LeadProcessing.LeadProcessor.SameScore | src/data_processing/lead_processor.py:208-261 | the score reads nothing but role, location and company details |
| LeadProcessing.LeadProcessor.EnrichLead | src/data_processing/lead_processor.py:156-192 | enrichment changes no field but `company_details` |
| LeadProcessing.LeadProcessor.CompanyDetails | src/data_processing/lead_processor.py:172-190 | company details are null or a dict, and an error of the company page search propagates |
| LeadProcessing.LeadProcessor.EnrichKeepsFilterFields | src/data_processing/lead_processor.py:156-192 | enrichment never changes the filter's decision |
| LeadProcessing.LeadProcessor.EnrichWithoutName | src/data_processing/lead_processor.py:162-168 | a lead without company name comes back unchanged |
| LeadProcessing.LeadProcessor.EnrichNotFound | src/data_processing/lead_processor.py:173-190 | no company page, or no data from it, gives null details |
| LeadProcessing.LeadProcessor.EnrichSearchFails | src/data_processing/lead_processor.py:172 | an exception of the company page search is not caught by enrichment |
| LeadProcessing.LeadProcessor.EnrichFound | src/data_processing/lead_processor.py:173-188 | found company data is cleaned and stored as the details; a cleaning failure propagates |
| LeadProcessing.LeadProcessor.FoundDetails | src/data_processing/lead_processor.py:176-186 | found data becomes the cleaned company dict |
| LeadProcessing.LeadProcessor.EnrichNamed | src/data_processing/lead_processor.py:162-192 | a named lead gets exactly the details looked up for its normalised name |
| LeadProcessing.LeadProcessor.EnrichAll | src/data_processing/lead_processor.py:194-204 | enriching a list succeeds iff each lead's enrichment does, element by element |
| LeadProcessing.LeadProcessor.EnrichLeads | src/data_processing/lead_processor.py:194-204 | the loop computes `EnrichAll` |
| LeadProcessing.LeadProcessor.Filtered | src/data_processing/lead_processor.py:143-152 | filtering never grows the list |
| LeadProcessing.LeadProcessor.FilteredInOrder | src/data_processing/lead_processor.py:143-152 | the filtered leads of two concatenated lists are the two filtered lists concatenated: order and repetitions are kept |
| LeadProcessing.LeadProcessor.FilteredOne | src/data_processing/lead_processor.py:143-152 | one lead is kept, as its cleaned version, iff it cleans and is accepted; dropped iff it cleans and is rejected; and a failure of either raises |
| LeadProcessing.LeadProcessor.KeptMeans | src/data_processing/lead_processor.py:143-152 | a kept lead is a lead's cleaned version that the filter accepts |
| LeadProcessing.LeadProcessor.FilteredOk | src/data_processing/lead_processor.py:143-152 | filtering succeeds iff every lead cleans and the filter decides on it |
| LeadProcessing.LeadProcessor.FilteredMembers | src/data_processing/lead_processor.py:143-152 | the filtered leads are exactly the kept cleaned leads |
| LeadProcessing.LeadProcessor.FilterLeads | src/data_processing/lead_processor.py:143-152 | the loop computes `Filtered` |
| LeadProcessing.LeadProcessor.FilteredAreClean | src/data_processing/lead_processor.py:143-152 | every filtered lead is already clean and accepted |
| LeadProcessing.LeadProcessor.CleaningKeepsDecision | src/data_processing/lead_processor.py:143-152 | cleaning a lead does not change the filter's decision |
| LeadProcessing.LeadProcessor.Scored | src/data_processing/lead_processor.py:287-292 | a lead is scored iff scoring succeeds, and then carries its score |
| LeadProcessing.LeadProcessor.ScoredAll | src/data_processing/lead_processor.py:287-292 | scoring a list succeeds iff each lead's does, and each gets its own score |
| LeadProcessing.LeadProcessor.ScoringSucceeds | src/data_processing/lead_processor.py:287-292 | scoring filtered leads never raises |
| LeadProcessing.LeadProcessor.ScoreLeads | src/data_processing/lead_processor.py:287-292 | the loop computes `ScoredAll` |
| LeadProcessing.LeadProcessor.ScoredLeads | src/data_processing/lead_processor.py:287-292 | scored leads stay accepted and their stored score is their score, in 0..14 |
| LeadProcessing.LeadProcessor.SameScoreFields | src/data_processing/lead_processor.py:290-292 | adding the score changes neither decision nor score |
| LeadProcessing.LeadProcessor.ProcessAndFilterLeads | src/data_processing/lead_processor.py:265-301 | the pipeline computes `Processed`: clean, enrich, filter, score, optionally sort |
| LeadProcessing.LeadProcessor.ProcessedLeads | src/data_processing/lead_processor.py:265-301 | every processed lead is accepted and carries its score in 0..14; with sorting the list is in descending score order |
| LeadProcessing.SortByScore | src/data_processing/lead_processor.py:296-298 | sorting is a permutation |
| LeadProcessing.SortByScoreSpec | src/data_processing/lead_processor.py:296-298 | sorting by score is a permutation, descending, and stable (leads of equal score keep their order) |
| LeadProcessing.InsertDescending | src/data_processing/lead_processor.py:296-298 | inserting into a descending list keeps it descending |
| LeadProcessing.InsertStable | src/data_processing/lead_processor.py:296-298 | insertion keeps the relative order of leads with equal score |
| CompanyScraping.RequestParams | src/data_acquisition/company_scraper.py:155-160 | the search request sends the query, key and result count |
| CompanyScraping.SerpApiRequest | src/data_acquisition/company_scraper.py:149-175 | without a key nothing is sent; a result is the search's dict with non-empty organic results and no error |
| CompanyScraping.FirstCompanyPageSpec | src/data_acquisition/company_scraper.py:191-200 | the URL found is that of the first company-page result mentioning the company, every earlier result is passed over, and none is found iff all are |
| CompanyScraping.CompanyPageUrl | src/data_acquisition/company_scraper.py:177-200 | without a key no URL is found |
| CompanyScraping.ProfileParams | src/data_acquisition/company_scraper.py:75-81 | the profile search queries `<name> company profile overview linkedin` |
| CompanyScraping.GraphInfo | src/data_acquisition/company_scraper.py:106-114 | knowledge-graph info takes its name from the graph title |
| CompanyScraping.OrganicWebsite | src/data_acquisition/company_scraper.py:117-125 | the organic fallback changes only the website |
| CompanyScraping.ParseCompanyResults | src/data_acquisition/company_scraper.py:99-136 | parsing needs a dict and returns only info with a name |
| CompanyScraping.ParseGraphName | src/data_acquisition/company_scraper.py:106-114 | a titled knowledge graph names the company |
| CompanyScraping.ParseWithoutGraph | src/data_acquisition/company_scraper.py:116-136 | without a graph the organic info is used, website included |
| CompanyScraping.ParseOrganicWebsite | src/data_acquisition/company_scraper.py:117-125 | the top organic link is the website unless it is LinkedIn or Wikipedia |
| CompanyScraping.ParseOrganicName | src/data_acquisition/company_scraper.py:127-131 | the name is the top organic title before its first `-`, stripped |
| CompanyScraping.OrganicTitleName | src/data_acquisition/company_scraper.py:127-131 | the organic info's name comes from the top title |
| CompanyScraping.ParseQueryFallback | src/data_acquisition/company_scraper.py:133-136 | with nothing else, the name is the query before ` company profile` |
| CompanyScraping.CompanyInfo | src/data_acquisition/company_scraper.py:67-97 | without a key there is no info; info is the parse of the profile search |
| CompanyScraping.Blank | src/data_acquisition/company_scraper.py:219-227 | the extracted record has exactly the seven documented fields |
| CompanyScraping.GraphExtract | src/data_acquisition/company_scraper.py:230-241 | graph extraction sets name, description, website and industry from the graph and nothing else |
| CompanyScraping.OrganicExtract | src/data_acquisition/company_scraper.py:254-261 | organic extraction changes only name, description and website |
| CompanyScraping.CleanName | src/data_acquisition/company_scraper.py:264-267 | a text name loses every ` - LinkedIn` (then stripped) and, when ` \| LinkedIn` remains, everything from its first occurrence on (then stripped); a name with neither is unchanged; a falsy name is unchanged; a list or dict name raises iff it holds either marker |
| CompanyScraping.ExtractedInfo | src/data_acquisition/company_scraper.py:219-267 | the extracted record has the seven fields, the page URL and a cleaned name |
| CompanyScraping.FoundInfo | src/data_acquisition/company_scraper.py:228-261 | the record before name cleaning has the seven fields and the page URL |
| CompanyScraping.ExtractedIndustry | src/data_acquisition/company_scraper.py:236-241 | the industry comes from the graph's type or industry, else stays null |
| CompanyScraping.ExtractedFromGraph | src/data_acquisition/company_scraper.py:230-241 | with a titled graph, description and website come from the graph |
| CompanyScraping.ExtractedOrganicWebsite | src/data_acquisition/company_scraper.py:254-261 | without a graph the website is the first link unless it is on LinkedIn |
| CompanyScraping.CompanyScraper.constructor | src/data_acquisition/company_scraper.py:47-65 | a new scraper keeps its key and has an empty cache with the configured expiry |
| CompanyScraping.CompanyScraper.ClearCache | src/data_acquisition/company_scraper.py:144-147 | clearing empties the cache |
| CompanyScraping.CompanyScraper.FindCompanyLinkedInUrl | src/data_acquisition/company_scraper.py:177-200 | the method computes `CompanyPageUrl` |
| CompanyScraping.CompanyScraper.ExtractCompanyDataFromUrl | src/data_acquisition/company_scraper.py:202-289 | a cache hit is returned without request; otherwise one search for the URL, whose extracted record is returned and cached, or nothing when the search fails |
| LinkedInScraping.Quoted | src/data_acquisition/linkedin_scraper.py:201 | a quoted term is the term between double quotes |
| LinkedInScraping.QuotedAll | src/data_acquisition/linkedin_scraper.py:201 | each keyword is quoted, in order |
| LinkedInScraping.JoinContains | src/data_acquisition/linkedin_scraper.py:201 | a join contains each of its parts |
| LinkedInScraping.PmQuery | src/data_acquisition/linkedin_scraper.py:201-202 | the PM query is a parenthesised OR of keywords, then the quoted location and the site restriction |
| LinkedInScraping.PmQueryMentions | src/data_acquisition/linkedin_scraper.py:201-202 | the PM query contains every quoted keyword |
| LinkedInScraping.PmQueryOfOneKeyword | src/data_acquisition/linkedin_scraper.py:201-202 | the query for one keyword, written out |
| LinkedInScraping.AlumniQuery | src/data_acquisition/linkedin_scraper.py:174 | the alumni query starts with the quoted school and ends with the site restriction |
| LinkedInScraping.NumReadsBack | src/data_acquisition/linkedin_scraper.py:177 | the `num` parameter is the result limit capped at 100 |
| LinkedInScraping.SearchParams | src/data_acquisition/linkedin_scraper.py:175-179 | the request carries exactly engine, query, key, count, country and language |
| LinkedInScraping.NameParts | src/data_acquisition/linkedin_scraper.py:248-256 | the name is the title before ` - `, else before ` \| `, else the whole title, stripped |
| LinkedInScraping.AtSplit | src/data_acquisition/linkedin_scraper.py:266-270 | splitting at ` at ` raises `IndexError` iff only a differently-cased ` at ` occurs |
| LinkedInScraping.RoleAndCompany | src/data_acquisition/linkedin_scraper.py:264-290 | role and company extraction can only fail with `IndexError` |
| LinkedInScraping.RoleAtFirstAt | src/data_acquisition/linkedin_scraper.py:266-270 | role and company are the stripped text before and after the first ` at ` |
| LinkedInScraping.RoleAtLastDash | src/data_acquisition/linkedin_scraper.py:271-276 | without ` at `, role and company split at the last ` - ` |
| LinkedInScraping.UppercaseAtRaises | src/data_acquisition/linkedin_scraper.py:266-270 | an ` At ` that only matches case-insensitively raises `IndexError` |
| LinkedInScraping.LocationOf | src/data_acquisition/linkedin_scraper.py:293-309 | with `Location:` the location is the stripped text after it up to the first line break and the first ` · `; otherwise the stripped snippet head before ` · ` is taken iff it is short and names no connection or employer; else empty |
| LinkedInScraping.LocationSegment | src/data_acquisition/linkedin_scraper.py:296-299 | a segment of one line holds no newline and no separator |
| LinkedInScraping.SchoolMatches | src/data_acquisition/linkedin_scraper.py:313-317 | no more schools match than are listed |
| LinkedInScraping.SchoolMatchesMembers | src/data_acquisition/linkedin_scraper.py:313-317 | the matches are exactly the listed schools whose lower-cased name occurs in the text |
| LinkedInScraping.SchoolMatchesAppend | src/data_acquisition/linkedin_scraper.py:313-317 | matching distributes over concatenated school lists (order kept) |
| LinkedInScraping.MatchSchools | src/data_acquisition/linkedin_scraper.py:313-317 | the loop computes `SchoolMatches` |
| LinkedInScraping.LeadRecord | src/data_acquisition/linkedin_scraper.py:323-333 | a lead has exactly the eight documented fields other than `date_added` |
| LinkedInScraping.SchoolList | src/data_acquisition/linkedin_scraper.py:329 | the school matches become a list of texts, in order |
| LinkedInScraping.IsProfile | src/data_acquisition/linkedin_scraper.py:243-244 | a result is a profile iff its link is non-empty text containing `linkedin.com/in/` |
| LinkedInScraping.NonProfileSkipped | src/data_acquisition/linkedin_scraper.py:243-244 | non-profile results are skipped |
| LinkedInScraping.LeadOf | src/data_acquisition/linkedin_scraper.py:245-334 | a built lead has the title's name, the link, the source and the school matches; no lead iff the name is empty |
| LinkedInScraping.TitleText | src/data_acquisition/linkedin_scraper.py:238-256 | a text title is used as it is; a list or dict title raises `AttributeError`, any other non-text title `TypeError` |
| LinkedInScraping.SnippetText | src/data_acquisition/linkedin_scraper.py:240-316 | a text snippet is used as it is; a non-text one raises `IndexError` iff the title's role split does; `AttributeError` iff it is truthy and the role is looked for in it, or it is a list or dict holding `Location:` or ` · ` and the role split succeeds; else `TypeError` |
| LinkedInScraping.LocationListSnippetRaises | src/data_acquisition/linkedin_scraper.py:265-303 | with ` at ` in the title remainder, a list snippet holding `Location:` raises `AttributeError` at its `split` |
| LinkedInScraping.ParseResult | src/data_acquisition/linkedin_scraper.py:237-334 | only profile results with a name become leads |
| LinkedInScraping.ParseResultOfProfile | src/data_acquisition/linkedin_scraper.py:237-334 | a profile result becomes the lead of its title and snippet |
| LinkedInScraping.ParseOne | src/data_acquisition/linkedin_scraper.py:237-334 | the method computes `ParseResult` |
| LinkedInScraping.BuildLead | src/data_acquisition/linkedin_scraper.py:245-334 | the method computes `LeadOf` |
| LinkedInScraping.ParsedLeads | src/data_acquisition/linkedin_scraper.py:221-337 | parsing needs a dict; without organic results the logging guard decides |
| LinkedInScraping.WithoutResults | src/data_acquisition/linkedin_scraper.py:228-234 | without organic results there are no leads, unless a metadata section is present but not a dict or the status is not text, which raises `AttributeError` |
| LinkedInScraping.NullStatusRaises | src/data_acquisition/linkedin_scraper.py:231 | a `None` status in `search_metadata` raises `AttributeError` |
| LinkedInScraping.ParsedLeadsSpec | src/data_acquisition/linkedin_scraper.py:221-337 | each parsed lead comes from some result, is named and carries the source; there are at most as many leads as results |
| LinkedInScraping.ParsedLeadsWithoutResults | src/data_acquisition/linkedin_scraper.py:226-234 | no organic results give no leads when the metadata sections are dicts and the status is text |
| LinkedInScraping.ParsedInOrder | src/data_acquisition/linkedin_scraper.py:236-336 | leads of concatenated results are the concatenated leads |
| LinkedInScraping.ParseLinkedInResults | src/data_acquisition/linkedin_scraper.py:221-337 | the method computes `ParsedLeads` |
| LinkedInScraping.SearchLeads | src/data_acquisition/linkedin_scraper.py:167-219 | without a key no leads are scraped |
| LinkedInScraping.SearchRequests | src/data_acquisition/linkedin_scraper.py:167-219 | a request is sent iff there is a key |
| LinkedInScraping.Scrape | src/data_acquisition/linkedin_scraper.py:167-219 | the method returns `SearchLeads` after `SearchRequests` |
| LinkedInScraping.ScrapeAlumniBySchool | src/data_acquisition/linkedin_scraper.py:167-191 | alumni scraping searches the alumni query with source `Alumni Search: <school>` |
| LinkedInScraping.ScrapePmsByLocation | src/data_acquisition/linkedin_scraper.py:193-219 | PM scraping searches the PM query (given or default keywords) with source `PM Search: <location>` |
| Orchestration.ConfiguredKeywords | src/core/orchestrator.py:66 | there is at least one configured keyword item |
| Orchestration.QueriesFor | src/core/orchestrator.py:72-73 | one query per keyword item, stripped, in the given location |
| Orchestration.DefaultQueries | src/core/orchestrator.py:63-77 | the default queries pair each stripped keyword item with the first location, as `DefaultQueryList` |
| Orchestration.KeywordsAsWritten | src/core/orchestrator.py:84-90 | a keyword text handed to the scraper is iterated character by character |
| Orchestration.KeywordTextSearchedByLetter | src/core/orchestrator.py:84-90 | the keywords `PM` are searched as `"P" OR "M"`, not as the phrase |
| Orchestration.SearchKeywords | src/core/orchestrator.py:84-90 | the corrected hand-over (see Findings) passes the keyword text as a one-item list |
| Orchestration.SearchedAsPhrase | src/core/orchestrator.py:84-90 | with the correction the query searches the quoted keyword phrase |
| Orchestration.NoKeyNoScraping | src/core/orchestrator.py:80-97 | without a key no leads are scraped and no request is sent |
| Orchestration.QueryRequestCount | src/core/orchestrator.py:87-97 | a query sends one request iff it has keywords and a location |
| Orchestration.OneRequestPerQuery | src/core/orchestrator.py:80-97 | the scraping loop sends one request per runnable query |
| Orchestration.ScrapeLinkedIn | src/core/orchestrator.py:80-97 | the loop gathers `ScrapedLeads` with requests `ScrapeRequests`, each query searched with its keyword text handed over as written (iterated by character) |
| Orchestration.FindBy | src/core/orchestrator.py:136 | the lookup finds the first row with the value, or none iff no row has it |
| Orchestration.Created | src/database/db_utils.py:15-23 | creating a row appends the data with the next id |
| Orchestration.Database.constructor | src/database/db_utils.py:15-39 | a database starts with the given tables and refusal rule |
| Orchestration.CompanyFor | src/core/orchestrator.py:133-143 | no details, or details without a name, give no company id; a known name gives the first such company's id and creates nothing; an unknown one creates the company, failing iff the write is refused, and gives the new row's id; leads and jobs are untouched |
| Orchestration.LeadData | src/core/orchestrator.py:146-157 | the stored lead data carries the e-mail and company id and no id |
| Orchestration.StoreLead | src/core/orchestrator.py:127-182 | storing one lead leaves jobs alone and only appends companies; a failure leaves the leads as they were; an added lead is appended, carries the lead's e-mail and had none stored; an update needs a stored e-mail and changes no other row |
| Orchestration.StoreLeadKeepsEmailsUnique | src/core/orchestrator.py:159-176 | storing a lead keeps lead e-mails unique |
| Orchestration.StoreLeadUpdatesByEmail | src/core/orchestrator.py:159-166 | a lead whose e-mail is stored updates that row with the lead data and its resolved company, and adds no row |
| Orchestration.StoreLeadCreatesLead | src/core/orchestrator.py:167-176 | a lead without a stored e-mail is appended as its lead data with its resolved company |
| Orchestration.StoreLeadFails | src/core/orchestrator.py:133-182 | an unresolvable company or a refused write fails and leaves the leads as they were |
| Orchestration.StoreLeadUsesKnownCompany | src/core/orchestrator.py:133-143 | a lead whose company name is already stored links to that company's id and creates no company |
| Orchestration.StoreLeadCreatesCompany | src/core/orchestrator.py:133-143 | unknown company details are created and the added lead points to the new company |
| Orchestration.StoreLeads | src/core/orchestrator.py:119-186 | the counters add up to the number of leads and the leads table grows by the added count |
| Orchestration.StoreLeadsKeepsEmailsUnique | src/core/orchestrator.py:119-186 | storing a list keeps lead e-mails unique |
| Orchestration.StoreProcessedLeads | src/core/orchestrator.py:119-186 | the storage loop updates the tables and counters as `StoreLeads` |
| Orchestration.RunLinkedInWorkflow | src/core/orchestrator.py:50-188 | without given queries the raw leads are those of `DefaultQueryList`; nothing is stored without raw leads or with no processed leads; otherwise the processed leads are stored as `StoreLeads` |
| Orchestration.Names | src/core/orchestrator.py:206 | the names of a company map, in order |
| Orchestration.MapItem | src/core/orchestrator.py:209-212 | an item without `:` yields nothing; a yielded name and id are stripped and the name holds no `:` |
| Orchestration.MapItemParts | src/core/orchestrator.py:209-212 | an item `name:id` with no colon in the name yields the stripped name and id iff neither is blank |
| Orchestration.MapItemBlankName | src/core/orchestrator.py:209-212 | an item with a blank name, such as ` :x`, yields nothing |
| Orchestration.MapItemKeepsLaterColons | src/core/orchestrator.py:209-212 | only the first colon splits: the id may hold further colons |
| Orchestration.Put | src/core/orchestrator.py:212 | assigning a name keeps its first position, sets its id and changes no other entry |
| Orchestration.CompanyMap | src/core/orchestrator.py:206-217 | the parsed map has distinct stripped names without `:` |
| Orchestration.PutKeepsDistinct | src/core/orchestrator.py:212 | assignment keeps names distinct |
| Orchestration.CompanyMapLookup | src/core/orchestrator.py:206-217 | a name maps to the id of its last item |
| Orchestration.ParseCompanyMap | src/core/orchestrator.py:203-217 | the loop computes `CompanyMap` |
| Orchestration.StripAll | src/core/orchestrator.py:225-227 | each default role keyword is stripped |
| Orchestration.JobData | src/core/orchestrator.py:264-273 | stored job data is keyed by URL and company, open, with the posting's title |
| Orchestration.StoreCleaned | src/core/orchestrator.py:253-278 | a cleaned posting is appended iff its URL is set, not yet stored for the company and the write is accepted; a refused write raises `DataProcessingError`; otherwise nothing changes |
| Orchestration.NewPostingStored | src/core/orchestrator.py:256-278 | a posting with a URL the company does not have is created, or raises `DataProcessingError` when the write is refused |
| Orchestration.StoreJob | src/core/orchestrator.py:252-278 | a posting that fails to clean raises; otherwise it is stored as `StoreCleaned` |
| Orchestration.DuplicatePostingSkipped | src/core/orchestrator.py:256-262 | a posting already stored for the company is skipped |
| Orchestration.StoreCleanedIdempotent | src/core/orchestrator.py:253-278 | storing the same posting again changes nothing |
| Orchestration.StoreCleanedKeepsUnique | src/core/orchestrator.py:253-278 | storing keeps (URL, company) pairs unique |
| Orchestration.Advance | src/core/orchestrator.py:251-278 | one posting adds at most one job, and nothing once a posting has raised |
| Orchestration.StorePostings | src/core/orchestrator.py:251-278 | the jobs table only grows, by at most one per posting |
| Orchestration.RaisedStopsStoring | src/core/orchestrator.py:251-282 | once a posting raises, the rest of the company's postings are not stored |
| Orchestration.StorePostingsKeepsUnique | src/core/orchestrator.py:251-278 | storing postings keeps jobs unique |
| Orchestration.StorePostingsOf | src/core/orchestrator.py:251-278 | the loop stores postings as `StorePostings` |
| Orchestration.CompanyJobs | src/core/orchestrator.py:237-284 | one company changes only jobs, fails at most once, does nothing for an unknown company, and counts a fetch error as one failure |
| Orchestration.CompanyJobsKeepUnique | src/core/orchestrator.py:237-284 | one company's storage keeps jobs unique |
| Orchestration.StoreCompanyJobs | src/core/orchestrator.py:237-284 | the method updates tables and counters as `CompanyJobs` |
| Orchestration.BoardJobs | src/core/orchestrator.py:235-284 | one board changes only jobs and fails at most once per company |
| Orchestration.BoardJobsKeepUnique | src/core/orchestrator.py:235-284 | one board's storage keeps jobs unique |
| Orchestration.StoreBoard | src/core/orchestrator.py:235-334 | the loop over a board's companies computes `BoardJobs` |
| Orchestration.Phase | src/core/orchestrator.py:235-334 | an excluded board changes nothing |
| Orchestration.JobBoardsFrame | src/core/orchestrator.py:233-334 | the job-board phase changes only jobs, bounds failures by the number of companies, and does nothing without a listed board |
| Orchestration.JobBoardsKeepUnique | src/core/orchestrator.py:233-334 | the job-board workflow keeps (URL, company) pairs unique |
| Orchestration.RunJobBoardWorkflow | src/core/orchestrator.py:191-338 | with no company in either map nothing happens; otherwise the tables and counters are those of `JobBoards` |
| Orchestration.RunFullWorkflow | src/core/orchestrator.py:340-345 | the LinkedIn workflow with the raw leads of `DefaultQueryList`, then the job-board workflow for both boards on the tables it left |

## Left out

- Logging is not modelled.
- Sleeping is not modelled: the random pauses between searches and postings (`time.sleep(random.uniform(...))`) are dropped. The retry pauses are returned as a list.
- The clock is a `now` parameter, and `random.random()` is the `rand` function.
- HTTP requests are functions given as parameters: the SerpApi search, the Greenhouse and Lever endpoints, and the clients' `get_postings` as seen by the orchestrator. These functions return the decoded JSON or nothing. HTTP status handling inside `_make_api_request` and `test_api_connection` is not modelled; only its outcome is.
- The database is three lists of records and a `refuses` predicate for writes that raise. The SQLAlchemy session, commit and rollback are not modelled.
- The `db_utils` reads never fail in this model. `get_entity_by_field` is `FindBy`.
- LinkedInScraping.LeadRecord: the `date_added` timestamp the scraper stamps on each lead (src/data_acquisition/linkedin_scraper.py:331) is a clock value and is not modelled; neither the lead nor the stored lead data carries it.
- `jobs_updated` stays 0 in the source and is not modelled.
- The `else: jobs_failed += 1` branch after a posting is stored cannot be reached. In the model, storing a job either adds it, skips it or raises.
- `lower()` and `upper()` change ASCII letters only; Unicode case mapping is not modelled. `strip()`, `split()` and the whitespace tests use the full `str.isspace` set.
- DataCleaner.NormalizeCompanyName: the `\w` and `\b` of the legal-suffix pattern are ASCII word characters here, whereas Python's are Unicode. A name ending in a non-ASCII letter followed by a suffix word, such as `Caféinc`, loses `inc` in the model and keeps it in Python.
- Dict iteration order is modelled only for the company maps, which are ordered lists of pairs.
- The job-storage specification takes the posting cleaner as a parameter (`clean`). The workflow passes `DataCleaner.CleanJobPostingData`.
- Orchestration.RunLinkedInWorkflow: the lead processing is the parameter `process` (`None` when it raises), which the model does not tie to `LeadProcessing.LeadProcessor.ProcessAndFilterLeads`; the same holds for Orchestration.RunFullWorkflow.
- Strings.ParseInt: only ASCII digits are accepted, whereas Python's `int()` also accepts other Unicode decimal digits; ResponseCache.ExpirySetting therefore falls back to its default for a setting written in such digits.
- `ConfigManager` is a string map with a per-call default. src/config/config_manager.py is not part of this model.
- The web app, the Notion exporter and `models.py` are not part of this model.
- The orchestrator's constructor, which builds the components from a configuration file, is not modelled.
- The `__main__` blocks and the commented-out examples are not modelled.
- LinkedInScraping.SearchLeads: retrying the search request through `retry_with_backoff` is not composed with the scraper; a failed search (after its retries) is the search function returning nothing.

## Findings

| source | as written | input that shows it | evidently intended | confidence | as-written member | corrected member |
|---|---|---|---|---|---|---|
| src/core/orchestrator.py:84-90 | the query's keyword text is passed as `keywords`, a list parameter, so the scraper iterates its characters | keywords `PM`, location `NYC`: the query searches `"P" OR "M"` | search the keyword text as one quoted phrase | not executed | Orchestration.KeywordTextSearchedByLetter | Orchestration.SearchedAsPhrase |
| src/api_integration/greenhouse_client.py:54-60 | clearing a board removes every key starting with the token, so other boards sharing the prefix are dropped too | clearing `token1` removes the cached postings of `token10` | remove only keys starting with `token_` | not executed | Greenhouse.ClearCacheDropsOtherBoards | Greenhouse.BoardClearedExact |
| src/api_integration/lever_client.py:54-60 | clearing a company deletes the key equal to its id, but postings are cached under `id_keywords` | clearing `acme` after fetching `acme`'s postings leaves them cached | remove the company's `id_` keys | not executed | Lever.ClearCacheMissesFetches | Lever.CompanyClearedExact |
