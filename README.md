# search-in-terminal: a Dafny model of the search core

`st` is a terminal web-search client. You type a query. It fetches a results page
from Google, Bing or DuckDuckGo, scrapes the results from the HTML and shows them
ten to a page. Moving past the last page fetches the next batch from the engine.

This project models the core of that program and proves properties of the model.
- **Engine module:**
  - choosing an engine by name, and cycling through the engines;
  - building each engine's query url;
  - each engine's extraction loop over the result containers of a page, including DuckDuckGo's url clean-up and duplicate removal;
  - the whole engine search.
- **Fetch module:**
  - `fetch_response_text`: the response cache, the initial pause, the retry loop with linear backoff, and the classification of each attempt by HTTP status, body and transport failure.
- **Application module:**
  - the `App` session state;
  - page counting and page ranges;
  - `clear_input` and `clear_results`;
  - `next_search`, which appends only results with new urls;
  - `perform_search` with its one-second rate limit;
  - `change_page`.
- **Config module:**
  - settings validation;
  - the default settings.
- **Errors module:**
  - the search errors and their display texts.
- **Models and Text modules:**
  - `SearchResult` and the page-size and rate-limit constants;
  - the pieces of Rust's string API that the core relies on.

Files:
- `prelude.dfy`: `Option`, `Result`, `u16`, `i32`, `u16::saturating_add`.
- `text.dfy`: `starts_with`, `find`, `contains`, `split(..).nth(1)`, decimal rendering, `trim`, `to_lowercase`.
- `models.dfy`: `SearchResult`, `ITEMS_PER_PAGE`, `RATE_LIMIT_DURATION`, url sets, subsequences.
- `errors.dfy`: `SearchError` and its `Display` texts.
- `config.dfy`: `SearchConfig`, `CacheConfig`, `EngineConfig` and their validation; the defaults.
- `fetch.dfy`: attempt classification, the retry schedule, and the `Client` class. `Client` holds the response cache and a ghost trace of pauses and requests.
- `engine.dfy`: `SearchEngine`, url building, result extraction (the `Extract` method and its `Extraction` specification), and `Search`.
- `app.dfy`: the `App` class. Each state-changing method is proved equal to a function on `Session`, a snapshot of the fields. Lemmas about those functions give the paging invariant, url distinctness, the rate-limit gate and the landing page of `change_page`.

Some things the program gets from outside are parameters of the model:
- the network: a transport function giving the outcome of attempt n;
- the random user-agent choice and jitter;
- the clock (nanoseconds);
- percent-encoding and percent-decoding;
- the HTML parser, which is modelled as a function from page text to the page's result containers;
- the engine search as `App` sees it.

## Model

| member | source | states |
|---|---|---|
| Prelude.SaturatingAdd | src/core/app.rs:166 | the offset grows by the increment when the sum fits in `u16`, and is pinned at 65535 otherwise |
| Text.StartsWith | src/search/engine.rs:103 | `str::starts_with`: the text begins with the pattern |
| Text.Contains | src/search/engine.rs:352-354 | `str::contains`: the pattern occurs at some position of the text |
| Text.Trim | src/search/engine.rs:268-270 | `str::trim`: `trim_end` of `trim_start` |
| Text.Find | src/search/engine.rs:249 | a found index starts an occurrence of the pattern and no earlier index does; None means no index does |
| Text.UpToNextSpec | src/search/engine.rs:249 | the piece `split("uddg=").nth(1)` takes from what follows the first separator is a prefix holding no separator, ending at the end of the text or at the next separator |
| Text.Decimal | src/search/engine.rs:79-83 | a number is rendered as one or more decimal digits, with a leading zero only for zero |
| Text.DecimalRoundTrip | src/search/engine.rs:79-83 | reading back the digits written for the offset gives the offset |
| Text.DecimalInjective | src/search/engine.rs:79-83 | different offsets are written differently |
| Text.TrimStart | src/search/engine.rs:107 | the result is a suffix of the text; everything removed is whitespace; it starts with no whitespace |
| Text.TrimEnd | src/search/engine.rs:113 | the result is a prefix of the text; everything removed is whitespace; it ends with no whitespace |
| Text.IsWhitespace | src/search/engine.rs:107 | `char::is_whitespace`, behind every `trim` (lines 107, 113, 268 and 270): the Unicode White_Space characters |
| Text.SplitSecond | src/search/engine.rs:249 | `split(sep).nth(1)`: None when the separator does not occur; otherwise the text after its first occurrence, up to the next occurrence or the end (see `Text.UpToNextSpec`) |
| Text.LowerChar | src/search/engine.rs:21 | one character of `to_lowercase`: 'A'..'Z' to 'a'..'z', the KELVIN SIGN to 'k', every other character kept |
| Text.ToLowercase | src/search/engine.rs:21 | `to_lowercase` as far as comparisons with lower-case ASCII names go: same length, each character lower-cased by `LowerChar` |
| Errors.MessageSignature | src/error/types.rs:5-27 | every display text has at least two characters, and its first two characters identify the kind of error |
| Errors.MessageDeterminesError | src/error/types.rs:4-28 | two errors with the same display text are the same error, details included |
| Errors.Message | src/error/types.rs:4-28 | the `Display` text of each error: a fixed text, or a fixed prefix followed by the detail |
| Config.ValidateSearch | src/core/config.rs:86-98 | passes exactly when retries are at most 10 and both timeouts are positive; the retry message takes priority over the timeout message |
| Config.ValidateCache | src/core/config.rs:28-35 | passes exactly when the time-to-live is positive, and otherwise fails with the time-to-live message |
| Config.ValidateEngine | src/core/config.rs:47-54 | passes exactly for "google", "bing" and "duckduckgo" as written (case-sensitive), and otherwise fails with the engine message |
| Config.Validate | src/core/config.rs:174-179 | passes exactly when all three sections pass; otherwise the failure is that of the first section to fail, in the order search, cache, engine |
| Config.DefaultUserAgents | src/core/config.rs:183-191 | the default rotation holds five user agents |
| Config.DefaultSettings | src/core/config.rs:194-250 | the default settings have the documented values and pass validation |
| Config.ValidationAdmitsUnfetchableSettings | src/core/config.rs:86-98 | validation passes settings with no user agents and a zero jitter bound, for which a fetch cannot choose an agent or a jitter |
| Config.ValidateSearchChecked | src/core/config.rs:86-98 | the stricter check passes exactly what `validate` passes and is fetch-ready; it reports the same failures as `validate` |
| Config.DefaultSettingsFetchReady | src/core/config.rs:220-231 | the default search settings pass the stricter check |
| Fetch.LooksBlocked | src/search/engine.rs:352-354 | a 200 body is taken as an anti-bot page when it contains "detected unusual traffic", "CAPTCHA" or "blocked" |
| Fetch.StatusText | src/search/engine.rs:372 | the `Display` of an HTTP status: the code, a space, and the canonical reason or "<unknown status code>" |
| Fetch.Classify | src/search/engine.rs:341-386 | the outcome of one attempt, by status, body and transport failure; its properties are in `Fetch.ClassifySpec` |
| Fetch.Attempts | src/search/engine.rs:314-400 | the retry loop from attempt n with the latest failure so far: the result and the pauses and requests it makes; its properties are in the lemmas below |
| Fetch.FetchMiss | src/search/engine.rs:298-400 | an uncached fetch: the initial pause, then the client-build failure or the retry loop |
| Fetch.ClassifySpec | src/search/engine.rs:341-386 | an unblocked 200 body is the only success and returns the body. `RateLimited` comes from 429 only. `Blocked` comes from 403 or a 200 body that looks blocked. `Timeout` comes from 408, 504, a body-read timeout, a send timeout or the outer timeout. A failed 200 body read gives `InvalidResponse` with the read error. A send failure that is not a timeout gives `NetworkError("Connection failed")` when it is a connect failure, and `NetworkError` with its own message otherwise. Any other status gives `NetworkError("HTTP error: " + status text)` |
| Fetch.AttemptsUnfold | src/search/engine.rs:317-397 | one attempt: a success ends the run with that attempt's events; a failure is followed by the remaining attempts, with that failure as the latest error |
| Fetch.AttemptsAdvance | src/search/engine.rs:317-397 | each pass of the retry loop keeps the loop's account of the result and the events of the whole run |
| Fetch.AttemptsSchedule | src/search/engine.rs:317-324 | the attempts make at most the retries left, one request each, and their events follow the backoff schedule |
| Fetch.AttemptsSucceeded | src/search/engine.rs:390-393 | a success is the classification of the last attempt made, and every earlier attempt failed |
| Fetch.AttemptsExhausted | src/search/engine.rs:395-400 | a failure means every remaining attempt was made and failed; the error is the last attempt's, or the carried-in error when no attempt remained |
| Fetch.AttemptsFrom | src/search/engine.rs:314-400 | the three above together: the schedule, stopping at the first success, and the latest failure otherwise |
| Fetch.BackoffSchedule | src/search/engine.rs:303-324 | an uncached fetch first pauses for `base_delay + jitter`, then makes at most `max_retries` requests; every request after the first is preceded by a pause of `base_delay * n + jitter` |
| Fetch.LastErrorWins | src/search/engine.rs:314-400 | an uncached fetch returns the first successful attempt. If all `max_retries` attempts fail it returns the last attempt's error, and `Unknown` when no attempt was made |
| Fetch.AlwaysRateLimited | src/search/engine.rs:368 | a server that answers 429 every time makes the fetch fail with `RateLimited` |
| Fetch.Client.constructor | src/search/engine.rs:284-289 | the cache starts empty and nothing has happened yet |
| Fetch.Client.Evict | src/search/engine.rs:284-289 | entries dropped by capacity or time-to-live disappear, and nothing else changes |
| Fetch.Client.FetchText | src/search/engine.rs:292-401 | a cached url returns its body with no pause and no request. Otherwise the result and the pauses and requests are exactly those of an uncached fetch, and only a success is written to the cache |
| Fetch.Client.RetryLoop | src/search/engine.rs:314-400 | the loop's result and the events it appends are those of the attempts run from attempt 0 |
| Fetch.Client.SendOnce | src/search/engine.rs:318-397 | attempt n pauses for `base_delay * n + jitter` (no pause for n = 0), sends one request and is classified as `Classify` says |
| Engine.NameLower | src/search/engine.rs:39-45 | each engine's display name lower-cases to the name the settings file uses |
| Engine.Name | src/search/engine.rs:39-45 | the display name of each engine |
| Engine.Favor | src/search/engine.rs:20-27 | a name that lower-cases to an engine's name selects that engine; any other name selects Google |
| Engine.FavorName | src/search/engine.rs:20-27 | every engine is selected by its own name, however it is capitalised |
| Engine.ValidatedFavor | src/core/config.rs:47-54 | every engine name that validation accepts selects the engine of that name |
| Engine.Next | src/search/engine.rs:30-36 | the next engine is always a different one |
| Engine.NextCycle | src/search/engine.rs:30-36 | three steps of `next` come back to the start, and the three steps visit all three engines |
| Engine.BuildUrlOffset | src/search/engine.rs:78-84 | each engine's url (lines 78-84, 146-152 and 214-220) starts with the engine's fixed prefix, holds the encoded query next, and ends with the decimal offset, which reads back as the offset |
| Engine.BuildUrlInjective | src/search/engine.rs:78-84 | different engines, or different offsets for the same query, give different urls |
| Engine.BuildUrl | src/search/engine.rs:78-84 | each engine's query url (lines 78-84, 146-152 and 214-220): the fixed prefix, the encoded query, the offset key and the decimal offset |
| Engine.CleanUrl | src/search/engine.rs:244-260 | absolute urls are kept; protocol-relative urls get "https:"; a site-relative url yields the decoded text after "uddg=", or nothing; anything else is dropped |
| Engine.CleanUrlAbsolute | src/search/engine.rs:244-247 | an absolute or protocol-relative url always comes out absolute |
| Engine.CleanUrlNeedsTarget | src/search/engine.rs:248-257 | a redirect with no "uddg=" parameter is dropped |
| Engine.Candidate | src/search/engine.rs:100-124 | the result one container gives before the duplicate check (Google and Bing at lines 100-124 and 168-192, DuckDuckGo at 236-271), or nothing when it is skipped |
| Engine.Dedup | src/search/engine.rs:262-265 | the candidates without those whose url was seen earlier, in order |
| Engine.CandidateSpec | src/search/engine.rs:100-124 | Google and Bing keep a container exactly when its link's href is absolute, with "No title" or "No description" when those are missing; DuckDuckGo keeps it exactly when it has a title link with an href, a snippet, and a url that survives the clean-up. Title and description are trimmed |
| Engine.DedupDistinct | src/search/engine.rs:262-265 | after duplicate removal, urls are pairwise distinct and none of them was already seen |
| Engine.DedupFirstOccurrence | src/search/engine.rs:103-116 | a result is kept exactly when it is the first with its url and the url was not seen before |
| Engine.DedupKeepsUrls | src/search/engine.rs:103-116 | duplicate removal loses no url that was not already seen |
| Engine.DedupOrder | src/search/engine.rs:100-125 | duplicate removal keeps document order: its output is a subsequence of its input |
| Engine.DedupEmpty | src/search/engine.rs:127-129 | nothing is kept exactly when no container gave a candidate |
| Engine.Extraction | src/search/engine.rs:100-131 | `NoResults` exactly when no container gives a result. Otherwise a non-empty list with distinct urls, holding every candidate url, in document order |
| Engine.ExtractStep | src/search/engine.rs:100-125 | handling one container, whether kept or skipped as a duplicate, keeps the loop on course for the whole page's result |
| Engine.ExtractDone | src/search/engine.rs:127-131 | once every container is handled, the loop's result is the page's extraction |
| Engine.Extract | src/search/engine.rs:235-280 | the extraction loop returns exactly `Extraction` of the page |
| Engine.Search | src/search/engine.rs:87-131 | a search fetches its engine's url through the cache and passes a fetch error on unchanged; otherwise it returns the extraction of the fetched page. A success is a non-empty list with distinct urls. Only a successful fetch writes the cache. A cached url adds no pause and no request to the trace; an uncached one adds exactly the pauses and requests of an uncached fetch |
| Application.AsI32 | src/core/app.rs:114 | the `as i32` cast never increases a value and keeps every value up to `i32::MAX` |
| Application.PageCount | src/core/app.rs:85-91 | one page for no results; otherwise the smallest count of ten-result pages that holds them all |
| Application.PageCountMonotone | src/core/app.rs:85-91 | more results never means fewer pages |
| Application.Elapsed | src/core/app.rs:209 | `Instant::elapsed`: the time since the last search, zero if the clock reads earlier |
| Application.PageRange | src/core/app.rs:94-106 | `current_page_range`: (0, 0) with no results; otherwise page × 10 up to ten further, the last page running to the end |
| Application.Paginated | src/core/app.rs:85-91 | `total_pages`: the page count recomputed from the results |
| Application.Cleared | src/core/app.rs:143-155 | `clear_results`: no results, page 0 of 0, no messages, an empty query in input mode, offset 0 |
| Application.Unseen | src/core/app.rs:180-184 | the results of a batch whose url is not already held, in batch order |
| Application.AfterNextSearch | src/core/app.rs:157-199 | the session after `next_search` |
| Application.TooSoon | src/core/app.rs:208-209 | the last search began less than a second ago |
| Application.AfterPerformSearch | src/core/app.rs:202-249 | the session after `perform_search` |
| Application.OnPage | src/core/app.rs:116-120 | the session moved to a page, its first result selected, scrolled to the top |
| Application.AfterChangePage | src/core/app.rs:109-135 | the session after `change_page` |
| Application.NothingToDo | src/core/app.rs:158-160 | `next_search` and `perform_search` change nothing with an empty query (lines 158-160 and 203-205), and `change_page` changes nothing without results (lines 110-112) |
| Application.Initial | src/core/app.rs:62-81 | a new session satisfies the paging invariant, has no results, is in input mode at offset 0, and uses the configured engine |
| Application.PageRangeBounds | src/core/app.rs:94-106 | under the paging invariant the current page is a non-empty run of at most ten results starting at page × 10; every page but the last holds exactly ten |
| Application.EveryResultOnItsPage | src/core/app.rs:94-106 | every result lies in the range of the page its index divided by ten names, and that page exists |
| Application.ClearedIsReset | src/core/app.rs:143-155 | clearing resets everything but the engine, the last search time and the loading flag to a new session's values, and keeps the paging invariant |
| Application.UnseenMembers | src/core/app.rs:180-184 | a batch result is kept exactly when its url is not already held; the kept urls are the batch's minus those held; the batch order is kept |
| Application.UnseenEmpty | src/core/app.rs:186-191 | nothing is new exactly when every url of the batch is already held |
| Application.UnseenDistinct | src/core/app.rs:180-184 | the new results of a batch with distinct urls have distinct urls |
| Application.MergeSpec | src/core/app.rs:177-188 | appending the new results keeps the held results in front, holds exactly the urls held plus the batch's, and keeps urls distinct |
| Application.NextSearchPaged | src/core/app.rs:157-199 | `next_search` keeps the paging invariant and never moves the page |
| Application.NextSearchMerge | src/core/app.rs:157-199 | `next_search` keeps the held results in front and in order. A success adds exactly the batch's urls; a failure or an empty query changes no result. When the engine search returns distinct urls, urls stay distinct |
| Application.NextSearchOffset | src/core/app.rs:157-199 | with a query, the offset advances by ten (capped at 65535) whatever happens. A failed search shows exactly "Next search failed: " and the error's text, and a successful one shows no error. The "No more results found" warning appears exactly when the search succeeds with nothing new. No message at all means exactly that results were added |
| Application.RateLimitGate | src/core/app.rs:207-214 | a search within a second of the last one only sets the wait warning; all else stays as it was |
| Application.PerformSearchOutcome | src/core/app.rs:216-248 | a search that goes ahead ends with offset 0, loading and input mode off, the finish time recorded, no warning, and page 0 under the paging invariant. On success the results are exactly the batch; on failure nothing is held and the query is gone |
| Application.PerformSearchPaged | src/core/app.rs:202-249 | `perform_search` keeps the paging invariant, and keeps urls distinct when the engine search returns distinct urls |
| Application.FailedSearchShowsNoError | src/core/app.rs:239-242 | as written, a failed search shows no error message |
| Application.ReportedSearchShowsError | src/core/app.rs:239-242 | the corrected search shows the failure's text after a failure and no error after a success, and otherwise agrees with `perform_search` |
| Application.ChangePagePaged | src/core/app.rs:109-135 | `change_page` keeps the paging invariant |
| Application.ChangePageDistinct | src/core/app.rs:109-135 | `change_page` keeps urls distinct when the engine search returns distinct urls |
| Application.ChangePageTarget | src/core/app.rs:114-131 | a target inside the pages is moved to, with the page's first result selected. A forward target past the end runs `next_search` (offset, messages and new results), and the page then moves forward by one exactly when the page count after the fetch has a page beyond the current one; otherwise it stays. The held results stay in front. A negative target, or one that overflows `i32`, changes nothing |
| Application.App.constructor | src/core/app.rs:62-81 | the fields are those of a new session, which satisfies the paging invariant |
| Application.App.TotalPages | src/core/app.rs:85-91 | the page count is recomputed from the results, and nothing else changes |
| Application.App.CurrentPageRange | src/core/app.rs:94-106 | the current page's index range; with results and under the invariant, a non-empty range of at most ten |
| Application.App.ClearInput | src/core/app.rs:138-140 | the query is emptied, and nothing else changes |
| Application.App.ClearResults | src/core/app.rs:143-155 | the fields become the cleared session |
| Application.App.ClearListing | src/core/app.rs:144-149 | the results and the page position are reset |
| Application.App.ClearPrompt | src/core/app.rs:150-154 | the messages, query, input mode and offset are reset |
| Application.App.NextSearch | src/core/app.rs:157-199 | the fields become the session after `next_search`, and the paging invariant is kept |
| Application.App.Advance | src/core/app.rs:162-166 | both messages are cleared and the offset advances by ten, saturating |
| Application.App.PerformSearch | src/core/app.rs:202-249 | the fields become the session after `perform_search`, and the paging invariant is kept |
| Application.App.Begin | src/core/app.rs:216-219 | loading starts, the messages are cleared and the offset is reset |
| Application.App.Show | src/core/app.rs:231-237 | the batch replaces the results, shown from its first row on page 0 |
| Application.App.End | src/core/app.rs:245-247 | loading and input mode end, and the finish time becomes the last search time |
| Application.App.PerformSearchReported | src/core/app.rs:239-242 | the fields become those of the corrected search, which keeps the error message |
| Application.App.ChangePage | src/core/app.rs:109-135 | the fields become the session after `change_page`, and the paging invariant is kept |
| Application.App.GoToPage | src/core/app.rs:116-120 | page p is shown with its first result selected, scrolled to the top |
| Application.FailedFirstSearch | src/core/app.rs:239-241 | a new session whose first search fails shows no error message |

## Left out

- The terminal UI (`src/ui`, `main.rs`) and `open_selected_url` are not part of this model. They are drawing, key handling and starting a browser.
- Locating, creating and reading the settings file (`Config::new`, `config_path`, `ensure_config_dir`) and the TOML parsing are I/O. The model has the validation and the default values. A missing or unparsable file gives the defaults.
- Randomness is a parameter:
  - the user agent is an index into the configured list;
  - the jitter is a number below `max_jitter`.
  - `FetchText` requires both to be in range when the url is not cached. The source panics otherwise (see the findings).
- Sleeping, both timeouts and the clock are not modelled as time. The pauses are events in a ghost trace. A timeout is one of the outcomes an attempt can have. `Instant` is a parameter in nanoseconds.
- The async runtime and concurrency are not modelled. Two fetches sharing the cache do not interleave in the model.
- The network is a transport function from attempt number to outcome. The reason phrase of an HTTP status is an optional part of that outcome, not a table of its own.
- The `moka` cache's capacity bound and time-to-live are not modelled. `Client.Evict` drops entries at any time, which covers both.
- `Fetch.Client.FetchText`: writes the cache after `RetryLoop` returns a success, instead of inside the loop. The observable result, trace and cache are the same.
- `Fetch.Client.FetchText`: the `u64` arithmetic of the pauses (`base_delay * retry + jitter`) is unbounded. Overflow, which panics in a debug build, is not modelled.
- The HTML parser and CSS selectors (`scraper`) are not modelled. A page is the sequence of its result containers. Each container is the first link's href, the first title text and the first description text the selectors would find (`Engine.Container`).
- Percent-encoding of the query and percent-decoding of DuckDuckGo redirect targets (`urlencoding`) are parameters. A decoding failure is `None`.
- `Text.ToLowercase`: exact only for characters whose lower-case form is made of ASCII letters ('A'..'Z' and the KELVIN SIGN). It leaves every other character as it is. Those characters never lower-case to ASCII letters only, so no comparison with an engine name changes.
- `Application.App`: takes the engine search as a function. The response cache is threaded through `Engine.Search`, not through the session.
- `Application.App.NextSearch`: the source sets the same error message twice (once while matching the search result, once in the second match). The model sets it once, with the same final state.
- `Application.AfterChangePage`: `next_search` never returns an error, so the `?` in `change_page` never propagates. The model does not model it.
- `Application`: `usize` arithmetic on pages is unbounded. The subtraction `total_pages - 1` cannot go below zero under the paging invariant, which every operation keeps.
- `POLL_TIMEOUT` (`src/search/models.rs:6`) belongs to the UI event loop and is not modelled.
- `SearchResult` is compared by value in the model. In the source only its url is ever compared.
- `Engine.Extract`: the loop's `seen` set is the set of urls kept so far. The loop invariant ties only the results to the specification, not the set.
- `Text.SplitSecond`: its property is stated on the part after the first separator (`Text.UpToNextSpec`) and through `Engine.CleanUrl`.

## Findings

| source | as written | input that shows it | evidently intended | confidence | as-written member | corrected member |
|---|---|---|---|---|---|---|
| src/core/app.rs:239-242 | on a failed search, `perform_search` sets "Search failed: …" and then calls `clear_results`, which sets `error_message` back to `None` | a new session with query "rust" whose engine search returns any error: no error message is shown | the failure is reported: the error message survives the clearing of the results | not executed | Application.FailedSearchShowsNoError | Application.ReportedSearchShowsError |
| src/core/config.rs:86-98 | `SearchConfig::validate` checks retries and timeouts only. `fetch_response_text` indexes `user_agents[0]` when the list is empty and draws from `0..max_jitter` (engine.rs:301-304), which panics when `max_jitter` is 0 | settings with `user_agents = []` and `max_jitter = 0`, retries 3, both timeouts 10: validation passes, and the first uncached search panics | validation also rejects an empty user-agent list and a zero jitter bound | not executed | Config.ValidationAdmitsUnfetchableSettings | Config.ValidateSearchChecked |
