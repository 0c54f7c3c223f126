# isis-mcp retrieval core, modelled in Dafny

isis-mcp is an MCP server that answers questions with web content. This project models the core of
its retrieval pipeline and proves properties of the model:

- **Search fallback chain** (`build/lib/search.js`). Rate-limit classification of error messages.
  `fetchWithRetry` with exponential backoff. The local SearXNG instance, the ScraperAPI/DuckDuckGo
  scraper and the public SearXNG instances, tried in a fixed order until one returns results.
- **Content cache** (`src/lib/cache.ts`). A url-keyed table with a one-hour TTL. A stale row is
  deleted lazily when it is read. Also the content-handle codec: Base64 over the url's UTF-8 bytes.
- **RAG pipeline** (`build/tools/rag.js`, and the earlier `src/tools/rag.ts`). It searches, then for
  each hit either uses the cached page or scrapes, extracts and writes the cache. It drops failed
  hits and formats the rest by output format and content mode (full, preview, summary).
- **Single-url scrape** (`build/tools/scrape.js`). A cache hit is served unless a selector is
  given. The cache is written only when no live row existed.
- **Crawler** (`src/tools/crawl.ts`). A breadth-first crawl over a `toVisit` queue and a
  `visited` set, bounded by `maxPages`, recording one page per visit and every link found.

The modules are `Wrappers` (Option, JavaScript errors, Result), `Strings`, `Collections`
(`filter(Boolean)` and `[...new Set(xs)]`), `Utf8`, `Base64`, `Cache`, `ContentMode`, `Search`,
`BraveSearch` (the earlier single-provider search of `src/lib/search.ts`, which the earlier
`rag` imports), `Rag`, `ScrapeTool` and `Crawl`.

Everything outside the core becomes a function-typed parameter (an oracle): the network, HTML
parsing, Readability extraction, URL parsing, regular expressions, the LLM summariser, and the
clock (passed in as `now`). The cache object `ContentCache` owns the table, as a `map` field that
`Get` and `Save` update. Loops in the source (`fetchWithRetry`, the DuckDuckGo match loop, the
provider chain, the crawl loop and its link callback, the RAG fan-out) are `while` loops with
invariants, each proved against a specification function: `FetchResult`, `Usable`, `FirstSuccess`
over the provider chain, `AcceptedAll`, `PageOf` and `Pending` for the crawl, and `Acquired` for the
fan-out.

Where the code and its documentation differ, the model follows the code:

- `searchWeb` only logs each provider's failure and then throws "All search providers failed". It
  does not collect the providers' errors.
- The "Fetch attempts exhausted" error is reachable only when `retries <= 0`.
- The crawl's `if (visited.has(url)) continue` never fires: the queue never holds a visited url
  (`Crawl.Queued`). It is still modelled, as a branch that nothing reaches.

## Model

| member | source | states |
|---|---|---|
| Search.RateLimitMeaning | build/lib/search.js:9-17 | an error is a rate limit exactly when one of the six signatures occurs in its lower-cased message (an absent message counts as empty) |
| Search.NoMessageIsNotRateLimit | build/lib/search.js:10 | an error without a message, or with an empty one, is never a rate limit |
| Strings.IncludesMeansOccurs | build/lib/search.js:11-16 | `includes` holds exactly when the fragment occurs at some position |
| Strings.ToLower | build/lib/search.js:10 | lower-casing keeps the length, leaves no upper-case letter, turns each upper-case letter into its lower-case partner and leaves every other character as it is |
| Strings.ToLowerIdempotent | build/lib/search.js:10 | lower-casing twice is lower-casing once |
| Search.HttpErrorIsFinal | build/lib/search.js:26-31 | a non-ok status whose `HTTP s: text` message is not a rate limit fails with `HTTP Error: s`, and that error is never retried |
| Search.ThrottlingStatusIsRetryable | build/lib/search.js:26-30 | a 429 or 503 response is retried whatever its status text |
| Search.DefaultBackoffs | build/lib/search.js:18-42 | with the default three attempts the delays one `fetchWithRetry` call sleeps are a prefix of [2000, 4000]: none, 2000 ms, or 2000 ms and then 4000 ms |
| Search.FetchWithRetry | build/lib/search.js:18-46 | the answer is `FetchResult`: the response of the first ok attempt, or the error of the first attempt that is not retried; at most `retries` attempts; each wait `2^k * 2000` follows a rate-limited failure of attempt k; success is an ok response of the last attempt; a failure is that attempt's error, which is not a rate limit unless attempts ran out; `retries <= 0` gives "Fetch attempts exhausted" with no attempt; the delays slept are `FetchWaits`, and with the default retry count a prefix of [2000, 4000] |
| Search.SearxngHits | build/lib/search.js:52-59 | missing or empty results are the "no results" error; otherwise the first `maxResults` results, in order, with `content` or "" as the description |
| Search.SearchSearxng | build/lib/search.js:47-60 | the answer is `SearxngOutcome`: a failed fetch of the instance's JSON url or an unparsable body is passed through, otherwise `SearxngHits` of the parsed body; 1 to 3 attempts; a success holds at most `maxResults` hits; the delays slept are those of its one `fetchWithRetry` (`SearxngWaits`) |
| Strings.TrimMeaning | build/lib/search.js:77-79 | `trim` returns the contiguous middle of the string between runs of whitespace, and a non-empty result neither starts nor ends with whitespace |
| Search.UsableAppend | build/lib/search.js:73-82 | selecting the usable matches distributes over concatenation |
| Search.UsableFromMatches | build/lib/search.js:75-80 | every hit comes, trimmed, from a match whose url and title are non-empty |
| Search.CollectMatches | build/lib/search.js:70-82 | the loop yields the usable matches, in order, cut at `maxResults` |
| Search.ScrapedHits | build/lib/search.js:83-86 | no usable match (or `maxResults` 0) is the "No results parsed from DuckDuckGo HTML" error; otherwise the first usable matches, between 1 and `maxResults` of them, and all of them when fewer than `maxResults` |
| Search.SearchScraperApi | build/lib/search.js:61-87 | the answer is `ScraperApiOutcome`: with no key "SCRAPER_API_KEY not configured" and no fetch; a failed fetch of the ScraperAPI url for the DuckDuckGo page is passed through; otherwise `ScrapedHits` of the matches in the body; 1 to 3 attempts with a key; the delays slept are none without a key, else those of its one `fetchWithRetry` (`ScraperApiWaits`) |
| Search.Chain | build/lib/search.js:102-124 | the local instance comes first, ScraperAPI only with a key, then the three public instances |
| Search.FirstSuccessMeaning | build/lib/search.js:102-125 | trying providers in turn succeeds exactly when some provider succeeds, with the answer of the first that does; otherwise "All search providers failed" |
| Search.OutcomeBounds | build/lib/search.js:47-101 | every provider's success holds at most `maxResults` hits, and at least one when `maxResults` is positive |
| Search.SearchWeb | build/lib/search.js:102-126 | the answer is `WebOutcome`, the first success over the chain, each provider giving its own outcome (`Outcome`); failure means every provider failed and gives "All search providers failed"; the delays slept are `WebWaits`: each provider's own delays, from the local instance up to and including the first that succeeds, and none of any provider after it |
| Search.ChainRunWaits | build/lib/search.js:102-126 | in a run of the chain, the delays slept are exactly those of the providers tried, in order, so no provider after the first success contributes a delay |
| Search.WebOutcomeMeaning | build/lib/search.js:102-126 | the search succeeds exactly when some provider of the chain does, with the first such provider's answer, holding at most `maxResults` hits |
| Cache.ContentCache.Get | src/lib/cache.ts:35-49 | returns the row only when it is at most an hour old; a stale row is deleted and every other row is kept |
| Cache.ContentCache.Save | src/lib/cache.ts:51-61 | inserts or replaces the row for the url, stamped with the current time |
| Cache.ReadAfterRead | src/lib/cache.ts:35-49 | a read of one url does not change what a read of any url returns |
| Cache.GenerateContentHandle | src/lib/cache.ts:70-72 | the handle has the Base64 length of the url's UTF-8 bytes and uses only Base64 characters |
| Cache.DecodeContentHandle | src/lib/cache.ts:74-80 | a handle that decodes is the encoding of the url it decodes to |
| Cache.HandleRoundTrip | src/lib/cache.ts:70-80 | decoding a url's handle gives back the url |
| Base64.Encode | src/lib/cache.ts:71 | Base64 output is 4 characters per started group of 3 bytes |
| Base64.RoundTrip | src/lib/cache.ts:71-76 | decoding an encoding gives back the bytes |
| Base64.DecodeCanonical | src/lib/cache.ts:76 | what decodes is the canonical encoding of its result |
| Utf8.RoundTrip | src/lib/cache.ts:71-76 | UTF-8 decoding of an encoding gives back the string |
| Utf8.DecodeCanonical | src/lib/cache.ts:76 | a byte string that decodes is the encoding of its result |
| ContentMode.TruncateForPreview | build/tools/rag.js:6-10 | a string of at most `maxChars` characters is returned unchanged; a longer one becomes its first `maxChars` characters followed by "..." |
| ContentMode.TruncateIdempotent | build/tools/rag.js:6-10 | truncating a preview again changes nothing |
| ContentMode.ApplyContentMode | build/tools/rag.js:11-31 | empty content is returned as is; otherwise the result is the content itself, its preview, or a non-empty summary |
| ContentMode.SummaryFallsBack | build/tools/rag.js:17-28 | an empty summary or a failed summariser falls back to the 300-character preview |
| Collections.SomesOrder | build/tools/rag.js:88 | `filter(Boolean)` keeps exactly the present pages, in their original order |
| Collections.Dedup | src/tools/crawl.ts:96 | `[...new Set(xs)]` has no duplicates and the same members as `xs` |
| Collections.DedupOrder | src/tools/crawl.ts:96 | `[...new Set(xs)]` lists its members in the order of their first occurrences in `xs` |
| Rag.ReadAfterPurge | build/tools/rag.js:47-48 | the lookups of the other hits do not change what a hit's lookup returns |
| Rag.PurgeAllEffect | build/tools/rag.js:47-48 | after the lookups, exactly the stale rows of hit urls are gone and every other row is unchanged |
| Rag.SaveAllEffect | build/tools/rag.js:66-71 | after the writes, a url holds its last write stamped `now`, or else what it held before |
| Rag.LastWriteOfHits | build/tools/rag.js:47-87 | a url is written exactly when one of its hits missed the cache and extracted, and it is written with that extraction |
| Rag.LookupAll | build/tools/rag.js:47-48 | all cache lookups happen first, each against the table as it was before them |
| Rag.FetchOne | build/tools/rag.js:48-86 | a cached hit gives its cached page; a miss is scraped and extracted, and a successful extraction is written and gives the fresh page; otherwise the hit is dropped |
| Rag.FetchAll | build/tools/rag.js:48-86 | the second phase gives the present pages of `Acquired`, in hit order, the urls scraped and the writes made, and the table is the writes applied in order |
| Rag.AcquirePages | build/tools/rag.js:47-88 | the pages are the cached or extracted pages of the hits, in hit order, without the dropped ones; the table is the lookups' purge followed by the writes |
| Rag.FormatFields | build/tools/rag.js:89-111 | exactly the selected field is set; a content handle that decodes to the page url comes with preview mode and only then; a non-empty excerpt is kept in full mode only |
| Rag.FullModeIsBasic | src/tools/rag.ts:107-127 | in full mode a page is formatted as the earlier version formats it |
| Rag.Answer | build/tools/rag.js:32-118 | a failed search gives "Busca falhou: ..." with no results and no cache access; otherwise the formatted pages in hit order, with `totalResults` their number, at most the number of hits |
| Rag.AnswerBasic | src/tools/rag.ts:32-135 | the same for the earlier version, formatting without content modes |
| Rag.FullModeAnswersAlike | src/tools/rag.ts:107-127 | over any pages, full-mode formatting equals the earlier formatting |
| Rag.Rag | build/tools/rag.js:32-118 | the answer and the new table are `Answered` of the search's `WebOutcome`: a failed search gives its error and no cache access, otherwise the formatted pages acquired for its hits over the lookups' purge and the writes; at most `maxResults` results |
| BraveSearch.SearchWeb | src/lib/search.ts:54-70 | the earlier search succeeds exactly when the Brave page yields a card and `maxResults` is positive, with the first cards, between 1 and `maxResults` of them; no card is "Busca falhou: Brave: 0 resultados", and any thrown error comes back as "Busca falhou: " followed by its message |
| BraveSearch.FailuresArePrefixed | src/lib/search.ts:64-70 | every failure of the earlier search carries the "Busca falhou: " prefix |
| Rag.RagBasic | src/tools/rag.ts:1-135 | the answer and the new table are `AnsweredBasic` of the earlier Brave search (`BraveSearch.SearchWeb`), the `searchWeb` this version imports; an error answer has no results and leaves the table unchanged; otherwise at most `maxResults` results |
| Rag.EmptyBraveMessage | src/tools/rag.ts:47-57 | an empty Brave result page is answered with the doubled prefix "Busca falhou: Busca falhou: Brave: 0 resultados. Tente novamente em alguns minutos." |
| ScrapeTool.Selected | build/tools/scrape.js:31-41 | `selectedContent` is set exactly when a selector is given and matches an element with non-empty text, and it is that text |
| ScrapeTool.Scrape | build/tools/scrape.js:5-56 | the answer and the new table are `Outcome` of the old table |
| ScrapeTool.CacheHitSkipsNetwork | build/tools/scrape.js:7-17 | a live row and no selector give the cached page, whatever the network does, and leave the table unchanged |
| ScrapeTool.WritesOnlyOnMiss | build/tools/scrape.js:24-30 | the only write is of the fresh page, and only when no live row existed |
| ScrapeTool.FailureWritesNothing | build/tools/scrape.js:18-55 | a scrape, extraction or "Failed to extract content" error writes nothing |
| ScrapeTool.SelectorBypassesCache | build/tools/scrape.js:8-50 | with a selector the answer is never served from the cache |
| ScrapeTool.SuccessLeavesLiveRow | build/tools/scrape.js:7-30 | after a success the url has a live row: the existing one, which is not refreshed, or the fresh page |
| ScrapeTool.NoSelectorNoSelection | build/tools/scrape.js:31-41 | without a selector `selectedContent` is never set |
| Crawl.Accepted | src/tools/crawl.ts:47-62 | a recorded link starts with "http", and with `sameDomain` its hostname is the start host |
| Crawl.PageLinksAdmissible | src/tools/crawl.ts:45-64 | every link a page yields is admissible |
| Crawl.PageOfShape | src/tools/crawl.ts:66-89 | a record keeps at most 20 distinct admissible links found on its page; a failed fetch or a bad pattern gives the "Error" record |
| Crawl.AllLinksAdmissible | src/tools/crawl.ts:54-57 | every link in `allLinks` is admissible |
| Crawl.EnqueueKeepsFrontier | src/tools/crawl.ts:59-61 | queueing keeps the queue free of duplicates and visited urls, only appends, and queues exactly the unvisited links |
| Crawl.CollectLinks | src/tools/crawl.ts:45-64 | the callback loop gives the accepted links in order, appends them to `allLinks` and queues the new ones |
| Crawl.VisitPage | src/tools/crawl.ts:40-89 | one visit adds its page's record and its links |
| Crawl.VisitKeepsFrontier | src/tools/crawl.ts:34-89 | visiting the head of the queue keeps every frontier invariant |
| Crawl.PendingStep | src/tools/crawl.ts:34-61 | after visiting the head of the queue, the queue is the rest of it with the new unvisited links appended, which is again `Pending` of the visits |
| Crawl.VisitKeepsBreadthFirst | src/tools/crawl.ts:34-61 | visiting the head of the queue keeps the queue `Pending` and every visit the head of the queue of its time |
| Crawl.LinksFound | src/tools/crawl.ts:56-57 | the links found on any visit are among all the links found |
| Crawl.PageLinksFound | src/tools/crawl.ts:56-69 | every link a page record keeps is among all the links found |
| Crawl.CrawlDone | src/tools/crawl.ts:34-99 | when the loop stops, its state answers a finished crawl (`Crawled`) |
| Crawl.CrawlSite | src/tools/crawl.ts:25-99 | an invalid start url throws; otherwise (`Crawled`) at most `max(maxPages, 0)` distinct pages, the start url first, each recorded as `PageOf` its url and each the head of the queue (`Pending` of the earlier visits) when it was visited, so the crawl is breadth-first; `allLinks` is the deduplicated list of links found, and holds every link of every record; a crawl that stops under budget has emptied its queue and visited every link it found |

## Left out

- Strings.ToLower: folds ASCII letters only; JavaScript's full Unicode `toLowerCase` (for example of the Kelvin sign) is not modelled.
- String lengths and `substring` count Unicode scalar values, whereas JavaScript's `.length` and `substring` count UTF-16 code units. A character outside the Basic Multilingual Plane (an emoji, for example) counts as two units in JavaScript and one in the model. So on text holding such characters, `truncateForPreview` cuts at a different place, or the model returns whole a string that JavaScript truncates. Those cases are not modelled.
- Cache.DecodeContentHandle: the decoder is strict and returns `None` for malformed input. Node's `Buffer` decoding skips bad Base64 characters and replaces bad UTF-8 with U+FFFD instead of failing, so the model is weaker than the source for malformed handles.
- Clocks: each call takes one `now` in milliseconds. The ISO strings `searchedAt`, `crawledAt` and `timestamp` are left out, and `setTimeout` is not slept: each delay is recorded, in milliseconds, in the `waits` lists the search methods return.
- Rag.AcquirePages: the `Promise.all` fan-out is modelled as every cache lookup first, then every scrape and write in hit order. The cache writes of the real run happen in completion order. In the model, writes for the same url carry the same data and time, so the final table does not depend on that order.
- The summariser's prompt, its 8000-character input budget and the model download are part of the summariser oracle, not of this model.
- Search.SearchWeb: a provider call has no effect in the model beyond its answer and the delays it sleeps, so "a later provider is never called" is stated through the delays: the returned `waits` are exactly those of the providers up to the first success. The ghost `tried` list is the method's own record of the providers it called.
- Console diagnostics (`console.warn`, `console.error`) are left out.
- The earlier search's Playwright session on Brave (launching the browser, loading the page, the 3-second wait, reading the result cards) is an oracle: `RagBasic` takes what it yields, or the error it throws, as `found`.
- `encodeURIComponent`, `response.json()`, the DuckDuckGo result regex, cheerio, JSDOM, Readability, Turndown, Playwright and `new URL(...)` are oracles.
- `closeCache` and the SQLite connection lifecycle are left out. The table is a map owned by `ContentCache`.
- `maxResults` is a natural number. The core functions do not check it, but the rag tool's schema (src/index.ts:24-30) only admits integers from 1 to 10, and the model's `nat` covers those values. Negative or fractional values would only reach the core by a direct call, which the model does not cover.
- `maxPages` is an integer. A fractional `maxPages` is not modelled.
- The crawl's 10-second fetch timeout is part of the fetch oracle.
