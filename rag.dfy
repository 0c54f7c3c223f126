/** The RAG acquisition pipeline: search, then per hit a cache lookup or a scrape, an extraction
    and a cache write, then formatting of the surviving pages. Both versions of the tool are here:
    `Rag` (with content modes) and `RagBasic` (the earlier one without). */
module Rag {
  import opened Wrappers
  import opened Collections
  import opened Cache
  import opened ContentMode
  import Search
  import BraveSearch

  datatype OutputFormat = Markdown | Text | Html

  /** The options `scrapePage` is called with. */
  datatype ScrapeOptions = ScrapeOptions(javascript: bool, timeout: int)

  /** The fields of `extractContent`'s result that the pipeline reads. */
  datatype Extracted = Extracted(title: string, content: string, textContent: string, markdown: string, excerpt: string)

  /** The collaborators of the pipeline, as oracles: `scrape(url, options)` is the html of
      `scrapePage`, `extract(html, url)` is `extractContent` (`None` for its `null`), and
      `summarize` is the summariser used in summary mode. */
  datatype Collaborators = Collaborators(
    scrape: (string, ScrapeOptions) -> Result<string>,
    extract: (string, string) -> Result<Option<Extracted>>,
    summarize: string -> SummaryOutcome)

  /** A page acquired for one hit, before formatting. */
  datatype Page = Page(url: string, title: string, markdown: string, text: string, html: string, excerpt: string, fromCache: bool)

  /** One formatted result; `None` stands for a field that is not set. */
  datatype PageResult = PageResult(
    url: string, title: string,
    markdown: Option<string>, text: Option<string>, html: Option<string>,
    excerpt: Option<string>, contentHandle: Option<string>, fromCache: bool)

  /** The tool's answer (its `searchedAt` timestamp is left out). */
  datatype RagResult = RagResult(query: string, results: seq<PageResult>, totalResults: nat, error: Option<string>)

  /** A call of `saveToCache`. */
  datatype Write = Write(url: string, data: CacheData)

  function FromCache(url: string, e: Entry): Page {
    Page(url, e.title, e.markdown, e.content, e.content, "", true)
  }

  function FromExtraction(url: string, x: Extracted): Page {
    Page(url, x.title, x.markdown, x.textContent, x.content, x.excerpt, false)
  }

  function ToCacheData(x: Extracted): CacheData {
    CacheData(x.textContent, x.markdown, x.title)
  }

  /** What scraping and extracting `url` yields: `None` when either throws or extraction is `null`. */
  function Extraction(c: Collaborators, url: string, opts: ScrapeOptions): Option<Extracted> {
    match c.scrape(url, opts)
    case Failure(_) => None
    case Success(html) =>
      match c.extract(html, url)
      case Success(Some(x)) => Some(x)
      case _ => None
  }

  /** The page for one hit given its cache lookup; `None` is the hit that is dropped. */
  function Acquire(c: Collaborators, url: string, cached: Option<Entry>, opts: ScrapeOptions): Option<Page> {
    if cached.Some? then Some(FromCache(url, cached.value))
    else match Extraction(c, url, opts)
      case None => None
      case Some(x) => Some(FromExtraction(url, x))
  }

  /** The cache write one hit makes: only a miss whose extraction succeeds writes. */
  function WriteOf(c: Collaborators, url: string, cached: Option<Entry>, opts: ScrapeOptions): Option<Write> {
    if cached.Some? then None
    else match Extraction(c, url, opts)
      case None => None
      case Some(x) => Some(Write(url, ToCacheData(x)))
  }

  /** The cache lookup results for `hits`, all from the table `store` as it was before them. */
  function Lookups(store: Store, hits: seq<Search.Hit>, now: int): (r: seq<Option<Entry>>)
    ensures |r| == |hits|
  {
    seq(|hits|, i requires 0 <= i < |hits| => Read(store, hits[i].url, now))
  }

  /** `pages`, the result of the `map` over the hits, before `filter(Boolean)`. */
  function Acquired(c: Collaborators, hits: seq<Search.Hit>, cached: seq<Option<Entry>>, opts: ScrapeOptions): (r: seq<Option<Page>>)
    requires |cached| == |hits|
    ensures |r| == |hits|
  {
    seq(|hits|, i requires 0 <= i < |hits| => Acquire(c, hits[i].url, cached[i], opts))
  }

  function WritesOf(c: Collaborators, hits: seq<Search.Hit>, cached: seq<Option<Entry>>, opts: ScrapeOptions): (r: seq<Option<Write>>)
    requires |cached| == |hits|
    ensures |r| == |hits|
  {
    seq(|hits|, i requires 0 <= i < |hits| => WriteOf(c, hits[i].url, cached[i], opts))
  }

  /** The urls that are scraped: those that missed the cache. */
  function MissesOf(hits: seq<Search.Hit>, cached: seq<Option<Entry>>): (r: seq<Option<string>>)
    requires |cached| == |hits|
    ensures |r| == |hits|
  {
    seq(|hits|, i requires 0 <= i < |hits| => if cached[i].None? then Some(hits[i].url) else None)
  }

  /** The table after reading each hit's url in turn. */
  function PurgeAll(store: Store, hits: seq<Search.Hit>, now: int): Store
  {
    if hits == [] then store
    else AfterRead(PurgeAll(store, hits[..|hits| - 1], now), hits[|hits| - 1].url, now)
  }

  /** The table after the writes, in order. */
  function SaveAll(store: Store, writes: seq<Write>, now: int): Store
  {
    if writes == [] then store
    else
      var w := writes[|writes| - 1];
      Upsert(SaveAll(store, writes[..|writes| - 1], now), w.url, w.data, now)
  }

  lemma SaveAllSnoc(store: Store, writes: seq<Write>, w: Write, now: int)
    ensures SaveAll(store, writes + [w], now) == Upsert(SaveAll(store, writes, now), w.url, w.data, now)
  {
    assert (writes + [w])[..|writes|] == writes;
  }

  lemma SaveAllOptional(store: Store, writes: seq<Write>, w: Option<Write>, now: int)
    ensures SaveAll(store, writes + if w.Some? then [w.value] else [], now) ==
      if w.Some? then Upsert(SaveAll(store, writes, now), w.value.url, w.value.data, now) else SaveAll(store, writes, now)
  {
    if w.Some? {
      SaveAllSnoc(store, writes, w.value, now);
    } else {
      assert writes + [] == writes;
    }
  }

  /** The data of the last write to `url`, if any. */
  function LastWrite(writes: seq<Write>, url: string): Option<CacheData>
  {
    if writes == [] then None
    else if writes[|writes| - 1].url == url then Some(writes[|writes| - 1].data)
    else LastWrite(writes[..|writes| - 1], url)
  }

  /** A stale row stays deleted: reading after reads of other urls answers as the first read would. */
  lemma {:induction false} ReadAfterPurge(store: Store, hits: seq<Search.Hit>, url: string, now: int)
    ensures Read(PurgeAll(store, hits, now), url, now) == Read(store, url, now)
    decreases |hits|
  {
    if hits != [] {
      ReadAfterPurge(store, hits[..|hits| - 1], url, now);
      ReadAfterRead(PurgeAll(store, hits[..|hits| - 1], now), hits[|hits| - 1].url, url, now);
    }
  }

  /** The reads delete exactly the stale rows of the hit urls and keep every other row. */
  lemma {:induction false} PurgeAllEffect(store: Store, hits: seq<Search.Hit>, now: int)
    ensures forall u :: u in PurgeAll(store, hits, now) <==>
      u in store && (IsLive(store[u], now) || forall i :: 0 <= i < |hits| ==> hits[i].url != u)
    ensures forall u :: u in PurgeAll(store, hits, now) ==> PurgeAll(store, hits, now)[u] == store[u]
    decreases |hits|
  {
    if hits != [] {
      var init := hits[..|hits| - 1];
      PurgeAllEffect(store, init, now);
      forall u
        ensures u in PurgeAll(store, hits, now) <==>
          u in store && (IsLive(store[u], now) || forall i :: 0 <= i < |hits| ==> hits[i].url != u)
      {
        if u in store && !IsLive(store[u], now) && (forall i :: 0 <= i < |init| ==> init[i].url != u) {
          assert (forall i :: 0 <= i < |hits| ==> hits[i].url != u) <==> hits[|hits| - 1].url != u by {
            forall i | 0 <= i < |init| ensures hits[i] == init[i] { }
          }
        }
        if (exists i :: 0 <= i < |init| && init[i].url == u) {
          var i :| 0 <= i < |init| && init[i].url == u;
          assert hits[i].url == u;
        }
      }
    }
  }

  /** After the writes, a url holds its last write stamped `now`, or else whatever it held before. */
  lemma {:induction false} SaveAllEffect(store: Store, writes: seq<Write>, url: string, now: int)
    ensures LastWrite(writes, url).Some? ==>
      && url in SaveAll(store, writes, now)
      && SaveAll(store, writes, now)[url] == Entry(url, LastWrite(writes, url).value.content, LastWrite(writes, url).value.markdown, LastWrite(writes, url).value.title, now)
    ensures LastWrite(writes, url).None? ==>
      (url in SaveAll(store, writes, now) <==> url in store) &&
      (url in store ==> SaveAll(store, writes, now)[url] == store[url])
    decreases |writes|
  {
    if writes != [] {
      SaveAllEffect(store, writes[..|writes| - 1], url, now);
    }
  }

  lemma LastWriteSnoc(ws: seq<Option<Write>>, w: Option<Write>, url: string)
    ensures LastWrite(Somes(ws + [w]), url) ==
      if w.Some? && w.value.url == url then Some(w.value.data) else LastWrite(Somes(ws), url)
  {
    SomesSnoc(ws, w);
    if w.Some? {
      var r := Somes(ws + [w]);
      assert r == Somes(ws) + [w.value];
      assert r[|r| - 1] == w.value;
      assert r[..|r| - 1] == Somes(ws);
    } else {
      assert Somes(ws + [w]) == Somes(ws);
    }
  }

  /** Hit `i` writes `url`: it is a hit for `url` that missed the cache and extracted. */
  predicate WritesAt(c: Collaborators, hits: seq<Search.Hit>, cached: seq<Option<Entry>>, opts: ScrapeOptions, url: string, i: int)
    requires |cached| == |hits| && 0 <= i < |hits|
  {
    hits[i].url == url && cached[i].None? && Extraction(c, url, opts).Some?
  }

  lemma WriteOfMeaning(c: Collaborators, url: string, cached: Option<Entry>, opts: ScrapeOptions)
    ensures WriteOf(c, url, cached, opts).Some? <==> cached.None? && Extraction(c, url, opts).Some?
    ensures WriteOf(c, url, cached, opts).Some? ==>
      WriteOf(c, url, cached, opts).value == Write(url, ToCacheData(Extraction(c, url, opts).value))
  {
  }

  /** A url gets a write exactly when one of its hits missed the cache and extracted, and the
      write carries that extraction. */
  lemma {:induction false} LastWriteOfHits(c: Collaborators, hits: seq<Search.Hit>, cached: seq<Option<Entry>>, opts: ScrapeOptions, url: string)
    requires |cached| == |hits|
    ensures LastWrite(Somes(WritesOf(c, hits, cached, opts)), url).Some? <==>
      exists i :: 0 <= i < |hits| && WritesAt(c, hits, cached, opts, url, i)
    ensures LastWrite(Somes(WritesOf(c, hits, cached, opts)), url).Some? ==>
      LastWrite(Somes(WritesOf(c, hits, cached, opts)), url).value == ToCacheData(Extraction(c, url, opts).value)
    decreases |hits|
  {
    if hits != [] {
      var n := |hits| - 1;
      var init, cinit := hits[..n], cached[..n];
      LastWriteOfHits(c, init, cinit, opts, url);
      var w := WriteOf(c, hits[n].url, cached[n], opts);
      assert WritesOf(c, hits, cached, opts) == WritesOf(c, init, cinit, opts) + [w];
      LastWriteSnoc(WritesOf(c, init, cinit, opts), w, url);
      WriteOfMeaning(c, hits[n].url, cached[n], opts);
      assert (w.Some? && w.value.url == url) <==> WritesAt(c, hits, cached, opts, url, n);
      forall i | 0 <= i < n
        ensures WritesAt(c, hits, cached, opts, url, i) == WritesAt(c, init, cinit, opts, url, i)
      {
        assert hits[i] == init[i] && cached[i] == cinit[i];
      }
    }
  }

  /** The first phase of the `map` over the hits: every `getFromCache` call runs before the first
      `await`, so all lookups happen before any scrape. */
  method LookupAll(cache: ContentCache, hits: seq<Search.Hit>, now: int) returns (cached: seq<Option<Entry>>)
    requires cache.Valid()
    modifies cache
    ensures cache.Valid()
    ensures cached == Lookups(old(cache.entries), hits, now)
    ensures cache.entries == PurgeAll(old(cache.entries), hits, now)
  {
    ghost var before := cache.entries;
    ghost var all := Lookups(before, hits, now);
    cached := [];
    var i := 0;
    while i < |hits|
      invariant 0 <= i <= |hits|
      invariant cache.Valid()
      invariant cached == all[..i]
      invariant cache.entries == PurgeAll(before, hits[..i], now)
    {
      ReadAfterPurge(before, hits[..i], hits[i].url, now);
      var entry := cache.Get(hits[i].url, now);
      assert hits[..i + 1][..i] == hits[..i];
      assert all[..i + 1] == all[..i] + [all[i]];
      cached := cached + [entry];
      i := i + 1;
    }
    assert hits[..i] == hits;
  }

  /** One hit of the second phase: a hit found in the cache is used as it is; a miss is scraped
      and extracted, and a successful extraction is written to the cache. */
  method FetchOne(cache: ContentCache, url: string, cached: Option<Entry>, c: Collaborators, opts: ScrapeOptions, now: int)
    returns (page: Option<Page>, ghost write: Option<Write>)
    requires cache.Valid()
    modifies cache
    ensures cache.Valid()
    ensures page == Acquire(c, url, cached, opts) && write == WriteOf(c, url, cached, opts)
    ensures cache.entries == if write.Some? then Upsert(old(cache.entries), url, write.value.data, now) else old(cache.entries)
  {
    if cached.Some? {
      return Some(FromCache(url, cached.value)), None;
    }
    page, write := None, None;
    var html := c.scrape(url, opts);
    if html.Success? {
      var extracted := c.extract(html.value, url);
      if extracted.Success? && extracted.value.Some? {
        var x := extracted.value.value;
        cache.Save(url, ToCacheData(x), now);
        write := Some(Write(url, ToCacheData(x)));
        page := Some(FromExtraction(url, x));
      }
    }
  }

  /** After the first `j` hits of the second phase: the pages acquired, the urls scraped and the
      writes made so far. */
  ghost predicate FetchedUpTo(c: Collaborators, hits: seq<Search.Hit>, cached: seq<Option<Entry>>, opts: ScrapeOptions, j: nat,
                              pages: seq<Page>, scraped: seq<string>, saved: seq<Write>)
    requires |cached| == |hits| && j <= |hits|
  {
    && pages == Somes(Acquired(c, hits, cached, opts)[..j])
    && scraped == Somes(MissesOf(hits, cached)[..j])
    && saved == Somes(WritesOf(c, hits, cached, opts)[..j])
  }

  lemma FetchStep(c: Collaborators, hits: seq<Search.Hit>, cached: seq<Option<Entry>>, opts: ScrapeOptions, j: nat,
                  pages: seq<Page>, scraped: seq<string>, saved: seq<Write>)
    requires |cached| == |hits| && j < |hits| && FetchedUpTo(c, hits, cached, opts, j, pages, scraped, saved)
    ensures var page := Acquire(c, hits[j].url, cached[j], opts); var write := WriteOf(c, hits[j].url, cached[j], opts);
      FetchedUpTo(c, hits, cached, opts, j + 1,
                  pages + (if page.Some? then [page.value] else []),
                  scraped + (if cached[j].None? then [hits[j].url] else []),
                  saved + (if write.Some? then [write.value] else []))
  {
    var acquired, misses, writes := Acquired(c, hits, cached, opts), MissesOf(hits, cached), WritesOf(c, hits, cached, opts);
    SomesPrefixStep(acquired, j);
    SomesPrefixStep(misses, j);
    SomesPrefixStep(writes, j);
  }

  /** The second phase: each hit that missed is scraped, extracted and written, in turn. */
  method FetchAll(cache: ContentCache, hits: seq<Search.Hit>, cached: seq<Option<Entry>>, c: Collaborators, opts: ScrapeOptions, now: int)
    returns (pages: seq<Page>, ghost scraped: seq<string>, ghost saved: seq<Write>)
    requires cache.Valid() && |cached| == |hits|
    modifies cache
    ensures cache.Valid()
    ensures pages == Somes(Acquired(c, hits, cached, opts))
    ensures scraped == Somes(MissesOf(hits, cached))
    ensures saved == Somes(WritesOf(c, hits, cached, opts))
    ensures cache.entries == SaveAll(old(cache.entries), saved, now)
  {
    ghost var start := cache.entries;
    pages, scraped, saved := [], [], [];
    var j := 0;
    while j < |hits|
      invariant 0 <= j <= |hits|
      invariant cache.Valid()
      invariant FetchedUpTo(c, hits, cached, opts, j, pages, scraped, saved)
      invariant cache.entries == SaveAll(start, saved, now)
    {
      FetchStep(c, hits, cached, opts, j, pages, scraped, saved);
      var page;
      ghost var write;
      page, write := FetchOne(cache, hits[j].url, cached[j], c, opts, now);
      SaveAllOptional(start, saved, write, now);
      pages := pages + if page.Some? then [page.value] else [];
      scraped := scraped + if cached[j].None? then [hits[j].url] else [];
      saved := saved + if write.Some? then [write.value] else [];
      j := j + 1;
    }
    assert Acquired(c, hits, cached, opts)[..j] == Acquired(c, hits, cached, opts);
    assert MissesOf(hits, cached)[..j] == MissesOf(hits, cached);
    assert WritesOf(c, hits, cached, opts)[..j] == WritesOf(c, hits, cached, opts);
  }

  /** The `map` over the hits. `scraped` lists the urls scraped and `saved` the writes made, in order. */
  method AcquirePages(cache: ContentCache, hits: seq<Search.Hit>, c: Collaborators, opts: ScrapeOptions, now: int)
    returns (pages: seq<Page>, ghost scraped: seq<string>, ghost saved: seq<Write>)
    requires cache.Valid()
    modifies cache
    ensures cache.Valid()
    ensures var cached := Lookups(old(cache.entries), hits, now);
      && pages == Somes(Acquired(c, hits, cached, opts))
      && scraped == Somes(MissesOf(hits, cached))
      && saved == Somes(WritesOf(c, hits, cached, opts))
      && cache.entries == SaveAll(PurgeAll(old(cache.entries), hits, now), saved, now)
  {
    var cached := LookupAll(cache, hits, now);
    pages, scraped, saved := FetchAll(cache, hits, cached, c, opts, now);
  }

  /** The formatting step of `rag`: the field named by `format`, run through the content mode, a
      content handle in preview mode, and the excerpt in full mode when there is one. */
  function Format(p: Page, format: OutputFormat, mode: Mode, summarize: string -> SummaryOutcome): PageResult {
    PageResult(
      p.url, p.title,
      if format == Markdown then Some(ApplyContentMode(p.markdown, mode, summarize)) else None,
      if format == Text then Some(ApplyContentMode(p.text, mode, summarize)) else None,
      if format == Html then Some(ApplyContentMode(p.html, mode, summarize)) else None,
      if p.excerpt != "" && mode == Full then Some(p.excerpt) else None,
      if mode == Preview then Some(GenerateContentHandle(p.url)) else None,
      p.fromCache)
  }

  /** The formatting step of the earlier `rag`: the field named by `format`, and the excerpt when
      there is one. */
  function FormatBasic(p: Page, format: OutputFormat): PageResult {
    PageResult(
      p.url, p.title,
      if format == Markdown then Some(p.markdown) else None,
      if format == Text then Some(p.text) else None,
      if format == Html then Some(p.html) else None,
      if p.excerpt != "" then Some(p.excerpt) else None,
      None,
      p.fromCache)
  }

  /** Exactly the selected field is set; a handle, which decodes back to the page's url, comes with
      preview mode and only then; an excerpt comes only in full mode and only when non-empty. */
  lemma FormatFields(p: Page, format: OutputFormat, mode: Mode, summarize: string -> SummaryOutcome)
    ensures var r := Format(p, format, mode, summarize);
      && r.url == p.url && r.title == p.title && r.fromCache == p.fromCache
      && (r.markdown.Some? <==> format == Markdown)
      && (r.text.Some? <==> format == Text)
      && (r.html.Some? <==> format == Html)
      && (r.contentHandle.Some? <==> mode == Preview)
      && (r.contentHandle.Some? ==> DecodeContentHandle(r.contentHandle.value) == Some(p.url))
      && (r.excerpt.Some? <==> mode == Full && p.excerpt != "")
      && (r.excerpt.Some? ==> r.excerpt.value == p.excerpt)
  {
    HandleRoundTrip(p.url);
  }

  /** In full mode the content-mode formatting is exactly the earlier formatting. */
  lemma FullModeIsBasic(p: Page, format: OutputFormat, summarize: string -> SummaryOutcome)
    ensures Format(p, format, Full, summarize) == FormatBasic(p, format)
  {
  }

  function SearchFailed(query: string, e: Error): RagResult {
    RagResult(query, [], 0, Some("Busca falhou: " + e.message.GetOr("undefined") + ". Tente novamente em alguns minutos."))
  }

  /** What `rag` leaves once its `searchWeb` call has given `search`: the answer `r` and the table
      `entries`, from the table `before`. A failed search answers with the error and touches no row;
      otherwise the present pages, formatted in hit order, over the lookups' purge and the writes. */
  ghost predicate Answered(before: Store, entries: Store, r: RagResult, query: string, search: Result<seq<Search.Hit>>,
                           format: OutputFormat, mode: Mode, c: Collaborators, opts: ScrapeOptions, now: int)
  {
    if search.Failure? then r == SearchFailed(query, search.error) && entries == before
    else
      var cached := Lookups(before, search.value, now);
      var pages := Somes(Acquired(c, search.value, cached, opts));
      && r == RagResult(query, seq(|pages|, i requires 0 <= i < |pages| => Format(pages[i], format, mode, c.summarize)), |pages|, None)
      && entries == SaveAll(PurgeAll(before, search.value, now), Somes(WritesOf(c, search.value, cached, opts)), now)
  }

  /** The same for the earlier `rag`, which formats without content modes. */
  ghost predicate AnsweredBasic(before: Store, entries: Store, r: RagResult, query: string, search: Result<seq<Search.Hit>>,
                                format: OutputFormat, c: Collaborators, opts: ScrapeOptions, now: int)
  {
    if search.Failure? then r == SearchFailed(query, search.error) && entries == before
    else
      var cached := Lookups(before, search.value, now);
      var pages := Somes(Acquired(c, search.value, cached, opts));
      && r == RagResult(query, seq(|pages|, i requires 0 <= i < |pages| => FormatBasic(pages[i], format)), |pages|, None)
      && entries == SaveAll(PurgeAll(before, search.value, now), Somes(WritesOf(c, search.value, cached, opts)), now)
  }

  /** `rag` after its `searchWeb` call, whose outcome is `search`. */
  method Answer(cache: ContentCache, query: string, search: Result<seq<Search.Hit>>, format: OutputFormat, mode: Mode,
                c: Collaborators, opts: ScrapeOptions, now: int)
    returns (r: RagResult, ghost scraped: seq<string>, ghost saved: seq<Write>)
    requires cache.Valid()
    modifies cache
    ensures cache.Valid()
    ensures Answered(old(cache.entries), cache.entries, r, query, search, format, mode, c, opts, now)
    ensures search.Failure? ==> r == SearchFailed(query, search.error) && cache.entries == old(cache.entries) && scraped == [] && saved == []
    ensures search.Success? ==> var cached := Lookups(old(cache.entries), search.value, now);
      var pages := Somes(Acquired(c, search.value, cached, opts));
      && r.query == query && r.error == None
      && r.results == seq(|pages|, i requires 0 <= i < |pages| => Format(pages[i], format, mode, c.summarize))
      && r.totalResults == |r.results| <= |search.value|
      && scraped == Somes(MissesOf(search.value, cached))
      && saved == Somes(WritesOf(c, search.value, cached, opts))
      && cache.entries == SaveAll(PurgeAll(old(cache.entries), search.value, now), saved, now)
  {
    if search.Failure? {
      return SearchFailed(query, search.error), [], [];
    }
    var pages;
    pages, scraped, saved := AcquirePages(cache, search.value, c, opts, now);
    var results := seq(|pages|, i requires 0 <= i < |pages| => Format(pages[i], format, mode, c.summarize));
    r := RagResult(query, results, |pages|, None);
  }

  /** The earlier `rag` after its `searchWeb` call. */
  method AnswerBasic(cache: ContentCache, query: string, search: Result<seq<Search.Hit>>, format: OutputFormat,
                     c: Collaborators, opts: ScrapeOptions, now: int)
    returns (r: RagResult, ghost scraped: seq<string>, ghost saved: seq<Write>)
    requires cache.Valid()
    modifies cache
    ensures cache.Valid()
    ensures AnsweredBasic(old(cache.entries), cache.entries, r, query, search, format, c, opts, now)
    ensures search.Failure? ==> r == SearchFailed(query, search.error) && cache.entries == old(cache.entries) && scraped == [] && saved == []
    ensures search.Success? ==> var cached := Lookups(old(cache.entries), search.value, now);
      var pages := Somes(Acquired(c, search.value, cached, opts));
      && r.query == query && r.error == None
      && r.results == seq(|pages|, i requires 0 <= i < |pages| => FormatBasic(pages[i], format))
      && r.totalResults == |r.results| <= |search.value|
      && scraped == Somes(MissesOf(search.value, cached))
      && saved == Somes(WritesOf(c, search.value, cached, opts))
      && cache.entries == SaveAll(PurgeAll(old(cache.entries), search.value, now), saved, now)
  {
    if search.Failure? {
      return SearchFailed(query, search.error), [], [];
    }
    var pages;
    pages, scraped, saved := AcquirePages(cache, search.value, c, opts, now);
    var results := seq(|pages|, i requires 0 <= i < |pages| => FormatBasic(pages[i], format));
    r := RagResult(query, results, |pages|, None);
  }

  /** Given the same collaborators and the same table, both versions in full mode answer alike. */
  lemma FullModeAnswersAlike(pages: seq<Page>, format: OutputFormat, summarize: string -> SummaryOutcome)
    ensures seq(|pages|, i requires 0 <= i < |pages| => Format(pages[i], format, Full, summarize)) ==
            seq(|pages|, i requires 0 <= i < |pages| => FormatBasic(pages[i], format))
  {
    forall i | 0 <= i < |pages|
      ensures Format(pages[i], format, Full, summarize) == FormatBasic(pages[i], format)
    {
      FullModeIsBasic(pages[i], format, summarize);
    }
  }

  /** `rag(params)`: search, then answer. */
  method Rag(cache: ContentCache, net: Search.Network, apiKey: Option<string>, query: string, maxResults: nat,
             format: OutputFormat, mode: Mode, c: Collaborators, opts: ScrapeOptions, now: int)
    returns (r: RagResult)
    requires cache.Valid()
    modifies cache
    ensures cache.Valid() && r.query == query
    ensures Answered(old(cache.entries), cache.entries, r, query, Search.WebOutcome(net, apiKey, query, maxResults), format, mode, c, opts, now)
    ensures r.error.Some? ==> r.results == [] && r.totalResults == 0 && cache.entries == old(cache.entries)
    ensures r.error.None? ==> r.totalResults == |r.results| <= maxResults
  {
    var search, waits;
    ghost var tried, scraped, saved;
    search, waits, tried := Search.SearchWeb(net, apiKey, query, maxResults);
    Search.WebOutcomeBound(net, apiKey, query, maxResults);
    r, scraped, saved := Answer(cache, query, search, format, mode, c, opts, now);
  }

  /** The earlier `rag(params)`: the earlier Brave search, then the answer without content modes.
      `found` is what the browser read off the Brave result page, or the error it threw. */
  method RagBasic(cache: ContentCache, found: Result<seq<Search.Hit>>, query: string, maxResults: nat,
                  format: OutputFormat, c: Collaborators, opts: ScrapeOptions, now: int)
    returns (r: RagResult)
    requires cache.Valid()
    modifies cache
    ensures cache.Valid() && r.query == query
    ensures AnsweredBasic(old(cache.entries), cache.entries, r, query, BraveSearch.SearchWeb(found, maxResults), format, c, opts, now)
    ensures r.error.Some? ==> r.results == [] && r.totalResults == 0 && cache.entries == old(cache.entries)
    ensures r.error.None? ==> r.totalResults == |r.results| <= maxResults
  {
    var search := BraveSearch.SearchWeb(found, maxResults);
    ghost var scraped, saved;
    r, scraped, saved := AnswerBasic(cache, query, search, format, c, opts, now);
  }

  /** The earlier search's own prefix and the earlier `rag`'s prefix stack: an empty Brave result
      page is answered with "Busca falhou: Busca falhou: Brave: 0 resultados. …". */
  lemma EmptyBraveMessage(query: string, maxResults: nat)
    ensures var search := BraveSearch.SearchWeb(Success([]), maxResults);
      search.Failure? &&
      SearchFailed(query, search.error).error == Some("Busca falhou: " + "Busca falhou: Brave: 0 resultados" + ". Tente novamente em alguns minutos.")
  {
    var search := BraveSearch.SearchWeb(Success([]), maxResults);
    assert search.error.message == Some("Busca falhou: Brave: 0 resultados");
  }
}
