/** The single-url `scrape` tool: a cached page unless a selector is given, otherwise a scrape and
    an extraction, a cache write only when no live row existed, and an optional selector lookup. */
module ScrapeTool {
  import opened Wrappers
  import opened Cache
  import Rag

  /** What `document.querySelector(selector)` on the scraped page gives: no element, an element
      with its `textContent`, or an exception (an invalid selector, say). */
  datatype SelectOutcome = NoMatch | Matched(textContent: string) | SelectorThrew

  /** The tool's answer; `timestamp` is the millisecond time its ISO string is made from. */
  datatype ScrapeResult = ScrapeResult(
    url: string, title: string, content: string, markdown: string,
    selectedContent: Option<string>, fromCache: bool, timestamp: int)

  /** A selector counts only when it is present and non-empty (JavaScript truthiness). */
  predicate HasSelector(selector: Option<string>) {
    selector.Some? && selector.value != ""
  }

  /** `selectedContent`: the matched element's text, undefined when there is no selector, the
      lookup throws, nothing matches, or the text is empty. */
  function Selected(select: (string, string, string) -> SelectOutcome, html: string, url: string, selector: Option<string>): (r: Option<string>)
    ensures r.Some? ==> HasSelector(selector) && select(html, selector.value, url) == Matched(r.value) && r.value != ""
    ensures HasSelector(selector) && select(html, selector.value, url).Matched? && select(html, selector.value, url).textContent != "" ==> r.Some?
  {
    if !HasSelector(selector) then None
    else match select(html, selector.value, url)
      case Matched(t) => if t != "" then Some(t) else None
      case _ => None
  }

  function CachedResult(url: string, e: Entry): ScrapeResult {
    ScrapeResult(url, e.title, e.content, e.markdown, None, true, e.cachedAt)
  }

  /** The answer and the new table of `scrape(params)` on table `store` at time `now`. */
  function Outcome(store: Store, url: string, selector: Option<string>, c: Rag.Collaborators,
                   select: (string, string, string) -> SelectOutcome, opts: Rag.ScrapeOptions, now: int): (Result<ScrapeResult>, Store)
  {
    var cached := Read(store, url, now);
    var purged := AfterRead(store, url, now);
    if cached.Some? && !HasSelector(selector) then (Success(CachedResult(url, cached.value)), purged)
    else match c.scrape(url, opts)
      case Failure(e) => (Failure(e), purged)
      case Success(html) =>
        match c.extract(html, url)
        case Failure(e) => (Failure(e), purged)
        case Success(None) => (Fail("Failed to extract content"), purged)
        case Success(Some(x)) =>
          (Success(ScrapeResult(url, x.title, x.textContent, x.markdown, Selected(select, html, url, selector), false, now)),
           if cached.None? then Upsert(purged, url, Rag.ToCacheData(x), now) else purged)
  }

  /** `scrape(params)` against the cache object. */
  method Scrape(cache: ContentCache, url: string, selector: Option<string>, c: Rag.Collaborators,
                select: (string, string, string) -> SelectOutcome, opts: Rag.ScrapeOptions, now: int)
    returns (r: Result<ScrapeResult>)
    requires cache.Valid()
    modifies cache
    ensures cache.Valid()
    ensures (r, cache.entries) == Outcome(old(cache.entries), url, selector, c, select, opts, now)
  {
    var cached := cache.Get(url, now);
    if cached.Some? && !HasSelector(selector) {
      return Success(CachedResult(url, cached.value));
    }
    var html := c.scrape(url, opts);
    if html.Failure? {
      return Failure(html.error);
    }
    var extracted := c.extract(html.value, url);
    if extracted.Failure? {
      return Failure(extracted.error);
    }
    if extracted.value.None? {
      return Fail("Failed to extract content");
    }
    var x := extracted.value.value;
    if cached.None? {
      cache.Save(url, Rag.ToCacheData(x), now);
    }
    var selectedContent: Option<string> := None;
    if HasSelector(selector) {
      var found := select(html.value, selector.value, url);
      if found.Matched? && found.textContent != "" {
        selectedContent := Some(found.textContent);
      }
    }
    r := Success(ScrapeResult(url, x.title, x.textContent, x.markdown, selectedContent, false, now));
  }

  /** A live row and no selector: the answer is the row, whatever the network would do, and the table is unchanged. */
  lemma CacheHitSkipsNetwork(store: Store, url: string, selector: Option<string>, c1: Rag.Collaborators, c2: Rag.Collaborators,
                             select1: (string, string, string) -> SelectOutcome, select2: (string, string, string) -> SelectOutcome,
                             opts: Rag.ScrapeOptions, now: int)
    requires Read(store, url, now).Some? && !HasSelector(selector)
    ensures Outcome(store, url, selector, c1, select1, opts, now) == Outcome(store, url, selector, c2, select2, opts, now)
    ensures Outcome(store, url, selector, c1, select1, opts, now).1 == store
    ensures Outcome(store, url, selector, c1, select1, opts, now).0 == Success(CachedResult(url, store[url]))
  {
  }

  /** The table changes by more than the read's purge only by a write of `url`, and only when no live row existed. */
  lemma WritesOnlyOnMiss(store: Store, url: string, selector: Option<string>, c: Rag.Collaborators,
                         select: (string, string, string) -> SelectOutcome, opts: Rag.ScrapeOptions, now: int)
    ensures var (r, after) := Outcome(store, url, selector, c, select, opts, now);
      after == AfterRead(store, url, now) ||
      (Read(store, url, now).None? && r.Success? &&
       after == Upsert(AfterRead(store, url, now), url, CacheData(r.value.content, r.value.markdown, r.value.title), now))
  {
  }

  /** A failed scrape leaves the table as the read left it. */
  lemma FailureWritesNothing(store: Store, url: string, selector: Option<string>, c: Rag.Collaborators,
                             select: (string, string, string) -> SelectOutcome, opts: Rag.ScrapeOptions, now: int)
    ensures Outcome(store, url, selector, c, select, opts, now).0.Failure? ==>
      Outcome(store, url, selector, c, select, opts, now).1 == AfterRead(store, url, now)
  {
  }

  /** A selector always leads to a fresh scrape: its answer never comes from the cache. */
  lemma SelectorBypassesCache(store: Store, url: string, selector: Option<string>, c: Rag.Collaborators,
                              select: (string, string, string) -> SelectOutcome, opts: Rag.ScrapeOptions, now: int)
    requires HasSelector(selector)
    ensures var r := Outcome(store, url, selector, c, select, opts, now).0;
      r.Success? ==> !r.value.fromCache && r.value.timestamp == now
  {
  }

  /** After any successful call the url has a live row; a fresh answer is written through to it
      unless a live row already existed, which a selector request does not refresh. */
  lemma SuccessLeavesLiveRow(store: Store, url: string, selector: Option<string>, c: Rag.Collaborators,
                             select: (string, string, string) -> SelectOutcome, opts: Rag.ScrapeOptions, now: int)
    ensures var (r, after) := Outcome(store, url, selector, c, select, opts, now);
      r.Success? ==>
        && Read(after, url, now).Some?
        && (Read(store, url, now).Some? ==> Read(after, url, now) == Read(store, url, now))
        && (Read(store, url, now).None? ==>
              Read(after, url, now) == Some(Entry(url, r.value.content, r.value.markdown, r.value.title, now)))
  {
  }

  /** When there is no selector, `selectedContent` is never set. */
  lemma NoSelectorNoSelection(store: Store, url: string, selector: Option<string>, c: Rag.Collaborators,
                              select: (string, string, string) -> SelectOutcome, opts: Rag.ScrapeOptions, now: int)
    requires !HasSelector(selector)
    ensures var r := Outcome(store, url, selector, c, select, opts, now).0;
      r.Success? ==> r.value.selectedContent == None
  {
  }
}
