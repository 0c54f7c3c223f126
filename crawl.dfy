/** `crawlSite`: a breadth-first crawl from a start url, bounded by a page budget, over a queue
    `toVisit` and a set `visited`, accumulating one record per visited page and every link found. */
module Crawl {
  import opened Wrappers
  import opened Strings
  import opened Collections

  /** The most links a page record keeps. */
  const MaxPageLinks: nat := 20

  /** The environment of the crawl, as oracles:
      `fetch(url)` the response text of `fetch(url)` (or what it throws),
      `title(html)` the trimmed text of `<title>`, `hrefs(html)` the `href` values of the `a[href]`
      elements in document order, `resolve(href, base)` the `href` of `new URL(href, base)`,
      `hostname(u)` the `hostname` of `new URL(u)`, `bodyText(html)` the text of `<body>`, and
      `matchAll(pattern, text)` the `text.match(new RegExp(pattern, "gi"))` (`None` for `null`). */
  datatype Oracles = Oracles(
    fetch: string -> Result<string>,
    title: string -> string,
    hrefs: string -> seq<string>,
    resolve: (string, string) -> Result<string>,
    hostname: string -> Result<string>,
    bodyText: string -> string,
    matchAll: (string, string) -> Result<Option<seq<string>>>)

  /** What the crawl asks for: `sameDomain` keeps only links on the start url's host, and a
      present, non-empty `extractPattern` collects the page text's matches. */
  datatype Params = Params(startUrl: string, maxPages: int, sameDomain: bool, extractPattern: Option<string>)

  datatype PageData = PageData(url: string, title: string, links: seq<string>, extractedData: Option<seq<string>>)

  /** The crawl's answer (its `crawledAt` timestamp is left out). */
  datatype CrawlResult = CrawlResult(startUrl: string, pagesVisited: nat, pages: seq<PageData>, allLinks: seq<string>)

  /** The most pages a crawl visits: `maxPages`, or none when it is not positive. */
  function Budget(p: Params): nat {
    if p.maxPages < 0 then 0 else p.maxPages
  }

  predicate HasPattern(p: Params) {
    p.extractPattern.Some? && p.extractPattern.value != ""
  }

  /** `xs.slice(0, n)` */
  function Take(xs: seq<string>, n: nat): (r: seq<string>)
    ensures |r| <= n && |r| <= |xs|
    ensures forall i :: 0 <= i < |r| ==> r[i] == xs[i]
  {
    if |xs| <= n then xs else xs[..n]
  }

  /** The record of a page whose processing threw. */
  function ErrorPage(url: string, e: Error): PageData {
    PageData(url, "Error", [], Some(["Error: " + e.message.GetOr("Unknown")]))
  }

  /** The absolute url one `href` contributes, or `None` when the callback returns early or throws. */
  function Accepted(o: Oracles, p: Params, startDomain: string, base: string, href: string): (r: Option<string>)
    ensures r.Some? ==> StartsWith(r.value, "http")
    ensures r.Some? && p.sameDomain ==> o.hostname(r.value) == Success(startDomain)
  {
    if href == "" then None
    else match o.resolve(href, base)
      case Failure(_) => None
      case Success(absoluteUrl) =>
        match o.hostname(absoluteUrl)
        case Failure(_) => None
        case Success(linkDomain) =>
          if p.sameDomain && linkDomain != startDomain then None
          else if StartsWith(absoluteUrl, "http") then Some(absoluteUrl)
          else None
  }

  function AcceptedAll(o: Oracles, p: Params, startDomain: string, base: string, hrefs: seq<string>): (r: seq<Option<string>>)
    ensures |r| == |hrefs|
  {
    seq(|hrefs|, i requires 0 <= i < |hrefs| => Accepted(o, p, startDomain, base, hrefs[i]))
  }

  /** A link the crawl may record: an http(s) url, on the start host when `sameDomain` is set. */
  predicate Admissible(o: Oracles, p: Params, startDomain: string, link: string) {
    StartsWith(link, "http") && (p.sameDomain ==> o.hostname(link) == Success(startDomain))
  }

  /** `pageLinks` of a fetched page: the accepted urls of its `href`s, in document order. */
  function PageLinks(o: Oracles, p: Params, startDomain: string, base: string, html: string): seq<string> {
    Somes(AcceptedAll(o, p, startDomain, base, o.hrefs(html)))
  }

  lemma PageLinksAdmissible(o: Oracles, p: Params, startDomain: string, base: string, html: string)
    ensures forall l :: l in PageLinks(o, p, startDomain, base, html) ==> Admissible(o, p, startDomain, l)
  {
    var acc := AcceptedAll(o, p, startDomain, base, o.hrefs(html));
    forall l | l in Somes(acc)
      ensures Admissible(o, p, startDomain, l)
    {
      var k :| 0 <= k < |Somes(acc)| && Somes(acc)[k] == l;
      SomesMembers(acc, k);
      var i :| 0 <= i < |acc| && acc[i] == Some(l);
      assert Accepted(o, p, startDomain, base, o.hrefs(html)[i]) == Some(l);
    }
  }

  /** The links visiting `url` adds to `allLinks`: none when the fetch throws. */
  function LinksOf(o: Oracles, p: Params, startDomain: string, url: string): seq<string> {
    match o.fetch(url)
    case Failure(_) => []
    case Success(html) => PageLinks(o, p, startDomain, url, html)
  }

  /** The record visiting `url` adds to `pages`. A pattern that does not compile throws after the
      links were already collected, so that page's record is an error record. */
  function PageOf(o: Oracles, p: Params, startDomain: string, url: string): PageData {
    match o.fetch(url)
    case Failure(e) => ErrorPage(url, e)
    case Success(html) =>
      var page := PageData(url, o.title(html), Take(Dedup(PageLinks(o, p, startDomain, url, html)), MaxPageLinks), None);
      if !HasPattern(p) then page
      else match o.matchAll(p.extractPattern.value, o.bodyText(html))
        case Failure(e) => ErrorPage(url, e)
        case Success(None) => page
        case Success(Some(matches)) => page.(extractedData := Some(Dedup(matches)))
  }

  /** The links a sequence of visits adds to `allLinks`, in order. */
  function AllLinksOf(o: Oracles, p: Params, startDomain: string, urls: seq<string>): seq<string> {
    if urls == [] then []
    else AllLinksOf(o, p, startDomain, urls[..|urls| - 1]) + LinksOf(o, p, startDomain, urls[|urls| - 1])
  }

  /** Every page record is about its url, keeps at most twenty distinct links, each admissible and
      among the links the visit found; the record is an error record, with one "Error: " entry and
      no links, exactly when the fetch or the pattern threw. */
  lemma PageOfShape(o: Oracles, p: Params, startDomain: string, url: string)
    ensures var page := PageOf(o, p, startDomain, url);
      && page.url == url
      && NoDuplicates(page.links) && |page.links| <= MaxPageLinks
      && (forall l :: l in page.links ==> l in LinksOf(o, p, startDomain, url) && Admissible(o, p, startDomain, l))
      && (page.extractedData.Some? ==> NoDuplicates(page.extractedData.value))
      && (o.fetch(url).Failure? ==> page == ErrorPage(url, o.fetch(url).error))
      && (o.fetch(url).Success? && HasPattern(p) && o.matchAll(p.extractPattern.value, o.bodyText(o.fetch(url).value)).Failure? ==>
            page == ErrorPage(url, o.matchAll(p.extractPattern.value, o.bodyText(o.fetch(url).value)).error))
  {
    if o.fetch(url).Success? {
      var html := o.fetch(url).value;
      var links := PageLinks(o, p, startDomain, url, html);
      PageLinksAdmissible(o, p, startDomain, url, html);
      var kept := Take(Dedup(links), MaxPageLinks);
      forall i, j | 0 <= i < j < |kept| ensures kept[i] != kept[j] {
        assert kept[i] == Dedup(links)[i] && kept[j] == Dedup(links)[j];
      }
      forall l | l in kept ensures l in links {
        var i :| 0 <= i < |kept| && kept[i] == l;
        assert Dedup(links)[i] == l;
      }
    }
  }

  lemma {:induction false} AllLinksAdmissible(o: Oracles, p: Params, startDomain: string, urls: seq<string>)
    ensures forall l :: l in AllLinksOf(o, p, startDomain, urls) ==> Admissible(o, p, startDomain, l)
    decreases |urls|
  {
    if urls != [] {
      AllLinksAdmissible(o, p, startDomain, urls[..|urls| - 1]);
      var url := urls[|urls| - 1];
      if o.fetch(url).Success? {
        PageLinksAdmissible(o, p, startDomain, url, o.fetch(url).value);
      }
    }
  }

  /** `toVisit` after the callbacks of one page: each link not already visited or queued is
      appended, in order. */
  function Enqueue(toVisit: seq<string>, visited: set<string>, links: seq<string>): seq<string> {
    if links == [] then toVisit
    else
      var q := Enqueue(toVisit, visited, links[..|links| - 1]);
      var x := links[|links| - 1];
      if x !in visited && x !in q then q + [x] else q
  }

  lemma EnqueueSnoc(toVisit: seq<string>, visited: set<string>, links: seq<string>, x: string)
    ensures var q := Enqueue(toVisit, visited, links);
      Enqueue(toVisit, visited, links + [x]) == if x !in visited && x !in q then q + [x] else q
  {
    assert (links + [x])[..|links|] == links;
  }

  /** Enqueueing keeps the queue free of duplicates and of visited urls, only appends, and queues
      exactly the unvisited links. */
  lemma {:induction false} EnqueueKeepsFrontier(toVisit: seq<string>, visited: set<string>, links: seq<string>)
    requires NoDuplicates(toVisit)
    requires forall u :: u in toVisit ==> u !in visited
    ensures var q := Enqueue(toVisit, visited, links);
      && NoDuplicates(q)
      && (forall u :: u in q ==> u !in visited)
      && |toVisit| <= |q| && q[..|toVisit|] == toVisit
      && (forall u :: u in q <==> u in toVisit || (u in links && u !in visited))
    decreases |links|
  {
    if links != [] {
      var init := links[..|links| - 1];
      EnqueueKeepsFrontier(toVisit, visited, init);
      var q := Enqueue(toVisit, visited, init);
      var x := links[|links| - 1];
      assert forall u :: u in links <==> u in init || u == x;
      if x !in visited && x !in q {
        assert (q + [x])[..|toVisit|] == q[..|toVisit|];
      }
    }
  }

  /** Queueing the links of a page onto the unvisited part of the deduplicated list of urls seen so
      far gives the unvisited part of that list extended by the links. */
  lemma {:induction false} EnqueueIsWithout(seen: seq<string>, visited: set<string>, links: seq<string>)
    ensures Enqueue(Without(Dedup(seen), visited), visited, links) == Without(Dedup(seen + links), visited)
    decreases |links|
  {
    if links == [] {
      assert seen + links == seen;
    } else {
      var init, x := links[..|links| - 1], links[|links| - 1];
      EnqueueIsWithout(seen, visited, init);
      var d := Dedup(seen + init);
      assert (seen + links)[..|seen + links| - 1] == seen + init;
      assert Dedup(seen + links) == if x in d then d else d + [x];
      WithoutSnoc(d, visited, x);
      WithoutMembers(d, visited);
    }
  }

  /** The filtering part of the callback for one `href`: its early returns, and the `catch` that
      swallows a url that does not parse. */
  method AcceptLink(o: Oracles, p: Params, startDomain: string, base: string, href: string) returns (link: Option<string>)
    ensures link == Accepted(o, p, startDomain, base, href)
  {
    link := None;
    if href != "" {
      var absoluteUrl := o.resolve(href, base);
      if absoluteUrl.Success? {
        var linkDomain := o.hostname(absoluteUrl.value);
        if linkDomain.Success? && !(p.sameDomain && linkDomain.value != startDomain) && StartsWith(absoluteUrl.value, "http") {
          link := Some(absoluteUrl.value);
        }
      }
    }
  }

  /** The `$("a[href]").each` callback run over a page's `href`s: it fills `pageLinks`, appends to
      `allLinks` and queues the new links. */
  method CollectLinks(o: Oracles, p: Params, startDomain: string, base: string, hrefs: seq<string>,
                      visited: set<string>, toVisit: seq<string>, allLinks: seq<string>)
    returns (pageLinks: seq<string>, toVisit': seq<string>, allLinks': seq<string>)
    ensures pageLinks == Somes(AcceptedAll(o, p, startDomain, base, hrefs))
    ensures toVisit' == Enqueue(toVisit, visited, pageLinks)
    ensures allLinks' == allLinks + pageLinks
  {
    ghost var acc := AcceptedAll(o, p, startDomain, base, hrefs);
    pageLinks, toVisit', allLinks' := [], toVisit, allLinks;
    var i := 0;
    while i < |hrefs|
      invariant 0 <= i <= |hrefs|
      invariant pageLinks == Somes(acc[..i])
      invariant toVisit' == Enqueue(toVisit, visited, pageLinks)
      invariant allLinks' == allLinks + pageLinks
    {
      SomesPrefixStep(acc, i);
      var link := AcceptLink(o, p, startDomain, base, hrefs[i]);
      if link.Some? {
        EnqueueSnoc(toVisit, visited, pageLinks, link.value);
        pageLinks := pageLinks + [link.value];
        allLinks' := allLinks' + [link.value];
        if link.value !in visited && link.value !in toVisit' {
          toVisit' := toVisit' + [link.value];
        }
      }
      i := i + 1;
    }
    assert acc[..i] == acc;
  }

  /** One page of the crawl: the record it adds, and the queue and links after its callbacks. */
  method VisitPage(o: Oracles, p: Params, startDomain: string, url: string,
                   visited: set<string>, toVisit: seq<string>, allLinks: seq<string>)
    returns (page: PageData, toVisit': seq<string>, allLinks': seq<string>)
    ensures page == PageOf(o, p, startDomain, url)
    ensures toVisit' == Enqueue(toVisit, visited, LinksOf(o, p, startDomain, url))
    ensures allLinks' == allLinks + LinksOf(o, p, startDomain, url)
  {
    var fetched := o.fetch(url);
    if fetched.Failure? {
      return ErrorPage(url, fetched.error), toVisit, allLinks;
    }
    var html := fetched.value;
    var pageLinks;
    pageLinks, toVisit', allLinks' := CollectLinks(o, p, startDomain, url, o.hrefs(html), visited, toVisit, allLinks);
    page := PageData(url, o.title(html), Take(Dedup(pageLinks), MaxPageLinks), None);
    if HasPattern(p) {
      var matches := o.matchAll(p.extractPattern.value, o.bodyText(html));
      if matches.Failure? {
        page := ErrorPage(url, matches.error);
      } else if matches.value.Some? {
        page := page.(extractedData := Some(Dedup(matches.value.value)));
      }
    }
  }

  function Urls(pages: seq<PageData>): (r: seq<string>)
    ensures |r| == |pages|
  {
    seq(|pages|, k requires 0 <= k < |pages| => pages[k].url)
  }

  /** Records made by `PageOf` list the urls they were made for. */
  lemma RecordedUrls(o: Oracles, p: Params, startDomain: string, order: seq<string>, pages: seq<PageData>)
    requires |order| == |pages| && forall k :: 0 <= k < |pages| ==> pages[k] == PageOf(o, p, startDomain, order[k])
    ensures Urls(pages) == order
  {
    forall k | 0 <= k < |pages| ensures pages[k].url == order[k] {
      PageOfShape(o, p, startDomain, order[k]);
    }
  }

  /** Each record is `PageOf` its url; no url is visited twice; `visited` holds exactly the visited urls. */
  ghost predicate Recorded(o: Oracles, p: Params, startDomain: string, order: seq<string>, visited: set<string>, pages: seq<PageData>) {
    && |order| == |pages| && (forall k :: 0 <= k < |pages| ==> pages[k] == PageOf(o, p, startDomain, order[k]))
    && NoDuplicates(order) && visited == (set u | u in order) && |visited| == |order|
  }

  /** The queue has no duplicates and no visited url. */
  predicate Queued(visited: set<string>, toVisit: seq<string>) {
    NoDuplicates(toVisit) && (forall u :: u in toVisit ==> u !in visited)
  }

  /** The start url comes first; every url visited or queued is the start url or a found link;
      every found link is visited or queued. */
  predicate Covered(p: Params, order: seq<string>, visited: set<string>, toVisit: seq<string>, allLinks: seq<string>) {
    && (order == [] ==> toVisit == [p.startUrl])
    && (order != [] ==> order[0] == p.startUrl)
    && (forall u :: u in order ==> u == p.startUrl || u in allLinks)
    && (forall u :: u in toVisit ==> u == p.startUrl || u in allLinks)
    && (forall l :: l in allLinks ==> l in visited || l in toVisit)
  }

  /** The state of the crawl loop; `order` is the ghost list of the urls visited, in order, and
      `allLinks` is what those visits found. */
  ghost predicate Frontier(o: Oracles, p: Params, startDomain: string, order: seq<string>, visited: set<string>,
                           toVisit: seq<string>, pages: seq<PageData>, allLinks: seq<string>)
  {
    && Recorded(o, p, startDomain, order, visited, pages)
    && Queued(visited, toVisit)
    && allLinks == AllLinksOf(o, p, startDomain, order)
    && Covered(p, order, visited, toVisit, allLinks)
  }

  /** The queue the crawl holds after visiting `order`: every url seen so far, the start url and
      then the links found in visiting order, once each, less the urls visited. */
  function Pending(o: Oracles, p: Params, startDomain: string, order: seq<string>): seq<string> {
    Without(Dedup([p.startUrl] + AllLinksOf(o, p, startDomain, order)), set u | u in order)
  }

  /** The queue is `Pending` of the visits so far, and each visit took the head of the queue of
      its time: the crawl is breadth-first. */
  ghost predicate BreadthFirst(o: Oracles, p: Params, startDomain: string, order: seq<string>, toVisit: seq<string>) {
    && toVisit == Pending(o, p, startDomain, order)
    && forall k :: 0 <= k < |order| ==> Pending(o, p, startDomain, order[..k]) != [] && order[k] == Pending(o, p, startDomain, order[..k])[0]
  }

  lemma BreadthFirstStart(o: Oracles, p: Params, startDomain: string)
    ensures BreadthFirst(o, p, startDomain, [], [p.startUrl])
  {
    var start := [p.startUrl];
    assert [p.startUrl] + AllLinksOf(o, p, startDomain, []) == start;
    assert start[..0] == [];
    assert Dedup(start) == start;
    assert Without(start, {}) == start by {
      WithoutSnoc([], {}, p.startUrl);
    }
    assert (set u: string | u in []) == {};
  }

  /** After a visit to the head of the queue, `Pending` is the queue with its head taken off and
      the visit's new links queued. */
  lemma PendingStep(o: Oracles, p: Params, startDomain: string, order: seq<string>, visited: set<string>, toVisit: seq<string>)
    requires toVisit == Pending(o, p, startDomain, order)
    requires visited == (set u | u in order) && toVisit != []
    ensures var url := toVisit[0];
      Pending(o, p, startDomain, order + [url]) == Enqueue(toVisit[1..], visited + {url}, LinksOf(o, p, startDomain, url))
  {
    var url := toVisit[0];
    var links := LinksOf(o, p, startDomain, url);
    var seen := [p.startUrl] + AllLinksOf(o, p, startDomain, order);
    SeenSnoc(o, p, startDomain, order, url);
    VisitedSnoc(order, url);
    QueueStep(seen, visited, links);
  }

  lemma SeenSnoc(o: Oracles, p: Params, startDomain: string, order: seq<string>, url: string)
    ensures [p.startUrl] + AllLinksOf(o, p, startDomain, order + [url])
         == ([p.startUrl] + AllLinksOf(o, p, startDomain, order)) + LinksOf(o, p, startDomain, url)
  {
    AllLinksSnoc(o, p, startDomain, order, url);
  }

  lemma VisitedSnoc(order: seq<string>, url: string)
    ensures (set u | u in order + [url]) == (set u | u in order) + {url}
  {
  }

  /** Dequeueing the head `u` of the unvisited, deduplicated `seen` and queueing the new `links`
      gives the unvisited, deduplicated `seen + links` once `u` is visited. */
  lemma QueueStep(seen: seq<string>, visited: set<string>, links: seq<string>)
    requires Without(Dedup(seen), visited) != []
    ensures var u := Without(Dedup(seen), visited)[0];
      Without(Dedup(seen + links), visited + {u}) == Enqueue(Without(Dedup(seen), visited)[1..], visited + {u}, links)
  {
    var u := Without(Dedup(seen), visited)[0];
    WithoutShift(Dedup(seen), visited, u);
    EnqueueIsWithout(seen, visited + {u}, links);
  }

  /** Visiting the head of the queue and queueing its new links keeps the crawl breadth-first. */
  lemma VisitKeepsBreadthFirst(o: Oracles, p: Params, startDomain: string, order: seq<string>, visited: set<string>, toVisit: seq<string>)
    requires BreadthFirst(o, p, startDomain, order, toVisit)
    requires visited == (set u | u in order) && toVisit != []
    ensures var url := toVisit[0];
      BreadthFirst(o, p, startDomain, order + [url], Enqueue(toVisit[1..], visited + {url}, LinksOf(o, p, startDomain, url)))
  {
    var url := toVisit[0];
    PendingStep(o, p, startDomain, order, visited, toVisit);
    var order' := order + [url];
    forall k | 0 <= k < |order'|
      ensures Pending(o, p, startDomain, order'[..k]) != [] && order'[k] == Pending(o, p, startDomain, order'[..k])[0]
    {
      if k < |order| {
        assert order'[..k] == order[..k];
      } else {
        assert order'[..k] == order;
      }
    }
  }

  lemma VisitKeepsRecorded(o: Oracles, p: Params, startDomain: string, order: seq<string>, visited: set<string>, pages: seq<PageData>, url: string)
    requires Recorded(o, p, startDomain, order, visited, pages) && url !in visited
    ensures Recorded(o, p, startDomain, order + [url], visited + {url}, pages + [PageOf(o, p, startDomain, url)])
  {
    DistinctCard(order, url);
  }

  /** Taking the head off a queue keeps it free of duplicates, and of visited urls once the head is visited. */
  lemma ShiftKeepsQueued(visited: set<string>, toVisit: seq<string>)
    requires Queued(visited, toVisit) && toVisit != []
    ensures Queued(visited + {toVisit[0]}, toVisit[1..])
  {
    var rest := toVisit[1..];
    forall u | u in rest ensures u != toVisit[0] {
      var i :| 0 <= i < |rest| && rest[i] == u;
      assert toVisit[i + 1] == u;
    }
    forall i, j | 0 <= i < j < |rest| ensures rest[i] != rest[j] {
      assert rest[i] == toVisit[i + 1] && rest[j] == toVisit[j + 1];
    }
  }

  lemma VisitKeepsCovered(p: Params, order: seq<string>, visited: set<string>, toVisit: seq<string>, allLinks: seq<string>, links: seq<string>)
    requires Covered(p, order, visited, toVisit, allLinks) && toVisit != []
    requires Queued(visited + {toVisit[0]}, toVisit[1..])
    ensures Covered(p, order + [toVisit[0]], visited + {toVisit[0]}, Enqueue(toVisit[1..], visited + {toVisit[0]}, links), allLinks + links)
  {
    var url, rest := toVisit[0], toVisit[1..];
    var q := Enqueue(rest, visited + {url}, links);
    assert forall u :: u in toVisit <==> u == url || u in rest;
    EnqueueKeepsFrontier(rest, visited + {url}, links);
    forall u | u in rest ensures u in q {
      var i :| 0 <= i < |rest| && rest[i] == u;
      assert q[..|rest|][i] == u;
    }
  }

  /** Visiting the head of the queue, when it is not yet visited, keeps the frontier. */
  lemma VisitKeepsFrontier(o: Oracles, p: Params, startDomain: string, order: seq<string>, visited: set<string>,
                           toVisit: seq<string>, pages: seq<PageData>, allLinks: seq<string>)
    requires Frontier(o, p, startDomain, order, visited, toVisit, pages, allLinks)
    requires toVisit != [] && toVisit[0] !in visited
    ensures var url := toVisit[0]; var links := LinksOf(o, p, startDomain, url);
      Frontier(o, p, startDomain, order + [url], visited + {url},
               Enqueue(toVisit[1..], visited + {url}, links), pages + [PageOf(o, p, startDomain, url)], allLinks + links)
  {
    var url := toVisit[0];
    var links := LinksOf(o, p, startDomain, url);
    VisitKeepsRecorded(o, p, startDomain, order, visited, pages, url);
    ShiftKeepsQueued(visited, toVisit);
    EnqueueKeepsFrontier(toVisit[1..], visited + {url}, links);
    AllLinksSnoc(o, p, startDomain, order, url);
    VisitKeepsCovered(p, order, visited, toVisit, allLinks, links);
  }

  /** What a finished crawl from `startDomain` answers. The pages visited, in visiting order, each as
      `PageOf` records it: the start url first, no url twice, at most `maxPages` of them, each the head
      of the queue of its time. `allLinks` is every link found, deduplicated. A crawl that stops under
      its page budget leaves nothing queued and has visited every link it found. */
  ghost predicate Crawled(o: Oracles, p: Params, startDomain: string, res: CrawlResult) {
    var urls := Urls(res.pages);
    && res.startUrl == p.startUrl
    && res.pagesVisited == |res.pages| <= Budget(p)
    && (forall k :: 0 <= k < |res.pages| ==> res.pages[k] == PageOf(o, p, startDomain, urls[k]))
    && res.allLinks == Dedup(AllLinksOf(o, p, startDomain, urls))
    && (forall k, l :: 0 <= k < |urls| && l in res.pages[k].links ==> l in res.allLinks)
    && VisitOrder(o, p, startDomain, urls, res.allLinks)
  }

  /** The order of a finished crawl: the start url first, no url twice, each the head of the queue
      of its time, each but the start url a found link; under the page budget nothing is left
      queued and every found link is visited. */
  ghost predicate VisitOrder(o: Oracles, p: Params, startDomain: string, urls: seq<string>, allLinks: seq<string>) {
    && NoDuplicates(urls)
    && (p.maxPages >= 1 ==> |urls| >= 1 && urls[0] == p.startUrl)
    && (forall u :: u in urls ==> u == p.startUrl || u in allLinks)
    && (forall k :: 0 <= k < |urls| ==>
          Pending(o, p, startDomain, urls[..k]) != [] && urls[k] == Pending(o, p, startDomain, urls[..k])[0])
    && (|urls| < p.maxPages ==> Pending(o, p, startDomain, urls) == [])
    && (|urls| < p.maxPages ==> forall l :: l in allLinks ==> l in urls)
  }

  /** When the loop stops, the urls it visited are in the order of a finished crawl. */
  lemma OrderDone(o: Oracles, p: Params, startDomain: string, order: seq<string>, visited: set<string>, toVisit: seq<string>)
    requires NoDuplicates(order) && visited == (set u | u in order) && |visited| == |order|
    requires Covered(p, order, visited, toVisit, AllLinksOf(o, p, startDomain, order))
    requires BreadthFirst(o, p, startDomain, order, toVisit)
    requires !(|toVisit| > 0 && |visited| < p.maxPages)
    ensures VisitOrder(o, p, startDomain, order, Dedup(AllLinksOf(o, p, startDomain, order)))
  {
  }

  /** When the loop stops, its state is a finished crawl. */
  lemma CrawlDone(o: Oracles, p: Params, startDomain: string, order: seq<string>, visited: set<string>,
                  toVisit: seq<string>, pages: seq<PageData>, allLinks: seq<string>)
    requires Frontier(o, p, startDomain, order, visited, toVisit, pages, allLinks)
    requires BreadthFirst(o, p, startDomain, order, toVisit)
    requires |order| <= Budget(p) && !(|toVisit| > 0 && |visited| < p.maxPages)
    ensures Crawled(o, p, startDomain, CrawlResult(p.startUrl, |pages|, pages, Dedup(allLinks)))
  {
    RecordedUrls(o, p, startDomain, order, pages);
    PageLinksFound(o, p, startDomain, order);
    OrderDone(o, p, startDomain, order, visited, toVisit);
  }

  /** `crawlSite(params)`. A start url without a hostname throws before anything is fetched.
      Otherwise the answer lists the pages visited, in visiting order, each as `PageOf` records it:
      the start url first, no url twice, at most `maxPages` of them. `allLinks` is every link found,
      deduplicated. Each link found is visited or still queued, so a crawl that stops under its page
      budget has visited every link it found. */
  method CrawlSite(o: Oracles, p: Params) returns (r: Result<CrawlResult>)
    ensures o.hostname(p.startUrl).Failure? ==> r == Failure(o.hostname(p.startUrl).error)
    ensures o.hostname(p.startUrl).Success? ==> r.Success?
    ensures r.Success? ==> Crawled(o, p, o.hostname(p.startUrl).value, r.value)
  {
    var host := o.hostname(p.startUrl);
    if host.Failure? {
      return Failure(host.error);
    }
    var startDomain := host.value;
    var visited: set<string> := {};
    var toVisit := [p.startUrl];
    var pages: seq<PageData> := [];
    var allLinks: seq<string> := [];
    ghost var order: seq<string> := [];
    BreadthFirstStart(o, p, startDomain);
    while |toVisit| > 0 && |visited| < p.maxPages
      invariant Frontier(o, p, startDomain, order, visited, toVisit, pages, allLinks)
      invariant BreadthFirst(o, p, startDomain, order, toVisit)
      invariant |order| <= Budget(p)
      decreases p.maxPages - |visited|, |toVisit|
    {
      var url := toVisit[0];
      VisitKeepsFrontier(o, p, startDomain, order, visited, toVisit, pages, allLinks);
      VisitKeepsBreadthFirst(o, p, startDomain, order, visited, toVisit);
      toVisit := toVisit[1..];
      if url !in visited {
        visited := visited + {url};
        var page;
        page, toVisit, allLinks := VisitPage(o, p, startDomain, url, visited, toVisit, allLinks);
        pages := pages + [page];
        order := order + [url];
      }
    }
    CrawlDone(o, p, startDomain, order, visited, toVisit, pages, allLinks);
    r := Success(CrawlResult(p.startUrl, |pages|, pages, Dedup(allLinks)));
  }

  /** The links found on the `k`-th visit are among all the links found. */
  lemma {:induction false} LinksFound(o: Oracles, p: Params, startDomain: string, urls: seq<string>, k: int)
    requires 0 <= k < |urls|
    ensures forall l :: l in LinksOf(o, p, startDomain, urls[k]) ==> l in AllLinksOf(o, p, startDomain, urls)
    decreases |urls|
  {
    var init := urls[..|urls| - 1];
    if k < |init| {
      LinksFound(o, p, startDomain, init, k);
      assert urls[k] == init[k];
    }
  }

  /** Every link a page record keeps is among all the links found. */
  lemma PageLinksFound(o: Oracles, p: Params, startDomain: string, urls: seq<string>)
    ensures forall k, l :: 0 <= k < |urls| && l in PageOf(o, p, startDomain, urls[k]).links ==> l in AllLinksOf(o, p, startDomain, urls)
  {
    forall k, l | 0 <= k < |urls| && l in PageOf(o, p, startDomain, urls[k]).links
      ensures l in AllLinksOf(o, p, startDomain, urls)
    {
      PageOfShape(o, p, startDomain, urls[k]);
      LinksFound(o, p, startDomain, urls, k);
    }
  }

  lemma AllLinksSnoc(o: Oracles, p: Params, startDomain: string, urls: seq<string>, url: string)
    ensures AllLinksOf(o, p, startDomain, urls + [url]) == AllLinksOf(o, p, startDomain, urls) + LinksOf(o, p, startDomain, url)
  {
    assert (urls + [url])[..|urls|] == urls;
  }

  /** Adding a url not yet visited grows the visited set by one. */
  lemma DistinctCard(order: seq<string>, url: string)
    requires NoDuplicates(order) && url !in order
    ensures NoDuplicates(order + [url])
    ensures |(set u | u in order + [url])| == |(set u | u in order)| + 1
    ensures (set u | u in order + [url]) == (set u | u in order) + {url}
  {
    assert (set u | u in order + [url]) == (set u | u in order) + {url};
  }
}
