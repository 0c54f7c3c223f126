/** The search fallback chain: rate-limit classification, retry with exponential backoff, three
    provider kinds and the ordered chain over them. */
module Search {
  import opened Wrappers
  import opened Strings

  const PublicSearxngInstances: seq<string> :=
    ["https://searx.be", "https://search.bus-hit.me", "https://searx.tiekoetter.com"]

  const LocalSearxng: string := "http://localhost:8080"

  /** The lower-cased fragments that mark an error message as a throttling signal. */
  const RateLimitSignatures: seq<string> :=
    ["anomaly", "too quickly", "rate limit", "429", "service unavailable", "503"]

  /** `fetchWithRetry`'s default number of attempts, the one every provider uses. */
  const DefaultRetries: int := 3

  const BackoffBaseMs: nat := 2000

  /** One search result. */
  datatype Hit = Hit(url: string, title: string, description: string)

  /** One element of a SearXNG JSON `results` array. */
  datatype SearxResult = SearxResult(url: string, title: string, content: Option<string>)

  /** One match of the DuckDuckGo result pattern: its three capture groups. */
  datatype Match = Match(url: string, title: string, description: string)

  datatype Response = Response(ok: bool, status: nat, statusText: string, body: string)

  /** What one `fetch` call does: it resolves to a response or throws. */
  datatype FetchOutcome = Responded(response: Response) | Threw(error: Error)

  /** The collaborators the providers use, as oracles. `fetch(url, k)` is the outcome of the
      `k`-th attempt (0-based) at fetching `url` within one `fetchWithRetry` call; `json` is
      `response.json()` followed by reading its `results` field (`None` when absent); `scan` is the
      list of matches of the DuckDuckGo result pattern in a page, in order; `encodeUri` is
      `encodeURIComponent`. */
  datatype Network = Network(
    fetch: (string, nat) -> FetchOutcome,
    json: string -> Result<Option<seq<SearxResult>>>,
    scan: string -> seq<Match>,
    encodeUri: string -> string)

  datatype Provider = LocalSearxngProvider | ScraperApiProvider | PublicSearxngProvider(instance: string)

  function Min(a: int, b: int): int {
    if a <= b then a else b
  }

  /** `isRateLimitError(error)` */
  function IsRateLimitError(e: Error): bool {
    var m := ToLower(e.Text());
    Includes(m, "anomaly") || Includes(m, "too quickly") || Includes(m, "rate limit") ||
    Includes(m, "429") || Includes(m, "service unavailable") || Includes(m, "503")
  }

  /** An error is a rate limit exactly when one of the signatures occurs in its lower-cased message. */
  lemma RateLimitMeaning(e: Error)
    ensures IsRateLimitError(e) <==> exists k :: 0 <= k < |RateLimitSignatures| && Occurs(RateLimitSignatures[k], ToLower(e.Text()))
  {
    SignaturesMeaning(ToLower(e.Text()));
  }

  lemma SignaturesMeaning(m: string)
    ensures (Includes(m, "anomaly") || Includes(m, "too quickly") || Includes(m, "rate limit") ||
             Includes(m, "429") || Includes(m, "service unavailable") || Includes(m, "503")) <==>
            exists k :: 0 <= k < |RateLimitSignatures| && Occurs(RateLimitSignatures[k], m)
  {
    var sigs := RateLimitSignatures;
    assert sigs[0] == "anomaly" && sigs[1] == "too quickly" && sigs[2] == "rate limit";
    assert sigs[3] == "429" && sigs[4] == "service unavailable" && sigs[5] == "503";
    forall k | 0 <= k < |sigs|
      ensures Occurs(sigs[k], m) <==> Includes(m, sigs[k])
    {
      IncludesMeansOccurs(m, sigs[k]);
    }
  }

  /** A missing or empty message is never a rate limit. */
  lemma NoMessageIsNotRateLimit()
    ensures !IsRateLimitError(Error(None))
    ensures !IsRateLimitError(Error(Some("")))
  {
    RateLimitMeaning(Error(None));
    RateLimitMeaning(Error(Some("")));
    assert forall k :: 0 <= k < |RateLimitSignatures| ==> |RateLimitSignatures[k]| > 0;
  }

  /** The error built from a non-ok response: `HTTP <status>: <statusText>`. */
  function StatusError(r: Response): Error {
    Error(Some("HTTP " + NatToString(r.status) + ": " + r.statusText))
  }

  /** The error one attempt fails with, as the `catch` block sees it, or `None` for an ok response.
      A non-ok status is reported with its status text only when that marks it as a rate limit;
      otherwise as `HTTP Error: <status>`. */
  function AttemptError(o: FetchOutcome): Option<Error> {
    match o
    case Threw(e) => Some(e)
    case Responded(r) =>
      if r.ok then None
      else if IsRateLimitError(StatusError(r)) then Some(StatusError(r))
      else Some(Error(Some("HTTP Error: " + NatToString(r.status))))
  }

  /** An attempt that failed with a rate-limit error. */
  predicate Retryable(o: FetchOutcome) {
    AttemptError(o).Some? && IsRateLimitError(AttemptError(o).value)
  }

  function Pow2(k: nat): (p: nat)
    ensures p >= 1
  {
    if k == 0 then 1 else 2 * Pow2(k - 1)
  }

  /** The delay after a rate-limited failure of attempt `k`: `2^k * 2000` ms. */
  function Backoff(k: nat): nat {
    Pow2(k) * BackoffBaseMs
  }


  /** A signature with a character that is neither a digit nor in `p` occurs nowhere in `p + d`,
      for digits `d`. */
  lemma ForeignCharBlocks(sig: string, p: string, d: string, j: int)
    requires forall i :: 0 <= i < |d| ==> IsDigit(d[i])
    requires 0 <= j < |sig| && !IsDigit(sig[j]) && sig[j] !in p
    ensures !Occurs(sig, p + d)
  {
  }

  /** An all-digit signature that occurs in `p + d`, where `p` has no digits, occurs in `d`. */
  lemma DigitsStayInSuffix(sig: string, p: string, d: string)
    requires |sig| > 0 && forall i :: 0 <= i < |sig| ==> IsDigit(sig[i])
    requires forall i :: 0 <= i < |p| ==> !IsDigit(p[i])
    ensures Occurs(sig, p + d) ==> Occurs(sig, d)
  {
    if Occurs(sig, p + d) {
      var i :| OccursAt(sig, p + d, i);
      assert (p + d)[i] == sig[0];
      assert i >= |p|;
      assert (p + d)[i..i + |sig|] == d[i - |p|..i - |p| + |sig|];
      assert OccursAt(sig, d, i - |p|);
    }
  }

  lemma HttpPrefixHasNoSignature(d: string, k: int)
    requires forall i :: 0 <= i < |d| ==> IsDigit(d[i])
    requires 0 <= k < |RateLimitSignatures|
    ensures Occurs(RateLimitSignatures[k], "http error: " + d) ==> Occurs(RateLimitSignatures[k], d)
  {
    var p := "http error: ";
    var sigs := RateLimitSignatures;
    assert sigs[0] == "anomaly" && sigs[1] == "too quickly" && sigs[2] == "rate limit";
    assert sigs[3] == "429" && sigs[4] == "service unavailable" && sigs[5] == "503";
    if k == 0 {
      ForeignCharBlocks(sigs[k], p, d, 0);
    } else if k == 1 {
      ForeignCharBlocks(sigs[k], p, d, 4);
    } else if k == 2 {
      ForeignCharBlocks(sigs[k], p, d, 1);
    } else if k == 4 {
      ForeignCharBlocks(sigs[k], p, d, 0);
    } else {
      DigitsStayInSuffix(sigs[k], p, d);
    }
  }

  /** Lower-casing leaves digits alone. */
  lemma DigitsLowered(d: string)
    requires forall i :: 0 <= i < |d| ==> IsDigit(d[i])
    ensures ToLower(d) == d
  {
  }

  /** A fragment of the status digits also occurs in the lower-cased `HTTP <status>: <text>`. */
  lemma DigitsInStatusMessage(d: string, text: string, t: string)
    requires forall i :: 0 <= i < |d| ==> IsDigit(d[i])
    ensures Occurs(t, d) ==> Occurs(t, ToLower("HTTP " + d + ": " + text))
  {
    var lowered := ToLower("HTTP " + d + ": " + text);
    ToLowerConcat("HTTP " + d, ": " + text);
    ToLowerConcat("HTTP ", d);
    DigitsLowered(d);
    assert lowered[5..5 + |d|] == d;
    if Occurs(t, d) {
      var i :| OccursAt(t, d, i);
      assert lowered[5 + i..5 + i + |t|] == d[i..i + |t|];
      assert OccursAt(t, lowered, i + 5);
    }
  }

  /** A non-ok status that is not classified as a rate limit by its status text is not classified
      as one by its `HTTP Error: <status>` message either, so it is never retried. */
  lemma HttpErrorIsFinal(r: Response)
    requires !r.ok && !IsRateLimitError(StatusError(r))
    ensures AttemptError(Responded(r)) == Some(Error(Some("HTTP Error: " + NatToString(r.status))))
    ensures !Retryable(Responded(r))
  {
    var d := NatToString(r.status);
    ToLowerConcat("HTTP Error: ", d);
    DigitsLowered(d);
    assert ToLower("HTTP Error: ") == "http error: ";
    assert ToLower("HTTP Error: " + d) == "http error: " + d;
    RateLimitMeaning(StatusError(r));
    forall k | 0 <= k < |RateLimitSignatures|
      ensures !Occurs(RateLimitSignatures[k], ToLower("HTTP Error: " + d))
    {
      HttpPrefixHasNoSignature(d, k);
      DigitsInStatusMessage(d, r.statusText, RateLimitSignatures[k]);
    }
    RateLimitMeaning(Error(Some("HTTP Error: " + d)));
  }

  /** A 429 or 503 response is always treated as a rate limit, whatever its status text. */
  lemma ThrottlingStatusIsRetryable(r: Response)
    requires !r.ok && (r.status == 429 || r.status == 503)
    ensures Retryable(Responded(r))
  {
    var d := NatToString(r.status);
    assert d == (if r.status == 429 then "429" else "503");
    var k := if r.status == 429 then 3 else 5;
    assert RateLimitSignatures[k] == d && OccursAt(d, d, 0);
    DigitsInStatusMessage(d, r.statusText, d);
    RateLimitMeaning(StatusError(r));
  }

  /** What `fetchWithRetry(url, retries)` settles with once attempt `k` is reached: the response of
      the first ok attempt, or the error of the first attempt that is not retried. */
  function FetchFrom(net: Network, url: string, retries: int, k: nat): Result<Response>
    decreases retries - k
  {
    if k >= retries then Fail("Fetch attempts exhausted")
    else
      var o := net.fetch(url, k);
      var e := AttemptError(o);
      if e.None? then Success(o.response)
      else if !IsRateLimitError(e.value) || k == retries - 1 then Failure(e.value)
      else FetchFrom(net, url, retries, k + 1)
  }

  /** What `fetchWithRetry(url, retries)` resolves to, or the error it throws. */
  function FetchResult(net: Network, url: string, retries: int): Result<Response> {
    FetchFrom(net, url, retries, 0)
  }

  /** The delays `fetchWithRetry(url, retries)` sleeps from attempt `k` on: one backoff after each
      rate-limited failure that is not the last attempt, until an attempt settles the call. */
  function FetchWaitsFrom(net: Network, url: string, retries: int, k: nat): seq<nat>
    decreases retries - k
  {
    if k >= retries then []
    else
      var e := AttemptError(net.fetch(url, k));
      if e.None? || !IsRateLimitError(e.value) || k == retries - 1 then []
      else [Backoff(k)] + FetchWaitsFrom(net, url, retries, k + 1)
  }

  /** The delays one `fetchWithRetry(url, retries)` call sleeps, in order. */
  function FetchWaits(net: Network, url: string, retries: int): seq<nat> {
    FetchWaitsFrom(net, url, retries, 0)
  }

  /** With the default three attempts a call sleeps 2000 ms and then 4000 ms at most: nothing, 2000
      ms, or 2000 ms followed by 4000 ms. */
  lemma DefaultBackoffs(net: Network, url: string)
    ensures Backoff(0) == 2000 && Backoff(1) == 4000
    ensures FetchWaits(net, url, DefaultRetries) <= [2000, 4000]
  {
    assert Backoff(0) == 2000 && Backoff(1) == 4000;
    var w2 := FetchWaitsFrom(net, url, DefaultRetries, 2);
    assert w2 == [];
    var w1 := FetchWaitsFrom(net, url, DefaultRetries, 1);
    assert w1 == [] || w1 == [Backoff(1)] + w2;
    var w0 := FetchWaits(net, url, DefaultRetries);
    assert w0 == [] || w0 == [Backoff(0)] + w1;
  }

  /** The retry loop has reached attempt `attempt`, every earlier one rate limited, and `waits` are
      the delays slept so far. */
  ghost predicate FetchSoFar(net: Network, url: string, retries: int, attempt: nat, waits: seq<nat>) {
    && (retries > 0 ==> attempt < retries)
    && (retries <= 0 ==> attempt == 0)
    && |waits| == attempt
    && (forall k :: 0 <= k < attempt ==> waits[k] == Backoff(k) && Retryable(net.fetch(url, k)))
    && FetchFrom(net, url, retries, attempt) == FetchResult(net, url, retries)
    && waits + FetchWaitsFrom(net, url, retries, attempt) == FetchWaits(net, url, retries)
  }

  /** A rate-limited attempt with attempts left sleeps `Backoff(attempt)` and goes on. */
  lemma FetchWaitsStep(net: Network, url: string, retries: int, attempt: nat, waits: seq<nat>)
    requires attempt < retries && FetchSoFar(net, url, retries, attempt, waits)
    requires var e := AttemptError(net.fetch(url, attempt)); e.Some? && IsRateLimitError(e.value) && attempt != retries - 1
    ensures FetchSoFar(net, url, retries, attempt + 1, waits + [Backoff(attempt)])
  {
    var rest := FetchWaitsFrom(net, url, retries, attempt + 1);
    assert (waits + [Backoff(attempt)]) + rest == waits + ([Backoff(attempt)] + rest);
  }

  /** An attempt that succeeds, fails otherwise than by rate limiting, or is the last settles the
      call with its own answer, and no delay follows it. */
  lemma FetchSettles(net: Network, url: string, retries: int, attempt: nat, waits: seq<nat>)
    requires attempt < retries && FetchSoFar(net, url, retries, attempt, waits)
    requires var e := AttemptError(net.fetch(url, attempt)); e.None? || !IsRateLimitError(e.value) || attempt == retries - 1
    ensures waits == FetchWaits(net, url, retries)
    ensures var o := net.fetch(url, attempt); var e := AttemptError(o);
      FetchResult(net, url, retries) == if e.None? then Success(o.response) else Failure(e.value)
  {
    assert waits + [] == waits;
  }

  /** `fetchWithRetry(url, retries)`. `waits` records the delays slept, in order. */
  method FetchWithRetry(net: Network, url: string, retries: int) returns (r: Result<Response>, attempts: nat, waits: seq<nat>)
    ensures r == FetchResult(net, url, retries)
    ensures waits == FetchWaits(net, url, retries)
    ensures retries == DefaultRetries ==> waits <= [2000, 4000]
    ensures retries <= 0 ==> attempts == 0 && r == Fail("Fetch attempts exhausted")
    ensures retries > 0 ==> 1 <= attempts <= retries
    ensures |waits| == if attempts == 0 then 0 else attempts - 1
    ensures forall k :: 0 <= k < |waits| ==> waits[k] == Backoff(k) && Retryable(net.fetch(url, k))
    ensures r.Success? ==> attempts >= 1 && net.fetch(url, attempts - 1) == Responded(r.value) && r.value.ok
    ensures r.Failure? && attempts >= 1 ==>
      AttemptError(net.fetch(url, attempts - 1)) == Some(r.error) && (!IsRateLimitError(r.error) || attempts == retries)
  {
    DefaultBackoffs(net, url);
    var attempt: nat := 0;
    waits := [];
    while attempt < retries
      invariant FetchSoFar(net, url, retries, attempt, waits)
    {
      var outcome := net.fetch(url, attempt);
      var error := AttemptError(outcome);
      if error.None? || !IsRateLimitError(error.value) || attempt == retries - 1 {
        FetchSettles(net, url, retries, attempt, waits);
        if error.None? {
          return Success(outcome.response), attempt + 1, waits;
        }
        return Failure(error.value), attempt + 1, waits;
      }
      FetchWaitsStep(net, url, retries, attempt, waits);
      waits := waits + [Backoff(attempt)];
      attempt := attempt + 1;
    }
    assert waits + [] == waits;
    return Fail("Fetch attempts exhausted"), attempt, waits;
  }

  function SearxngUrl(instance: string, encodedQuery: string, maxResults: nat): string {
    instance + "/search?q=" + encodedQuery + "&format=json&number_of_results=" + NatToString(maxResults)
  }

  function ToHit(r: SearxResult): Hit {
    Hit(r.url, r.title, r.content.GetOr(""))
  }

  /** The result step shared by both SearXNG providers: no results is an error, otherwise the
      first `maxResults` results, each with `content || ""` as its description. */
  function SearxngHits(results: Option<seq<SearxResult>>, maxResults: nat, noResults: string): (r: Result<seq<Hit>>)
    ensures r.Failure? <==> results.None? || results.value == []
    ensures r.Failure? ==> r == Fail(noResults)
    ensures r.Success? ==> |r.value| == Min(|results.value|, maxResults)
    ensures r.Success? ==> forall i :: 0 <= i < |r.value| ==> r.value[i] == ToHit(results.value[i])
    ensures r.Success? && maxResults >= 1 ==> |r.value| >= 1
  {
    if results.None? || results.value == [] then Fail(noResults)
    else
      var kept := results.value[..Min(|results.value|, maxResults)];
      Success(seq(|kept|, i requires 0 <= i < |kept| => ToHit(kept[i])))
  }

  /** What `searchSearxngLocal` (for the local instance) and `searchSearxngPublic` return: a
      failed fetch or an unreadable body is passed on, otherwise the result step over the JSON. */
  function SearxngOutcome(net: Network, instance: string, query: string, maxResults: nat, noResults: string): Result<seq<Hit>> {
    var response := FetchResult(net, SearxngUrl(instance, net.encodeUri(query), maxResults), DefaultRetries);
    if response.Failure? then Failure(response.error)
    else
      var data := net.json(response.value.body);
      if data.Failure? then Failure(data.error) else SearxngHits(data.value, maxResults, noResults)
  }

  /** The delays a SearXNG provider sleeps: those of its one fetch with retries. */
  function SearxngWaits(net: Network, instance: string, query: string, maxResults: nat): seq<nat> {
    FetchWaits(net, SearxngUrl(instance, net.encodeUri(query), maxResults), DefaultRetries)
  }

  /** `searchSearxngLocal` and `searchSearxngPublic`: one fetch with retries of the JSON endpoint of
      `instance`, then the result step. `waits` are the delays slept. */
  method SearchSearxng(net: Network, instance: string, query: string, maxResults: nat, noResults: string)
    returns (r: Result<seq<Hit>>, attempts: nat, waits: seq<nat>)
    ensures r == SearxngOutcome(net, instance, query, maxResults, noResults)
    ensures waits == SearxngWaits(net, instance, query, maxResults)
    ensures 1 <= attempts <= DefaultRetries
    ensures r.Success? ==> 1 <= |r.value| <= maxResults || (maxResults == 0 && r.value == [])
  {
    var url := SearxngUrl(instance, net.encodeUri(query), maxResults);
    var response;
    response, attempts, waits := FetchWithRetry(net, url, DefaultRetries);
    if response.Failure? {
      return Failure(response.error), attempts, waits;
    }
    var data := net.json(response.value.body);
    if data.Failure? {
      return Failure(data.error), attempts, waits;
    }
    r := SearxngHits(data.value, maxResults, noResults);
  }

  /** `if (url && title)` */
  predicate IsUsable(m: Match) {
    m.url != "" && m.title != ""
  }

  /** The hit pushed for a match: its three groups, trimmed. */
  function MatchHit(m: Match): Hit {
    Hit(Trim(m.url), Trim(m.title), Trim(m.description))
  }

  /** The usable matches, in order, as hits. */
  function Usable(matches: seq<Match>): (hits: seq<Hit>)
    ensures |hits| <= |matches|
  {
    if matches == [] then []
    else
      var m := matches[|matches| - 1];
      Usable(matches[..|matches| - 1]) + if IsUsable(m) then [MatchHit(m)] else []
  }

  lemma {:induction false} UsableAppend(a: seq<Match>, b: seq<Match>)
    ensures Usable(a + b) == Usable(a) + Usable(b)
    decreases |b|
  {
    if b == [] {
      assert a + b == a;
    } else {
      var b' := b[..|b| - 1];
      assert (a + b)[..|a + b| - 1] == a + b';
      UsableAppend(a, b');
    }
  }

  /** Every usable hit comes from a match whose url and title were non-empty. */
  lemma {:induction false} UsableFromMatches(matches: seq<Match>, i: int)
    requires 0 <= i < |Usable(matches)|
    ensures exists j :: 0 <= j < |matches| && IsUsable(matches[j]) && Usable(matches)[i] == MatchHit(matches[j])
    decreases |matches|
  {
    var init := matches[..|matches| - 1];
    if i < |Usable(init)| {
      UsableFromMatches(init, i);
      var j :| 0 <= j < |init| && IsUsable(init[j]) && Usable(init)[i] == MatchHit(init[j]);
      assert matches[j] == init[j];
    } else {
      assert matches[|matches| - 1].url != "";
    }
  }

  /** The `while` loop of `searchScraperAPI`: usable matches, in order, until `maxResults` are kept. */
  method CollectMatches(matches: seq<Match>, maxResults: nat) returns (results: seq<Hit>)
    ensures results == Usable(matches)[..Min(|Usable(matches)|, maxResults)]
  {
    results := [];
    var i := 0;
    while i < |matches| && |results| < maxResults
      invariant 0 <= i <= |matches|
      invariant results == Usable(matches[..i])
      invariant |results| <= maxResults
    {
      var m := matches[i];
      if IsUsable(m) {
        results := results + [MatchHit(m)];
      }
      assert matches[..i + 1][..i] == matches[..i];
      i := i + 1;
    }
    assert matches == matches[..i] + matches[i..];
    UsableAppend(matches[..i], matches[i..]);
  }

  /** `process.env.SCRAPER_API_KEY` is set to a non-empty string. */
  predicate KeyConfigured(apiKey: Option<string>) {
    apiKey.Some? && apiKey.value != ""
  }

  function ScraperApiUrl(net: Network, apiKey: string, query: string): string {
    var duckUrl := "https://html.duckduckgo.com/html/?q=" + net.encodeUri(query);
    "http://api.scraperapi.com/?api_key=" + apiKey + "&url=" + net.encodeUri(duckUrl)
  }

  /** The result step of `searchScraperAPI` over the matches of the page: the usable ones, in
      order, cut at `maxResults`, or an error when none is kept. */
  function ScrapedHits(matches: seq<Match>, maxResults: nat): (r: Result<seq<Hit>>)
    ensures r.Failure? ==> r == Fail("No results parsed from DuckDuckGo HTML")
    ensures r.Success? ==> 1 <= |r.value| <= maxResults && |r.value| <= |Usable(matches)| && r.value == Usable(matches)[..|r.value|]
    ensures r.Success? <==> maxResults >= 1 && Usable(matches) != []
    ensures r.Success? && |r.value| < maxResults ==> r.value == Usable(matches)
  {
    var hits := Usable(matches);
    var kept := hits[..Min(|hits|, maxResults)];
    if kept == [] then Fail("No results parsed from DuckDuckGo HTML") else Success(kept)
  }

  /** What `searchScraperAPI` returns: a missing key is refused before any fetch, a failed fetch is
      passed on, otherwise the result step over the proxied DuckDuckGo page. */
  function ScraperApiOutcome(net: Network, apiKey: Option<string>, query: string, maxResults: nat): Result<seq<Hit>> {
    if !KeyConfigured(apiKey) then Fail("SCRAPER_API_KEY not configured")
    else
      var response := FetchResult(net, ScraperApiUrl(net, apiKey.value, query), DefaultRetries);
      if response.Failure? then Failure(response.error)
      else ScrapedHits(net.scan(response.value.body), maxResults)
  }

  /** The delays `searchScraperAPI` sleeps: none without a key, otherwise those of its one fetch
      with retries. */
  function ScraperApiWaits(net: Network, apiKey: Option<string>, query: string): seq<nat> {
    if !KeyConfigured(apiKey) then [] else FetchWaits(net, ScraperApiUrl(net, apiKey.value, query), DefaultRetries)
  }

  /** `searchScraperAPI`: refuses without a key before any fetch; otherwise the matches of the
      DuckDuckGo page returned through the proxy. `waits` are the delays slept. */
  method SearchScraperApi(net: Network, apiKey: Option<string>, query: string, maxResults: nat)
    returns (r: Result<seq<Hit>>, attempts: nat, waits: seq<nat>)
    ensures r == ScraperApiOutcome(net, apiKey, query, maxResults)
    ensures waits == ScraperApiWaits(net, apiKey, query)
    ensures !KeyConfigured(apiKey) ==> attempts == 0
    ensures KeyConfigured(apiKey) ==> 1 <= attempts <= DefaultRetries
  {
    if !KeyConfigured(apiKey) {
      return Fail("SCRAPER_API_KEY not configured"), 0, [];
    }
    var response;
    response, attempts, waits := FetchWithRetry(net, ScraperApiUrl(net, apiKey.value, query), DefaultRetries);
    if response.Failure? {
      return Failure(response.error), attempts, waits;
    }
    var results := CollectMatches(net.scan(response.value.body), maxResults);
    assert results[..Min(|results|, maxResults)] == results;
    if |results| == 0 {
      return Fail("No results parsed from DuckDuckGo HTML"), attempts, waits;
    }
    r := Success(results[..Min(|results|, maxResults)]);
  }

  /** The public instances, as providers, in the order of `PUBLIC_SEARXNG_INSTANCES`. */
  function PublicProviders(): (ps: seq<Provider>)
    ensures |ps| == |PublicSearxngInstances|
    ensures forall i :: 0 <= i < |ps| ==> ps[i] == PublicSearxngProvider(PublicSearxngInstances[i])
  {
    seq(|PublicSearxngInstances|, i requires 0 <= i < |PublicSearxngInstances| => PublicSearxngProvider(PublicSearxngInstances[i]))
  }

  /** The providers `searchWeb` falls back on after the local instance: the scraping API when a
      key is configured, then the public instances. */
  function Fallbacks(apiKey: Option<string>): seq<Provider> {
    (if KeyConfigured(apiKey) then [ScraperApiProvider] else []) + PublicProviders()
  }

  /** The providers `searchWeb` tries, in order: the local instance, the scraping API when a key
      is configured, then the public instances. */
  function Chain(apiKey: Option<string>): (c: seq<Provider>)
    ensures |c| == (if KeyConfigured(apiKey) then 5 else 4)
    ensures c[0] == LocalSearxngProvider && c[|c| - 1] == PublicSearxngProvider(PublicSearxngInstances[2])
    ensures KeyConfigured(apiKey) ==> c[1] == ScraperApiProvider
    ensures c[|c| - 3..] == PublicProviders()
  {
    [LocalSearxngProvider] + Fallbacks(apiKey)
  }

  /** What calling provider `p` returns. */
  function Outcome(net: Network, apiKey: Option<string>, p: Provider, query: string, maxResults: nat): Result<seq<Hit>> {
    match p
    case LocalSearxngProvider => SearxngOutcome(net, LocalSearxng, query, maxResults, "No results from SearXNG local")
    case ScraperApiProvider => ScraperApiOutcome(net, apiKey, query, maxResults)
    case PublicSearxngProvider(instance) => SearxngOutcome(net, instance, query, maxResults, "No results from SearXNG " + instance)
  }

  /** What each provider returns for this query. */
  function Outcomes(net: Network, apiKey: Option<string>, query: string, maxResults: nat): Provider -> Result<seq<Hit>> {
    p => Outcome(net, apiKey, p, query, maxResults)
  }

  /** The delays calling provider `p` sleeps. */
  function Delays(net: Network, apiKey: Option<string>, p: Provider, query: string, maxResults: nat): seq<nat> {
    match p
    case LocalSearxngProvider => SearxngWaits(net, LocalSearxng, query, maxResults)
    case ScraperApiProvider => ScraperApiWaits(net, apiKey, query)
    case PublicSearxngProvider(instance) => SearxngWaits(net, instance, query, maxResults)
  }

  /** The delays each provider sleeps for this query. */
  function DelaysOf(net: Network, apiKey: Option<string>, query: string, maxResults: nat): Provider -> seq<nat> {
    p => Delays(net, apiKey, p, query, maxResults)
  }

  /** The answer of the first provider of `providers` that succeeds, where `outcome` says what each
      provider returns, or "All search providers failed" when none does. */
  function FirstSuccess(outcome: Provider -> Result<seq<Hit>>, providers: seq<Provider>): Result<seq<Hit>> {
    if providers == [] then Fail("All search providers failed")
    else if outcome(providers[0]).Success? then outcome(providers[0])
    else FirstSuccess(outcome, providers[1..])
  }

  /** What `searchWeb(query, maxResults)` returns, or the error it throws. */
  function WebOutcome(net: Network, apiKey: Option<string>, query: string, maxResults: nat): Result<seq<Hit>> {
    FirstSuccess(Outcomes(net, apiKey, query, maxResults), Chain(apiKey))
  }

  /** The delays slept while trying `providers` in turn: each provider's own delays, up to and
      including the first that succeeds; none of a provider after it. */
  function ChainDelays(outcome: Provider -> Result<seq<Hit>>, delay: Provider -> seq<nat>, providers: seq<Provider>): seq<nat> {
    if providers == [] then []
    else delay(providers[0]) + if outcome(providers[0]).Success? then [] else ChainDelays(outcome, delay, providers[1..])
  }

  /** The delays `searchWeb(query, maxResults)` sleeps, in order. */
  function WebWaits(net: Network, apiKey: Option<string>, query: string, maxResults: nat): seq<nat> {
    ChainDelays(Outcomes(net, apiKey, query, maxResults), DelaysOf(net, apiKey, query, maxResults), Chain(apiKey))
  }

  /** The delays of the providers `tried`, one after the other. */
  function ChainWaits(delay: Provider -> seq<nat>, tried: seq<Provider>): seq<nat> {
    if tried == [] then [] else delay(tried[0]) + ChainWaits(delay, tried[1..])
  }

  /** Provider `providers[i]` succeeds and every provider before it fails. */
  predicate FirstSucceedsAt(outcome: Provider -> Result<seq<Hit>>, providers: seq<Provider>, i: int) {
    && 0 <= i < |providers|
    && outcome(providers[i]).Success?
    && forall j :: 0 <= j < i ==> outcome(providers[j]).Failure?
  }

  /** The chain succeeds exactly when some provider does, and then with the answer of the first
      one that does; otherwise it fails with "All search providers failed". */
  lemma {:induction false} FirstSuccessMeaning(outcome: Provider -> Result<seq<Hit>>, providers: seq<Provider>)
    ensures var r := FirstSuccess(outcome, providers);
      && (r.Success? <==> exists i :: 0 <= i < |providers| && outcome(providers[i]).Success?)
      && (r.Success? ==> exists i :: FirstSucceedsAt(outcome, providers, i) && r == outcome(providers[i]))
      && (r.Failure? ==> r == Fail("All search providers failed"))
    decreases |providers|
  {
    if providers != [] {
      var rest := providers[1..];
      FirstSuccessMeaning(outcome, rest);
      if outcome(providers[0]).Success? {
        assert FirstSucceedsAt(outcome, providers, 0);
      } else {
        forall i | 0 <= i < |rest| ensures rest[i] == providers[i + 1] { }
        if FirstSuccess(outcome, rest).Success? {
          var i :| FirstSucceedsAt(outcome, rest, i) && FirstSuccess(outcome, rest) == outcome(rest[i]);
          assert FirstSucceedsAt(outcome, providers, i + 1);
        } else {
          forall i | 0 <= i < |providers| ensures outcome(providers[i]).Failure? {
            if i > 0 {
              assert providers[i] == rest[i - 1];
            }
          }
        }
      }
    }
  }

  /** From position `k` on, the chain's answer is provider `k`'s when it succeeds, and otherwise
      the answer of the providers after it. */
  lemma FirstSuccessStep(outcome: Provider -> Result<seq<Hit>>, providers: seq<Provider>, k: nat)
    requires k < |providers|
    ensures FirstSuccess(outcome, providers[k..]) ==
      if outcome(providers[k]).Success? then outcome(providers[k]) else FirstSuccess(outcome, providers[k + 1..])
  {
    assert providers[k..][0] == providers[k];
    assert providers[k..][1..] == providers[k + 1..];
  }

  /** `before` are the delays of `providers[..k]`: adding those of `providers[k]` gives all the
      delays when it succeeds, and the delays of `providers[..k + 1]` otherwise. */
  lemma ChainDelaysStep(outcome: Provider -> Result<seq<Hit>>, delay: Provider -> seq<nat>, providers: seq<Provider>, k: nat,
                        before: seq<nat>)
    requires k < |providers| && before + ChainDelays(outcome, delay, providers[k..]) == ChainDelays(outcome, delay, providers)
    ensures outcome(providers[k]).Success? ==> before + delay(providers[k]) == ChainDelays(outcome, delay, providers)
    ensures outcome(providers[k]).Failure? ==>
      (before + delay(providers[k])) + ChainDelays(outcome, delay, providers[k + 1..]) == ChainDelays(outcome, delay, providers)
  {
    var p := providers[k];
    assert providers[k..][0] == p;
    assert providers[k..][1..] == providers[k + 1..];
    if outcome(p).Success? {
      assert delay(p) + [] == delay(p);
    } else {
      var rest := ChainDelays(outcome, delay, providers[k + 1..]);
      assert (before + delay(p)) + rest == before + (delay(p) + rest);
    }
  }

  lemma ChainDelaysCons(outcome: Provider -> Result<seq<Hit>>, delay: Provider -> seq<nat>, p: Provider, rest: seq<Provider>)
    ensures ChainDelays(outcome, delay, [p] + rest) ==
      delay(p) + if outcome(p).Success? then [] else ChainDelays(outcome, delay, rest)
  {
    assert ([p] + rest)[0] == p;
    assert ([p] + rest)[1..] == rest;
  }

  /** In a run of the chain, the delays slept are exactly those of the providers tried, in order:
      a provider after the first success is never called. */
  lemma {:induction false} ChainRunWaits(outcome: Provider -> Result<seq<Hit>>, delay: Provider -> seq<nat>,
                                         providers: seq<Provider>, r: Result<seq<Hit>>, tried: seq<Provider>)
    requires ChainRun(outcome, providers, r, tried)
    ensures ChainWaits(delay, tried) == ChainDelays(outcome, delay, providers)
    decreases |providers|
  {
    var p, rest := providers[0], providers[1..];
    assert tried[0] == p;
    ChainDelaysCons(outcome, delay, p, rest);
    assert providers == [p] + rest;
    if outcome(p).Success? {
      assert |tried| == 1;
      assert ChainWaits(delay, tried[1..]) == [];
    } else if |tried| == 1 {
      assert rest == [];
      assert ChainWaits(delay, tried[1..]) == [];
    } else {
      var later := tried[1..];
      assert later == rest[..|later|];
      forall i | 0 <= i < |later| - 1 ensures outcome(later[i]).Failure? {
        assert later[i] == tried[i + 1];
      }
      assert later[|later| - 1] == tried[|tried| - 1];
      ChainRunWaits(outcome, delay, rest, r, later);
    }
  }

  /** Every answer a provider gives holds at most `maxResults` hits, and at least one when
      `maxResults` allows it. */
  lemma OutcomeBounds(net: Network, apiKey: Option<string>, p: Provider, query: string, maxResults: nat)
    ensures var o := Outcome(net, apiKey, p, query, maxResults);
      o.Success? ==> |o.value| <= maxResults && (maxResults >= 1 ==> |o.value| >= 1)
  {
  }

  /** A run of the chain `providers` that called `tried` and answered `r`: the providers called are
      a prefix of the chain, each but the last failed, a success is the last one's answer, a failure
      means every provider was called, and `r` is the chain's answer. */
  ghost predicate ChainRun(outcome: Provider -> Result<seq<Hit>>, providers: seq<Provider>, r: Result<seq<Hit>>, tried: seq<Provider>) {
    && 1 <= |tried| <= |providers| && tried == providers[..|tried|]
    && (forall i :: 0 <= i < |tried| - 1 ==> outcome(tried[i]).Failure?)
    && (r.Success? ==> r == outcome(tried[|tried| - 1]))
    && (r.Failure? ==> tried == providers && outcome(tried[|tried| - 1]).Failure?)
    && r == FirstSuccess(outcome, providers)
  }

  /** A provider that succeeds ends the run at once. */
  lemma ChainRunHead(outcome: Provider -> Result<seq<Hit>>, p: Provider, rest: seq<Provider>)
    requires outcome(p).Success?
    ensures ChainRun(outcome, [p] + rest, outcome(p), [p])
  {
    assert ([p] + rest)[..1] == [p];
  }

  /** A provider that fails hands the run on to the providers after it. */
  lemma ChainRunCons(outcome: Provider -> Result<seq<Hit>>, p: Provider, rest: seq<Provider>, r: Result<seq<Hit>>, tried: seq<Provider>)
    requires outcome(p).Failure?
    requires ChainRun(outcome, rest, r, tried)
    ensures ChainRun(outcome, [p] + rest, r, [p] + tried)
  {
    assert ([p] + rest)[1..] == rest;
    assert ([p] + rest)[..|tried| + 1] == [p] + tried;
    forall i | 0 <= i < |tried| ensures ([p] + tried)[i + 1] == tried[i] { }
  }

  /** The loop over `ps` has reached `ps[i]`: every provider before it failed, and `waits` are
      their delays. */
  ghost predicate PublicSoFar(outcome: Provider -> Result<seq<Hit>>, delay: Provider -> seq<nat>, ps: seq<Provider>, i: nat,
                              waits: seq<nat>) {
    && i <= |ps|
    && (forall j :: 0 <= j < i ==> outcome(ps[j]).Failure?)
    && FirstSuccess(outcome, ps[i..]) == FirstSuccess(outcome, ps)
    && waits + ChainDelays(outcome, delay, ps[i..]) == ChainDelays(outcome, delay, ps)
  }

  lemma PublicStep(outcome: Provider -> Result<seq<Hit>>, delay: Provider -> seq<nat>, ps: seq<Provider>, i: nat, waits: seq<nat>)
    requires i < |ps| && PublicSoFar(outcome, delay, ps, i, waits)
    ensures outcome(ps[i]).Success? ==>
      ChainRun(outcome, ps, outcome(ps[i]), ps[..i + 1]) && waits + delay(ps[i]) == ChainDelays(outcome, delay, ps)
    ensures outcome(ps[i]).Failure? ==> PublicSoFar(outcome, delay, ps, i + 1, waits + delay(ps[i]))
  {
    FirstSuccessStep(outcome, ps, i);
    ChainDelaysStep(outcome, delay, ps, i, waits);
  }

  lemma PublicDone(outcome: Provider -> Result<seq<Hit>>, delay: Provider -> seq<nat>, ps: seq<Provider>, waits: seq<nat>)
    requires 1 <= |ps| && PublicSoFar(outcome, delay, ps, |ps|, waits)
    ensures ChainRun(outcome, ps, Fail("All search providers failed"), ps) && waits == ChainDelays(outcome, delay, ps)
  {
    assert ps[|ps|..] == [];
    assert FirstSuccess(outcome, ps) == Fail("All search providers failed");
    assert waits + [] == waits;
    assert ps[..|ps|] == ps;
    assert outcome(ps[|ps| - 1]).Failure?;
  }

  /** The `for` loop of `searchWeb` over the public instances. `tried` lists the instances called
      and `waits` the delays they slept, in order. */
  method SearchPublic(net: Network, apiKey: Option<string>, query: string, maxResults: nat)
    returns (r: Result<seq<Hit>>, waits: seq<nat>, ghost tried: seq<Provider>)
    ensures ChainRun(Outcomes(net, apiKey, query, maxResults), PublicProviders(), r, tried)
    ensures waits == ChainDelays(Outcomes(net, apiKey, query, maxResults), DelaysOf(net, apiKey, query, maxResults), PublicProviders())
  {
    ghost var outcome := Outcomes(net, apiKey, query, maxResults);
    ghost var delay := DelaysOf(net, apiKey, query, maxResults);
    ghost var ps := PublicProviders();
    var i := 0;
    waits := [];
    while i < |PublicSearxngInstances|
      invariant PublicSoFar(outcome, delay, ps, i, waits)
    {
      var instance := PublicSearxngInstances[i];
      var attempts, w;
      r, attempts, w := SearchSearxng(net, instance, query, maxResults, "No results from SearXNG " + instance);
      assert r == outcome(ps[i]);
      assert w == delay(ps[i]);
      PublicStep(outcome, delay, ps, i, waits);
      waits := waits + w;
      if r.Success? {
        tried := ps[..i + 1];
        return;
      }
      i := i + 1;
    }
    PublicDone(outcome, delay, ps, waits);
    r, tried := Fail("All search providers failed"), ps;
  }

  /** The part of `searchWeb` after the local instance failed. */
  method SearchFallbacks(net: Network, apiKey: Option<string>, query: string, maxResults: nat)
    returns (r: Result<seq<Hit>>, waits: seq<nat>, ghost tried: seq<Provider>)
    ensures ChainRun(Outcomes(net, apiKey, query, maxResults), Fallbacks(apiKey), r, tried)
    ensures waits == ChainDelays(Outcomes(net, apiKey, query, maxResults), DelaysOf(net, apiKey, query, maxResults), Fallbacks(apiKey))
  {
    ghost var outcome := Outcomes(net, apiKey, query, maxResults);
    ghost var delay := DelaysOf(net, apiKey, query, maxResults);
    if KeyConfigured(apiKey) {
      var attempts, w;
      r, attempts, w := SearchScraperApi(net, apiKey, query, maxResults);
      assert r == outcome(ScraperApiProvider);
      assert w == delay(ScraperApiProvider);
      ChainDelaysCons(outcome, delay, ScraperApiProvider, PublicProviders());
      if r.Success? {
        ChainRunHead(outcome, ScraperApiProvider, PublicProviders());
        assert w + [] == w;
        waits, tried := w, [ScraperApiProvider];
        return;
      }
      var later;
      ghost var laterTried;
      r, later, laterTried := SearchPublic(net, apiKey, query, maxResults);
      ChainRunCons(outcome, ScraperApiProvider, PublicProviders(), r, laterTried);
      waits, tried := w + later, [ScraperApiProvider] + laterTried;
    } else {
      assert Fallbacks(apiKey) == PublicProviders();
      r, waits, tried := SearchPublic(net, apiKey, query, maxResults);
    }
  }

  /** `searchWeb(query, maxResults)`: its answer is `WebOutcome` and `waits` are the delays it
      sleeps, `WebWaits`. In the model, `tried` is a run of the whole chain: the providers up to and
      including the first that succeeds, and `waits` are exactly their delays, in order. */
  method SearchWeb(net: Network, apiKey: Option<string>, query: string, maxResults: nat)
    returns (r: Result<seq<Hit>>, waits: seq<nat>, ghost tried: seq<Provider>)
    ensures r == WebOutcome(net, apiKey, query, maxResults)
    ensures waits == WebWaits(net, apiKey, query, maxResults)
    ensures ChainRun(Outcomes(net, apiKey, query, maxResults), Chain(apiKey), r, tried)
    ensures waits == ChainWaits(DelaysOf(net, apiKey, query, maxResults), tried)
  {
    ghost var outcome := Outcomes(net, apiKey, query, maxResults);
    ghost var delay := DelaysOf(net, apiKey, query, maxResults);
    var attempts, w;
    r, attempts, w := SearchSearxng(net, LocalSearxng, query, maxResults, "No results from SearXNG local");
    assert r == outcome(LocalSearxngProvider);
    assert w == delay(LocalSearxngProvider);
    ChainDelaysCons(outcome, delay, LocalSearxngProvider, Fallbacks(apiKey));
    if r.Success? {
      ChainRunHead(outcome, LocalSearxngProvider, Fallbacks(apiKey));
      assert w + [] == w;
      waits, tried := w, [LocalSearxngProvider];
    } else {
      var later;
      ghost var laterTried;
      r, later, laterTried := SearchFallbacks(net, apiKey, query, maxResults);
      ChainRunCons(outcome, LocalSearxngProvider, Fallbacks(apiKey), r, laterTried);
      waits, tried := w + later, [LocalSearxngProvider] + laterTried;
    }
    ChainRunWaits(outcome, delay, Chain(apiKey), r, tried);
  }

  /** A successful search answers with at most `maxResults` hits. */
  lemma WebOutcomeBound(net: Network, apiKey: Option<string>, query: string, maxResults: nat)
    ensures WebOutcome(net, apiKey, query, maxResults).Success? ==> |WebOutcome(net, apiKey, query, maxResults).value| <= maxResults
  {
    WebOutcomeMeaning(net, apiKey, query, maxResults);
  }

  /** `searchWeb` answers with the first provider of the chain that succeeds, with at most
      `maxResults` hits and at least one when `maxResults` allows it; when none succeeds it throws
      "All search providers failed". */
  lemma WebOutcomeMeaning(net: Network, apiKey: Option<string>, query: string, maxResults: nat)
    ensures var r := WebOutcome(net, apiKey, query, maxResults); var c := Chain(apiKey);
      && (r.Success? <==> exists i :: 0 <= i < |c| && Outcome(net, apiKey, c[i], query, maxResults).Success?)
      && (r.Success? ==> exists i :: FirstSucceedsAt(Outcomes(net, apiKey, query, maxResults), c, i)
                                    && r == Outcome(net, apiKey, c[i], query, maxResults))
      && (r.Success? ==> |r.value| <= maxResults && (maxResults >= 1 ==> |r.value| >= 1))
      && (r.Failure? ==> r == Fail("All search providers failed"))
  {
    var outcome := Outcomes(net, apiKey, query, maxResults);
    var c := Chain(apiKey);
    FirstSuccessMeaning(outcome, c);
    var r := WebOutcome(net, apiKey, query, maxResults);
    if r.Success? {
      var i :| FirstSucceedsAt(outcome, c, i) && r == outcome(c[i]);
      OutcomeBounds(net, apiKey, c[i], query, maxResults);
    }
  }
}
