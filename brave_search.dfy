/** The earlier search: a single Brave query whose every failure is rethrown with a
    "Busca falhou: " prefix. Driving the headless browser and reading the result cards off the
    page is an oracle; what it yields, or the error it throws, is the parameter `found`. */
module BraveSearch {
  import opened Wrappers
  import Search

  /** The message a template literal `${e.message}` shows: "undefined" when there is none. */
  function Shown(e: Error): string {
    e.message.GetOr("undefined")
  }

  /** `searchWeb(query, maxResults)`: the first `maxResults` cards found, when there is one;
      "Brave: 0 resultados" when there is none; any error wrapped as "Busca falhou: …". */
  function SearchWeb(found: Result<seq<Search.Hit>>, maxResults: nat): (r: Result<seq<Search.Hit>>)
    ensures r.Success? <==> found.Success? && found.value != [] && maxResults >= 1
    ensures r.Success? ==> 1 <= |r.value| <= maxResults && |r.value| <= |found.value| && r.value == found.value[..|r.value|]
    ensures r.Success? && |r.value| < maxResults ==> r.value == found.value
    ensures found.Failure? ==> r == Fail("Busca falhou: " + Shown(found.error))
    ensures found.Success? && r.Failure? ==> r == Fail("Busca falhou: Brave: 0 resultados")
  {
    if found.Failure? then Fail("Busca falhou: " + Shown(found.error))
    else
      var results := if |found.value| <= maxResults then found.value else found.value[..maxResults];
      if |results| > 0 then Success(results) else Fail("Busca falhou: Brave: 0 resultados")
  }

  /** Every failure of the earlier search carries the "Busca falhou: " prefix. */
  lemma FailuresArePrefixed(found: Result<seq<Search.Hit>>, maxResults: nat)
    ensures var r := SearchWeb(found, maxResults);
      r.Failure? ==> r.error.message.Some? && "Busca falhou: " <= r.error.message.value
  {
  }
}
