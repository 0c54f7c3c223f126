/** The URL-keyed content cache with lazy TTL expiry, and the content-handle codec. */
module Cache {
  import opened Wrappers
  import Utf8
  import Base64

  /** Entries older than an hour are stale. */
  const CacheTtl: int := 3600000

  /** One row of the `cache` table. */
  datatype Entry = Entry(url: string, content: string, markdown: string, title: string, cachedAt: int)

  /** What a caller hands to `saveToCache`. */
  datatype CacheData = CacheData(content: string, markdown: string, title: string)

  /** The table, keyed by its primary key `url`. */
  type Store = map<string, Entry>

  predicate WellKeyed(store: Store) {
    forall u :: u in store ==> store[u].url == u
  }

  /** An entry read at `now` is live unless its age exceeds the TTL (strictly). */
  predicate IsLive(e: Entry, now: int) {
    now - e.cachedAt <= CacheTtl
  }

  /** What `getFromCache(url)` returns at time `now`. */
  function Read(store: Store, url: string, now: int): Option<Entry> {
    if url in store && IsLive(store[url], now) then Some(store[url]) else None
  }

  /** The table after `getFromCache(url)` at time `now`: a stale row for `url` is deleted. */
  function AfterRead(store: Store, url: string, now: int): Store {
    if url in store && !IsLive(store[url], now) then store - {url} else store
  }

  /** The table after `saveToCache(url, data)` at time `now` (INSERT OR REPLACE). */
  function Upsert(store: Store, url: string, data: CacheData, now: int): Store {
    store[url := Entry(url, data.content, data.markdown, data.title, now)]
  }

  /** A row written at `t` is returned, as written and stamped `t`, by any read whose age is within the TTL. */
  lemma SaveThenRead(store: Store, url: string, data: CacheData, t: int, now: int)
    requires now - t <= CacheTtl
    ensures Read(Upsert(store, url, data, t), url, now) == Some(Entry(url, data.content, data.markdown, data.title, t))
    ensures AfterRead(Upsert(store, url, data, t), url, now) == Upsert(store, url, data, t)
  {
  }

  /** ... and is absent, and purged, for a read whose age exceeds the TTL. */
  lemma SaveThenReadStale(store: Store, url: string, data: CacheData, t: int, now: int)
    requires now - t > CacheTtl
    ensures Read(Upsert(store, url, data, t), url, now) == None
    ensures AfterRead(Upsert(store, url, data, t), url, now) == store - {url}
  {
  }

  /** A save replaces any row for its url and touches no other row. */
  lemma SaveIsolated(store: Store, url: string, data: CacheData, t: int)
    ensures WellKeyed(store) ==> WellKeyed(Upsert(store, url, data, t))
    ensures Upsert(store, url, data, t).Keys == store.Keys + {url}
    ensures forall v :: v in store && v != url ==> Upsert(store, url, data, t)[v] == store[v]
  {
  }

  /** The second of two saves to one url wins. */
  lemma LastWriteWins(store: Store, url: string, d1: CacheData, t1: int, d2: CacheData, t2: int)
    ensures Upsert(Upsert(store, url, d1, t1), url, d2, t2) == Upsert(store, url, d2, t2)
  {
  }

  /** Reading a live row changes nothing; reading a stale row removes that row only; a read
      never answers with a stale row. */
  lemma ReadEffect(store: Store, url: string, now: int)
    ensures Read(store, url, now).Some? ==> AfterRead(store, url, now) == store && Read(store, url, now).value == store[url]
    ensures AfterRead(store, url, now) == store || AfterRead(store, url, now) == store - {url}
    ensures forall v :: v in store && v != url ==> v in AfterRead(store, url, now) && AfterRead(store, url, now)[v] == store[v]
    ensures Read(store, url, now).Some? ==> IsLive(Read(store, url, now).value, now)
    ensures url !in store ==> Read(store, url, now) == None
  {
  }

  /** The answer of a read is unaffected by the purge of a previous read. */
  lemma ReadAfterRead(store: Store, u: string, v: string, now: int)
    ensures Read(AfterRead(store, u, now), v, now) == Read(store, v, now)
  {
  }

  /** The `cache` table of the SQLite file, as an object whose only state is its rows. */
  class ContentCache {
    var entries: Store

    ghost predicate Valid()
      reads this
    {
      WellKeyed(entries)
    }

    constructor ()
      ensures Valid() && entries == map[]
    {
      entries := map[];
    }

    /** `getFromCache(url)`, with `Date.now()` passed in as `now`. */
    method Get(url: string, now: int) returns (r: Option<Entry>)
      requires Valid()
      modifies this
      ensures Valid()
      ensures r == Read(old(entries), url, now)
      ensures entries == AfterRead(old(entries), url, now)
      ensures r.Some? ==> r.value.url == url
    {
      if url !in entries {
        return None;
      }
      var row := entries[url];
      if now - row.cachedAt > CacheTtl {
        entries := entries - {url};
        return None;
      }
      return Some(row);
    }

    /** `saveToCache(url, data)`, with `Date.now()` passed in as `now`. */
    method Save(url: string, data: CacheData, now: int)
      requires Valid()
      modifies this
      ensures Valid()
      ensures entries == Upsert(old(entries), url, data, now)
    {
      entries := entries[url := Entry(url, data.content, data.markdown, data.title, now)];
    }
  }

  /** `generateContentHandle(url)`: Base64 over the UTF-8 bytes of the url. */
  function GenerateContentHandle(url: string): (handle: string)
    ensures |handle| == 4 * ((|Utf8.Encode(url)| + 2) / 3)
    ensures forall i :: 0 <= i < |handle| ==> Base64.IsAlphabetChar(handle[i]) || handle[i] == '='
  {
    var bytes := Utf8.Encode(url);
    Base64.EncodeAlphabet(bytes);
    Base64.Encode(bytes)
  }

  /** `decodeContentHandle(handle)`: the url, or `None` when the handle does not decode. */
  function DecodeContentHandle(handle: string): (url: Option<string>)
    ensures url.Some? ==> GenerateContentHandle(url.value) == handle
  {
    match Base64.Decode(handle)
    case None => None
    case Some(bytes) =>
      match Utf8.Decode(bytes)
      case None => None
      case Some(u) =>
        Base64.DecodeCanonical(handle);
        Utf8.DecodeCanonical(bytes);
        Some(u)
  }

  /** Every url survives the trip through its handle. */
  lemma HandleRoundTrip(url: string)
    ensures DecodeContentHandle(GenerateContentHandle(url)) == Some(url)
  {
    Base64.RoundTrip(Utf8.Encode(url));
    Utf8.RoundTrip(url);
  }
}
