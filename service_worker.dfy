/**
 * The service worker's cache policy: precaching on install, purging old
 * caches on activate, cache-first answers to fetches, and the background
 * sync tag. Each handler is one atomic step on the cache storage.
 */
module ServiceWorker {
  import opened Optional
  import opened JsString
  import opened CacheStorage

  const CacheName := "meteo-marine-v2"

  /** `OFFLINE_URL` ('offline.html') resolved against the worker's location at the site root. */
  const OfflineUrl: Url := "/offline.html"

  const CacheFiles: seq<Url> := [
    "/",
    "/index.html",
    "/style.css",
    "/app.js",
    "/manifest.json",
    "/offline.html",
    "https://cdnjs.cloudflare.com/ajax/libs/font-awesome/6.4.0/css/all.min.css"
  ]

  /** Requests to the weather API are left to the browser. */
  const ApiHost := "stormglass.io"

  const SyncTag := "sync-weather"

  /** A request as the fetch handler sees it; `accept` is the Accept header, if any. */
  datatype Request = Request(verb: string, url: Url, accept: Option<string>)

  /** What the fetch handler does with a request. */
  datatype Outcome =
    | PassThrough                        // `respondWith` is not called
    | Respond(response: Option<Response>) // None: the page receives a network error

  predicate IsApi(req: Request) {
    Includes(req.url, ApiHost)
  }

  /** `request.headers.get('accept').includes('text/html')`; a missing header throws, which answers nothing. */
  predicate WantsHtml(req: Request) {
    req.accept.Some? && Includes(req.accept.value, "text/html")
  }

  /** `response.ok` and not a partial response, as `cache.addAll` demands of every fetch. */
  predicate Precachable(r: Response) {
    200 <= r.status <= 299 && r.status != 206
  }

  /** Every file of `CACHE_FILES` came back usable from the network. */
  predicate AllFetched(network: map<Url, Response>) {
    forall u :: u in CacheFiles ==> u in network && Precachable(network[u])
  }

  /** The entries `addAll` stores when every fetch succeeded. */
  function Fetched(network: map<Url, Response>): (e: Entries)
    requires AllFetched(network)
    ensures e.Keys == set u | u in CacheFiles
    ensures forall u :: u in e ==> e[u] == network[u] && Precachable(e[u])
  {
    map u | u in CacheFiles :: network[u]
  }

  /** The entries of the cache `name`, or none when it does not exist. */
  function EntriesOf(caches: map<string, Entries>, name: string): Entries {
    if name in caches then caches[name] else map[]
  }

  /**
   * The install handler: open `CACHE_NAME` and `addAll(CACHE_FILES)`. The
   * batch is all or nothing: with one failed or unusable fetch nothing is
   * stored (the cache is still created) and installation fails.
   * `network` holds the response to each URL; a URL it lacks fails to fetch.
   */
  method Install(storage: Storage, network: map<Url, Response>) returns (installed: bool)
    requires storage.Valid()
    modifies storage
    ensures storage.Valid()
    ensures installed <==> AllFetched(network)
    ensures CacheName in storage.caches
    ensures installed ==> forall u :: u in CacheFiles ==>
              u in storage.caches[CacheName] && storage.caches[CacheName][u] == network[u]
    ensures storage.caches == old(storage.caches)[CacheName :=
              EntriesOf(old(storage.caches), CacheName) + (if installed then Fetched(network) else map[])]
    ensures storage.names == old(storage.names) + (if CacheName in old(storage.caches) then [] else [CacheName])
  {
    storage.Open(CacheName);
    installed := AllFetched(network);
    if installed {
      storage.PutAll(CacheName, Fetched(network));
      assert EntriesOf(old(storage.caches), CacheName) + Fetched(network)
          == storage.caches[CacheName];
    } else {
      assert EntriesOf(old(storage.caches), CacheName) + map[] == storage.caches[CacheName];
    }
  }

  /**
   * The activate handler: delete every cache whose name is not
   * `CACHE_NAME`. Afterwards `CACHE_NAME`, if it existed, is the only cache
   * left, with its entries untouched.
   */
  method Activate(storage: Storage)
    requires storage.Valid()
    modifies storage
    ensures storage.Valid()
    ensures storage.names == if CacheName in old(storage.names) then [CacheName] else []
    ensures storage.caches == if CacheName in old(storage.caches)
                              then map[CacheName := old(storage.caches)[CacheName]]
                              else map[]
  {
    var keys := storage.names;
    var i := 0;
    while i < |keys|
      invariant 0 <= i <= |keys|
      invariant storage.Valid() && keys == old(storage.names) && Distinct(keys)
      invariant storage.names == Kept(keys[..i]) + keys[i..]
      invariant Within(storage.caches, old(storage.caches))
    {
      PurgeOne(storage, keys, i, old(storage.caches));
      i := i + 1;
    }
    assert keys[..i] == keys;
    OnlyCacheNameLeft(old(storage.caches), storage.caches, keys, storage.names);
  }

  /** Every cache of `small` is in `big`, with the same entries. */
  ghost predicate Within(small: map<string, Entries>, big: map<string, Entries>) {
    forall n :: n in small ==> n in big && small[n] == big[n]
  }

  lemma {:induction false} WithinAfterRemoval(small: map<string, Entries>, big: map<string, Entries>, name: string)
    requires Within(small, big)
    ensures Within(small - {name}, big)
  {
  }

  /** What is left once the loop has visited every name. */
  lemma {:induction false} OnlyCacheNameLeft(before: map<string, Entries>, after: map<string, Entries>, keys: seq<string>, names: seq<string>)
    requires forall n :: n in before <==> n in keys
    requires forall n :: n in after <==> n in names
    requires Within(after, before)
    requires names == Kept(keys)
    ensures names == if CacheName in keys then [CacheName] else []
    ensures after == if CacheName in before then map[CacheName := before[CacheName]] else map[]
  {
    if CacheName in before {
      assert after.Keys == {CacheName};
    } else {
      assert after.Keys == {};
    }
  }

  /** One turn of the activate loop: delete `keys[i]` unless it is `CACHE_NAME`. */
  method PurgeOne(storage: Storage, keys: seq<string>, i: int, ghost original: map<string, Entries>)
    requires storage.Valid() && Distinct(keys) && 0 <= i < |keys|
    requires storage.names == Kept(keys[..i]) + keys[i..]
    requires Within(storage.caches, original)
    modifies storage
    ensures storage.Valid()
    ensures storage.names == Kept(keys[..i + 1]) + keys[i + 1..]
    ensures Within(storage.caches, original)
  {
    var name := keys[i];
    ActivateStep(keys, i);
    if name != CacheName {
      ghost var before := storage.caches;
      var _ := storage.Delete(name);
      WithinAfterRemoval(before, original, name);
    }
  }

  /** The names the activate handler has kept among those it has visited. */
  function Kept(visited: seq<string>): (k: seq<string>)
  {
    if CacheName in visited then [CacheName] else []
  }

  /** Visiting one more name keeps `CACHE_NAME` if that is the name. */
  lemma {:induction false} KeptAppend(visited: seq<string>, name: string)
    ensures Kept(visited + [name]) == if name == CacheName then [CacheName] else Kept(visited)
  {
    assert CacheName in visited + [name] <==> CacheName in visited || name == CacheName;
  }

  /** Deleting a visited name other than `CACHE_NAME` drops it from the list. */
  lemma {:induction false} PurgeDrops(visited: seq<string>, name: string, rest: seq<string>)
    requires name != CacheName && name !in visited && name !in rest
    ensures Without(Kept(visited) + ([name] + rest), name) == Kept(visited + [name]) + rest
  {
    var k := Kept(visited);
    KeptAppend(visited, name);
    WithoutSplit(k, name, rest);
    assert k + [name] + rest == k + ([name] + rest);
  }

  /** Visiting `CACHE_NAME` for the first time keeps it in front of the rest. */
  lemma {:induction false} PurgeKeeps(visited: seq<string>, rest: seq<string>)
    requires CacheName !in visited
    ensures Kept(visited) + ([CacheName] + rest) == Kept(visited + [CacheName]) + rest
  {
    KeptAppend(visited, CacheName);
  }

  /** One turn of the activate loop, on the list of names. */
  lemma {:induction false} ActivateStep(keys: seq<string>, i: int)
    requires Distinct(keys) && 0 <= i < |keys|
    ensures keys[i] != CacheName ==>
              Without(Kept(keys[..i]) + keys[i..], keys[i]) == Kept(keys[..i + 1]) + keys[i + 1..]
    ensures keys[i] == CacheName ==> Kept(keys[..i]) + keys[i..] == Kept(keys[..i + 1]) + keys[i + 1..]
  {
    DistinctAt(keys, i);
    assert keys[i..] == [keys[i]] + keys[i + 1..];
    assert keys[..i + 1] == keys[..i] + [keys[i]];
    if keys[i] != CacheName {
      PurgeDrops(keys[..i], keys[i], keys[i + 1..]);
    } else {
      PurgeKeeps(keys[..i], keys[i + 1..]);
    }
  }

  /** The fetch handler's decision, given the cache's and the network's answers. */
  datatype Route =
    | Skip                                   // an API request: not intercepted
    | FromCache(cached: Response)            // cache hit
    | FromNetwork(answer: Response, store: bool) // network answer, stored or not
    | OfflinePage                            // network failed, HTML wanted
    | NoAnswer                               // network failed otherwise

  /**
   * The routing of the fetch handler: API requests are skipped; a cache hit
   * is answered from the cache; on a miss the network answer is returned
   * as it is and stored only with status 200 (and only for a GET, the only
   * method the Cache API stores); when the network fails only HTML requests
   * get the offline page.
   */
  function Decide(req: Request, hit: Option<Response>, network: Option<Response>): (r: Route)
    ensures r.Skip? <==> IsApi(req)
    ensures r.FromCache? <==> !IsApi(req) && hit.Some?
    ensures r.FromCache? ==> r.cached == hit.value
    ensures r.FromNetwork? <==> !IsApi(req) && hit.None? && network.Some?
    ensures r.FromNetwork? ==> r.answer == network.value
    ensures r.FromNetwork? ==> (r.store <==> r.answer.status == 200 && req.verb == "GET")
    ensures r.OfflinePage? <==> !IsApi(req) && hit.None? && network.None? && WantsHtml(req)
  {
    if IsApi(req) then Skip
    else if hit.Some? then FromCache(hit.value)
    else if network.Some? then FromNetwork(network.value, network.value.status == 200 && req.verb == "GET")
    else if WantsHtml(req) then OfflinePage
    else NoAnswer
  }

  /** `caches.match(request)`: non-GET requests never match. */
  function CachedFor(storage: Storage, req: Request): Option<Response>
    reads storage
  {
    if req.verb == "GET" then Lookup(storage.names, storage.caches, req.url) else None
  }

  /**
   * The fetch handler as one step. `network` is what `fetch(request)` would
   * give: a response, or None when it rejects. `fetched` tells whether the
   * network was asked at all. Every status-200 network answer opens
   * `CACHE_NAME`, creating it when missing; only a GET answer is then put.
   */
  method Fetch(storage: Storage, req: Request, network: Option<Response>) returns (outcome: Outcome, fetched: bool)
    requires storage.Valid()
    modifies storage
    ensures storage.Valid()
    ensures var route := Decide(req, old(CachedFor(storage, req)), network);
            && (fetched <==> !route.Skip? && !route.FromCache?)
            && (match route
                case Skip => outcome == PassThrough
                case FromCache(r) => outcome == Respond(Some(r))
                case FromNetwork(r, _) => outcome == Respond(Some(r))
                case OfflinePage => outcome == Respond(old(Lookup(storage.names, storage.caches, OfflineUrl)))
                case NoAnswer => outcome == Respond(None))
            && (if route.FromNetwork? && route.answer.status == 200
                then && storage.names == old(storage.names) + (if CacheName in old(storage.caches) then [] else [CacheName])
                     && storage.caches == old(storage.caches)[CacheName :=
                          if route.store then EntriesOf(old(storage.caches), CacheName)[req.url := route.answer]
                          else EntriesOf(old(storage.caches), CacheName)]
                else unchanged(storage))
  {
    if Includes(req.url, ApiHost) {
      return PassThrough, false;
    }
    var hit: Option<Response> := None;
    if req.verb == "GET" {
      hit := storage.Match(req.url);
    }
    if hit.Some? {
      return Respond(hit), false;
    }
    fetched := true;
    match network
    case Some(response) =>
      if response.status != 200 {
        return Respond(Some(response)), fetched;
      }
      storage.Open(CacheName);
      if req.verb == "GET" {
        storage.Put(CacheName, req.url, response);
      }
      outcome := Respond(Some(response));
    case None =>
      if req.accept.Some? && Includes(req.accept.value, "text/html") {
        var offline := storage.Match(OfflineUrl);
        outcome := Respond(offline);
      } else {
        outcome := Respond(None);
      }
  }

  /**
   * The sync handler: it starts `syncWeatherData` for the weather tag only,
   * and, that function being empty, it never touches the cache storage.
   */
  method Sync(storage: Storage, tag: string) returns (started: bool)
    ensures started <==> tag == SyncTag
    ensures unchanged(storage)
  {
    started := tag == SyncTag;
  }
}
