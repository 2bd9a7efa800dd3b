/**
 * The offline cache manager (the service worker of the application).
 *
 * The browser's cache storage is a sequence of named partitions in creation
 * order, each a map from request URL to stored response; `caches.match`
 * searches the partitions in that order. The network is an oracle: a URL it
 * maps resolves with that response (whatever its status), any other URL makes
 * `fetch` reject. Every handler is a pure function from (request, network,
 * store) to the response handed to the page, the new store and the list of
 * URLs fetched; the class `CacheWorker` applies them to its store.
 */
module ServiceWorker {
  import opened Types
  import opened Text

  datatype Response = Response(status: int, contentType: string, body: string)

  /** `response.ok`. */
  predicate IsOk(r: Response) {
    200 <= r.status <= 299
  }

  datatype Mode = Navigate | SameOrigin | NoCors | Cors

  /** An intercepted request; `accept` is the Accept header (None when absent). */
  datatype Request = Request(url: string, isGet: bool, mode: Mode, accept: Option<string>)

  datatype Partition = Partition(name: string, entries: map<string, Response>)

  /** The cache storage: named partitions in creation order. */
  type Store = seq<Partition>

  /** The network: URL -> the response `fetch` resolves with; absent means `fetch` rejects. */
  type Network = map<string, Response>

  const CacheName := "enaa-lecture-congo-v1"
  const StaticCache := "enaa-static-v1"
  const DynamicCache := "enaa-dynamic-v1"

  /** The install-time manifest, as paths relative to the worker's origin. */
  const StaticAssets: seq<string> := ["/", "/eleve", "/globals.css", "/manifest.json"]

  /** URL fragments that route a request to the cache-first strategy. */
  const StaticMarkers: seq<string> := ["/static/", ".css", ".js", ".png", ".jpg", ".jpeg", ".gif", ".svg"]

  const ImageFallback := Response(200, "text/plain", "Image non disponible")
  const OfflinePage := Response(200, "text/html", "App ENAA hors ligne")

  // ---------------------------------------------------------------- URLs

  /** `new URL(url).protocol`: the scheme, lower-cased, with its colon ("" when there is none). */
  function Protocol(url: string): (p: string)
    ensures p == [] <==> ':' !in url
    ensures p != [] ==> |p| <= |url| && url[|p| - 1] == ':' && ':' !in url[..|p| - 1]
    ensures p != [] ==> p == ToLower(url[..|p|])
  {
    if url == [] then []
    else if url[0] == ':' then ":"
    else
      var rest := Protocol(url[1..]);
      if rest == [] then [] else [LowerChar(url[0])] + rest
  }

  predicate IsHttp(url: string) {
    Protocol(url) == "http:" || Protocol(url) == "https:"
  }

  /** A URL as the page or the manifest writes it, made absolute against the worker's origin. */
  function Resolve(origin: string, url: string): string {
    if IsHttp(url) then url
    else if url != [] && url[0] == '/' then origin + url
    else origin + "/" + url
  }

  function ResolveAll(origin: string, urls: seq<string>): (r: seq<string>)
    ensures |r| == |urls|
    ensures forall i :: 0 <= i < |urls| ==> r[i] == Resolve(origin, urls[i])
  {
    if urls == [] then [] else [Resolve(origin, urls[0])] + ResolveAll(origin, urls[1..])
  }

  predicate ContainsAny(s: string, subs: seq<string>) {
    exists i :: 0 <= i < |subs| && Contains(s, subs[i])
  }

  /** The cache-first test: a substring test on the whole URL. */
  predicate IsStaticUrl(url: string) {
    ContainsAny(url, StaticMarkers)
  }

  /** The URLs for which a failed cache-first fetch is replaced by a text placeholder. */
  predicate IsImageUrl(url: string) {
    Contains(url, ".png") || Contains(url, ".jpg")
  }

  /** Every image URL is a static one, so the placeholder belongs to the cache-first branch only. */
  lemma ImageUrlIsStatic(url: string)
    ensures IsImageUrl(url) ==> IsStaticUrl(url)
  {
    if Contains(url, ".png") {
      assert Contains(url, StaticMarkers[3]);
    } else if Contains(url, ".jpg") {
      assert Contains(url, StaticMarkers[4]);
    }
  }

  // ---------------------------------------------------------------- classification

  datatype Kind =
    | NotHttp        // ignored: no response supplied
    | StaticAsset    // cache-first
    | Page           // network-first with the offline ladder
    | MissingAccept  // `request.headers.get('accept')` is null: `.includes` throws
    | Generic        // network-first, cache on failure

  function Classify(req: Request): (k: Kind)
    ensures k == NotHttp <==> !IsHttp(req.url)
    ensures k == StaticAsset <==> IsHttp(req.url) && IsStaticUrl(req.url)
    ensures k == MissingAccept <==>
      IsHttp(req.url) && !IsStaticUrl(req.url) && req.mode != Navigate && req.accept.None?
    ensures k == Page <==>
      IsHttp(req.url) && !IsStaticUrl(req.url) &&
      (req.mode == Navigate || (req.accept.Some? && Contains(req.accept.value, "text/html")))
  {
    if !IsHttp(req.url) then NotHttp
    else if IsStaticUrl(req.url) then StaticAsset
    else if req.mode == Navigate then Page
    else if req.accept.None? then MissingAccept
    else if Contains(req.accept.value, "text/html") then Page
    else Generic
  }

  // ---------------------------------------------------------------- cache storage

  function Names(store: Store): (r: seq<string>)
    ensures |r| == |store|
    ensures forall i :: 0 <= i < |store| ==> r[i] == store[i].name
  {
    if store == [] then [] else [store[0].name] + Names(store[1..])
  }

  /** Index of the first partition called `name`. */
  function Find(store: Store, name: string): (r: Option<nat>)
    ensures r.Some? ==> r.value < |store| && store[r.value].name == name
    ensures r.Some? ==> forall j :: 0 <= j < r.value ==> store[j].name != name
    ensures r.None? <==> forall j :: 0 <= j < |store| ==> store[j].name != name
  {
    if store == [] then None
    else if store[0].name == name then Some(0)
    else match Find(store[1..], name)
      case None => None
      case Some(i) => Some(i + 1)
  }

  /** The entry for `url` in the partition called `name` (`caches.open(name)` then `cache.match(url)`). */
  function Lookup(store: Store, name: string, url: string): Option<Response> {
    match Find(store, name)
    case None => None
    case Some(i) => if url in store[i].entries then Some(store[i].entries[url]) else None
  }

  /** `caches.match(url)`: the entry of the first partition, in creation order, that has one. */
  function Match(store: Store, url: string): (r: Option<Response>)
    ensures r.None? <==> forall i :: 0 <= i < |store| ==> url !in store[i].entries
    ensures r.Some? ==> exists i :: 0 <= i < |store| && url in store[i].entries && store[i].entries[url] == r.value
  {
    if store == [] then None
    else if url in store[0].entries then Some(store[0].entries[url])
    else
      var r := Match(store[1..], url);
      assert r.Some? ==> exists i :: 1 <= i < |store| && url in store[i].entries && store[i].entries[url] == r.value by {
        if r.Some? {
          var j :| 0 <= j < |store[1..]| && url in store[1..][j].entries && store[1..][j].entries[url] == r.value;
          assert store[j + 1] == store[1..][j];
        }
      }
      r
  }

  /** `caches.open(name)`: creates an empty partition at the end when none has that name. */
  function Open(store: Store, name: string): (r: Store)
    ensures Find(r, name).Some?
    ensures Find(store, name).Some? ==> r == store
    ensures Find(store, name).None? ==> r == store + [Partition(name, map[])]
  {
    if Find(store, name).Some? then store
    else
      var r := store + [Partition(name, map[])];
      assert r[|store|].name == name;
      r
  }

  /** `cache.put(url, r)` into the partition called `name`, opened first. */
  function Put(store: Store, name: string, url: string, r: Response): (s: Store)
    ensures Lookup(s, name, url) == Some(r)
    ensures forall n, u :: n != name || u != url ==> Lookup(s, n, u) == Lookup(store, n, u)
    ensures Names(s) == Names(Open(store, name))
  {
    var o := Open(store, name);
    var i := Find(o, name).value;
    var s := o[i := Partition(name, o[i].entries[url := r])];
    PutLookups(store, name, url, r, o, i, s);
    s
  }

  lemma PutLookups(store: Store, name: string, url: string, r: Response, o: Store, i: nat, s: Store)
    requires o == Open(store, name) && Find(o, name) == Some(i)
    requires s == o[i := Partition(name, o[i].entries[url := r])]
    ensures Lookup(s, name, url) == Some(r)
    ensures forall n, u :: n != name || u != url ==> Lookup(s, n, u) == Lookup(store, n, u)
    ensures Names(s) == Names(o)
  {
    forall n, u | n != name || u != url ensures Lookup(s, n, u) == Lookup(store, n, u) {
      LookupUpdated(o, i, name, url, r, n, u);
      LookupOpen(store, name, n, u);
    }
    FindSameNames(s, o, name);
    assert Names(s) == Names(o);
  }

  /** Updating the entry of `url` in partition `i` (the first called `name`) leaves every other lookup alone. */
  lemma LookupUpdated(o: Store, i: nat, name: string, url: string, r: Response, n: string, u: string)
    requires Find(o, name) == Some(i)
    requires n != name || u != url
    ensures Lookup(o[i := Partition(name, o[i].entries[url := r])], n, u) == Lookup(o, n, u)
  {
    var s := o[i := Partition(name, o[i].entries[url := r])];
    FindSameNames(s, o, n);
  }

  lemma LookupOpen(store: Store, name: string, n: string, u: string)
    ensures Lookup(Open(store, name), n, u) == Lookup(store, n, u)
  {
    if Find(store, name).None? {
      var p := Partition(name, map[]);
      if Find(store, n).Some? {
        FindAppend(store, p, n);
      } else {
        assert Find(store + [p], n).Some? ==> n == name;
      }
    }
  }

  lemma {:induction false} FindSameNames(s: Store, t: Store, n: string)
    requires |s| == |t| && forall i :: 0 <= i < |s| ==> s[i].name == t[i].name
    ensures Find(s, n) == Find(t, n)
  {
    if s != [] && s[0].name != n {
      FindSameNames(s[1..], t[1..], n);
    }
  }

  lemma {:induction false} FindAppend(s: Store, p: Partition, n: string)
    requires Find(s, n).Some?
    ensures Find(s + [p], n) == Find(s, n)
  {
    if s[0].name != n {
      assert (s + [p])[1..] == s[1..] + [p];
      FindAppend(s[1..], p, n);
    }
  }

  /** `caches.delete(name)`: every partition called `name` removed, the others kept in order. */
  function Delete(store: Store, name: string): Store
  {
    if store == [] then []
    else if store[0].name == name then Delete(store[1..], name)
    else [store[0]] + Delete(store[1..], name)
  }

  /** The partitions whose name is in `keep`, in their order. */
  function Where(store: Store, keep: set<string>): Store
  {
    if store == [] then []
    else if store[0].name in keep then [store[0]] + Where(store[1..], keep)
    else Where(store[1..], keep)
  }

  /** The sweep keeps exactly the partitions whose name is in `keep`. */
  lemma {:induction false} WhereMembers(store: Store, keep: set<string>)
    ensures forall p :: p in Where(store, keep) <==> p in store && p.name in keep
  {
    if store != [] {
      WhereMembers(store[1..], keep);
      assert forall p :: p in store <==> p == store[0] || p in store[1..];
    }
  }

  /** `caches.delete(name)` removes exactly the partitions called `name`. */
  lemma {:induction false} DeleteMembers(store: Store, name: string)
    ensures forall p :: p in Delete(store, name) <==> p in store && p.name != name
  {
    if store != [] {
      DeleteMembers(store[1..], name);
      assert forall p :: p in store <==> p == store[0] || p in store[1..];
    }
  }

  lemma {:induction false} DeleteWhere(store: Store, keep: set<string>, name: string)
    ensures Delete(Where(store, keep), name) == Where(store, keep - {name})
  {
    if store != [] {
      DeleteWhere(store[1..], keep, name);
    }
  }

  lemma {:induction false} WhereAgree(store: Store, k1: set<string>, k2: set<string>)
    requires forall i :: 0 <= i < |store| ==> (store[i].name in k1 <==> store[i].name in k2)
    ensures Where(store, k1) == Where(store, k2)
  {
    if store != [] {
      WhereAgree(store[1..], k1, k2);
    }
  }

  lemma {:induction false} WhereAll(store: Store, keep: set<string>)
    requires forall i :: 0 <= i < |store| ==> store[i].name in keep
    ensures Where(store, keep) == store
  {
    if store != [] {
      WhereAll(store[1..], keep);
    }
  }

  // ---------------------------------------------------------------- fetch strategies

  datatype Outcome =
    | Ignored          // the listener returned without `respondWith`
    | Threw            // the listener threw before `respondWith`
    | Served(response: Response)
    | NetworkError     // `respondWith` got a promise for `undefined` or a rejection

  /** What one intercepted request produces: the page's outcome, the new store, the URLs fetched. */
  datatype Step = Step(outcome: Outcome, store: Store, fetched: seq<string>)

  /** `caches.match(request)`: a non-GET request never matches. */
  function MatchRequest(store: Store, req: Request): (r: Option<Response>)
    ensures r.None? <==> !req.isGet || forall i :: 0 <= i < |store| ==> req.url !in store[i].entries
    ensures r.Some? ==> exists i :: 0 <= i < |store| && req.url in store[i].entries && store[i].entries[req.url] == r.value
  {
    if req.isGet then Match(store, req.url) else None
  }

  /**
   * `caches.open(name)` then `cache.put(request, r)`. The partition is opened in
   * every case; the put rejects (unawaited, so no entry changes) for non-GET
   * requests and 206 responses.
   */
  function PutRequest(store: Store, name: string, req: Request, r: Response): (s: Store)
    ensures Find(s, name).Some?
    ensures Names(s) == Names(Open(store, name))
  {
    if req.isGet && r.status != 206 then Put(store, name, req.url, r) else Open(store, name)
  }

  /** Cache first: the stored response, else the network (stored into the static partition), else the image placeholder. */
  function CacheFirst(req: Request, net: Network, store: Store): (st: Step)
    ensures st.fetched == [] <==> MatchRequest(store, req).Some?
    ensures st.fetched != [] ==> st.fetched == [req.url]
  {
    match MatchRequest(store, req)
    case Some(r) => Step(Served(r), store, [])
    case None =>
      if req.url in net then
        Step(Served(net[req.url]), PutRequest(store, StaticCache, req, net[req.url]), [req.url])
      else if IsImageUrl(req.url) then Step(Served(ImageFallback), store, [req.url])
      else Step(NetworkError, store, [req.url])
  }

  /** Network first for pages: stored into the dynamic partition on success; on failure the request's entry, then the root page, then the offline page. */
  function NetworkFirstPage(origin: string, req: Request, net: Network, store: Store): (st: Step)
    ensures st.outcome.Served? && st.fetched == [req.url]
  {
    if req.url in net then
      Step(Served(net[req.url]), PutRequest(store, DynamicCache, req, net[req.url]), [req.url])
    else
      match MatchRequest(store, req)
      case Some(r) => Step(Served(r), store, [req.url])
      case None =>
        match Match(store, Resolve(origin, "/"))
        case Some(r) => Step(Served(r), store, [req.url])
        case None => Step(Served(OfflinePage), store, [req.url])
  }

  /** The default strategy: the network, else whatever the cache holds; never writes. */
  function NetworkFirst(req: Request, net: Network, store: Store): (st: Step)
    ensures st.store == store && st.fetched == [req.url]
    ensures st.outcome.Served? <==> req.url in net || MatchRequest(store, req).Some?
  {
    if req.url in net then Step(Served(net[req.url]), store, [req.url])
    else
      match MatchRequest(store, req)
      case Some(r) => Step(Served(r), store, [req.url])
      case None => Step(NetworkError, store, [req.url])
  }

  /** The `fetch` listener. */
  function HandleFetch(origin: string, req: Request, net: Network, store: Store): (st: Step)
    ensures st.outcome == Ignored <==> !IsHttp(req.url)
    ensures st.fetched == [] || st.fetched == [req.url]
  {
    match Classify(req)
    case NotHttp => Step(Ignored, store, [])
    case MissingAccept => Step(Threw, store, [])
    case StaticAsset => CacheFirst(req, net, store)
    case Page => NetworkFirstPage(origin, req, net, store)
    case Generic => NetworkFirst(req, net, store)
  }

  // ---------------------------------------------------------------- install, activate, messages

  /** Each URL stored into partition `name` with the response the network gives it. */
  function PutAll(store: Store, name: string, urls: seq<string>, net: Network): (s: Store)
    requires forall i :: 0 <= i < |urls| ==> urls[i] in net
    decreases |urls|
  {
    if urls == [] then store
    else PutAll(Put(store, name, urls[0], net[urls[0]]), name, urls[1..], net)
  }

  predicate AllFetchOk(urls: seq<string>, net: Network) {
    forall i :: 0 <= i < |urls| ==> urls[i] in net && IsOk(net[urls[i]])
  }

  /** `cache.addAll(urls)` on partition `name`: everything stored when every fetch is ok, nothing otherwise. */
  function AddAll(store: Store, name: string, urls: seq<string>, net: Network): Store {
    if AllFetchOk(urls, net) then PutAll(store, name, urls, net) else store
  }

  /** The `install` listener: open the static partition, then add the manifest (a failure is caught). */
  function InstallStore(origin: string, net: Network, store: Store): Store {
    AddAll(Open(store, StaticCache), StaticCache, ResolveAll(origin, StaticAssets), net)
  }

  const CurrentNames: set<string> := {StaticCache, DynamicCache}

  /** The `activate` listener's effect: every partition not named STATIC_CACHE or DYNAMIC_CACHE deleted. */
  function Sweep(store: Store): Store {
    Where(store, CurrentNames)
  }

  datatype Message = SkipWaitingMsg | CacheUrlsMsg(urls: seq<string>) | OtherMsg

  /** The `message` listener's effect on the store. */
  function MessageStore(origin: string, msg: Message, net: Network, store: Store): Store {
    match msg
    case CacheUrlsMsg(urls) => AddAll(Open(store, DynamicCache), DynamicCache, ResolveAll(origin, urls), net)
    case _ => store
  }

  /** The activation sweep as the worker runs it: one `caches.delete` per name outside `keep`. */
  method DeleteOutside(orig: Store, keep: set<string>) returns (store: Store)
    ensures store == Where(orig, keep)
  {
      store := orig;
      var names := Names(store);
      // The names still present: those in `keep` and those the loop has not reached yet.
      ghost var present := keep + set n | n in names;
      WhereAll(orig, present);
      var i := 0;
      while i < |names|
        invariant 0 <= i <= |names|
        invariant store == Where(orig, present)
        invariant forall j :: 0 <= j < |orig| ==>
          (orig[j].name in present <==> orig[j].name in keep || orig[j].name !in names[..i])
      {
        var name := names[i];
        SweepStep(orig, names, keep, present, i);
        if name !in keep {
          DeleteWhere(orig, present, name);
          store := Delete(store, name);
          present := present - {name};
        }
        i := i + 1;
      }
      forall j | 0 <= j < |orig|
        ensures orig[j].name in present <==> orig[j].name in keep
      {
        assert orig[j].name == names[..|names|][j];
      }
      WhereAgree(orig, present, keep);
  }

  /** One turn of the sweep: dropping `names[i]` unless kept moves it from "not reached" to "removed". */
  lemma SweepStep(orig: Store, names: seq<string>, keep: set<string>, present: set<string>, i: nat)
    requires i < |names|
    requires forall j :: 0 <= j < |orig| ==>
      (orig[j].name in present <==> orig[j].name in keep || orig[j].name !in names[..i])
    ensures var next := if names[i] in keep then present else present - {names[i]};
      forall j :: 0 <= j < |orig| ==>
        (orig[j].name in next <==> orig[j].name in keep || orig[j].name !in names[..i + 1])
  {
    assert names[..i + 1] == names[..i] + [names[i]];
  }


  // ---------------------------------------------------------------- properties of the handlers

  /** A request whose protocol is neither http: nor https: gets no response, no fetch and no cache change. */
  lemma NonHttpIgnored(origin: string, req: Request, net: Network, store: Store)
    requires !IsHttp(req.url)
    ensures HandleFetch(origin, req, net, store) == Step(Ignored, store, [])
  {
  }

  /** The static test comes first: a navigation whose URL looks static is served cache-first. */
  lemma StaticBeforeNavigation(origin: string, req: Request, net: Network, store: Store)
    requires IsHttp(req.url) && IsStaticUrl(req.url) && req.mode == Navigate
    ensures HandleFetch(origin, req, net, store) == CacheFirst(req, net, store)
  {
  }

  /** A non-navigation, non-static request without an Accept header makes the listener throw. */
  lemma MissingAcceptThrows(origin: string, req: Request, net: Network, store: Store)
    requires IsHttp(req.url) && !IsStaticUrl(req.url) && req.mode != Navigate && req.accept.None?
    ensures HandleFetch(origin, req, net, store) == Step(Threw, store, [])
  {
  }

  /** Cache first, hit: the stored response, no fetch, the store unchanged. */
  lemma CacheFirstHit(origin: string, req: Request, net: Network, store: Store, r: Response)
    requires Classify(req) == StaticAsset && MatchRequest(store, req) == Some(r)
    ensures HandleFetch(origin, req, net, store) == Step(Served(r), store, [])
  {
  }

  /** Cache first, miss, fetch resolves (any status): exactly that request is stored in the static partition. */
  lemma CacheFirstMissStores(origin: string, req: Request, net: Network, store: Store)
    requires Classify(req) == StaticAsset && MatchRequest(store, req).None? && req.url in net
    requires req.isGet && net[req.url].status != 206
    ensures var st := HandleFetch(origin, req, net, store);
      && st.outcome == Served(net[req.url]) && st.fetched == [req.url]
      && Lookup(st.store, StaticCache, req.url) == Some(net[req.url])
      && forall n, u :: n != StaticCache || u != req.url ==> Lookup(st.store, n, u) == Lookup(store, n, u)
  {
  }

  /** Cache first, miss, a refused put (non-GET or 206): the response is still served and the static partition is opened, but no entry changes. */
  lemma CacheFirstRefusedPut(origin: string, req: Request, net: Network, store: Store)
    requires Classify(req) == StaticAsset && MatchRequest(store, req).None? && req.url in net
    requires !req.isGet || net[req.url].status == 206
    ensures var st := HandleFetch(origin, req, net, store);
      && st.outcome == Served(net[req.url]) && st.fetched == [req.url]
      && st.store == Open(store, StaticCache)
      && Find(st.store, StaticCache).Some?
      && forall n, u :: Lookup(st.store, n, u) == Lookup(store, n, u)
  {
    forall n, u ensures Lookup(Open(store, StaticCache), n, u) == Lookup(store, n, u) {
      LookupOpen(store, StaticCache, n, u);
    }
  }

  /** Cache first, miss, fetch rejects: the text placeholder exactly for '.png'/'.jpg' URLs, otherwise no response. */
  lemma CacheFirstMissFails(origin: string, req: Request, net: Network, store: Store)
    requires Classify(req) == StaticAsset && MatchRequest(store, req).None? && req.url !in net
    ensures var st := HandleFetch(origin, req, net, store);
      && st.store == store && st.fetched == [req.url]
      && st.outcome == (if IsImageUrl(req.url) then Served(ImageFallback) else NetworkError)
  {
  }

  /** A page request always gets a response. */
  lemma PageAlwaysServed(origin: string, req: Request, net: Network, store: Store)
    requires Classify(req) == Page
    ensures HandleFetch(origin, req, net, store).outcome.Served?
  {
  }

  /** Page, network success: the live response, stored in the dynamic partition. */
  lemma PageSuccessStores(origin: string, req: Request, net: Network, store: Store)
    requires Classify(req) == Page && req.url in net && req.isGet && net[req.url].status != 206
    ensures var st := HandleFetch(origin, req, net, store);
      && st.outcome == Served(net[req.url])
      && Lookup(st.store, DynamicCache, req.url) == Some(net[req.url])
      && forall n, u :: n != DynamicCache || u != req.url ==> Lookup(st.store, n, u) == Lookup(store, n, u)
  {
  }

  /** Page, network failure: the request's own entry, else the cached root, else the offline page; the store unchanged. */
  lemma PageFallbackOrder(origin: string, req: Request, net: Network, store: Store)
    requires Classify(req) == Page && req.url !in net
    ensures var st := HandleFetch(origin, req, net, store);
      && st.store == store
      && st.outcome == Served(
        if MatchRequest(store, req).Some? then MatchRequest(store, req).value
        else if Match(store, Resolve(origin, "/")).Some? then Match(store, Resolve(origin, "/")).value
        else OfflinePage)
  {
  }

  /** The default strategy never writes; on failure it answers with the cache's entry, which may be absent. */
  lemma GenericNeverWrites(origin: string, req: Request, net: Network, store: Store)
    requires Classify(req) == Generic
    ensures var st := HandleFetch(origin, req, net, store);
      && st.store == store
      && (req.url in net ==> st.outcome == Served(net[req.url]))
      && (req.url !in net ==>
            st.outcome == if MatchRequest(store, req).Some? then Served(MatchRequest(store, req).value) else NetworkError)
  {
  }

  /**
   * An entry changes only for the request being handled, only to the response
   * the network gave it, and only when that response is what the page received.
   */
  lemma OnlyServedResponsesAreCached(origin: string, req: Request, net: Network, store: Store, n: string, u: string)
    requires Lookup(HandleFetch(origin, req, net, store).store, n, u) != Lookup(store, n, u)
    ensures var st := HandleFetch(origin, req, net, store);
      && u == req.url && u in net && st.fetched == [u]
      && st.outcome == Served(net[u])
      && Lookup(st.store, n, u) == Some(net[u])
  {
    if req.url in net {
      PutRequestLookup(store, StaticCache, req, net[req.url], n, u);
      PutRequestLookup(store, DynamicCache, req, net[req.url], n, u);
    }
  }

  /** A lookup that a `PutRequest` changes is the one it stored. */
  lemma PutRequestLookup(store: Store, name: string, req: Request, r: Response, n: string, u: string)
    ensures Lookup(PutRequest(store, name, req, r), n, u) != Lookup(store, n, u) ==>
      n == name && u == req.url && Lookup(PutRequest(store, name, req, r), n, u) == Some(r)
  {
    LookupOpen(store, name, n, u);
  }

  // ---------------------------------------------------------------- properties of install, activate, messages

  lemma {:induction false} LookupWhere(store: Store, keep: set<string>, n: string, u: string)
    requires n in keep
    ensures Lookup(Where(store, keep), n, u) == Lookup(store, n, u)
  {
    if store != [] && store[0].name != n {
      LookupWhere(store[1..], keep, n, u);
      if store[0].name in keep {
        assert Where(store, keep)[1..] == Where(store[1..], keep);
      }
    }
  }

  /** Activation keeps exactly the STATIC_CACHE and DYNAMIC_CACHE partitions, untouched, and deletes the rest (CACHE_NAME included). */
  lemma SweepKeepsCurrent(store: Store)
    ensures forall p :: p in Sweep(store) <==> p in store && (p.name == StaticCache || p.name == DynamicCache)
    ensures forall u :: Lookup(Sweep(store), StaticCache, u) == Lookup(store, StaticCache, u)
    ensures forall u :: Lookup(Sweep(store), DynamicCache, u) == Lookup(store, DynamicCache, u)
    ensures Find(Sweep(store), CacheName).None?
  {
    WhereMembers(store, CurrentNames);
    forall u ensures Lookup(Sweep(store), StaticCache, u) == Lookup(store, StaticCache, u) {
      LookupWhere(store, CurrentNames, StaticCache, u);
    }
    forall u ensures Lookup(Sweep(store), DynamicCache, u) == Lookup(store, DynamicCache, u) {
      LookupWhere(store, CurrentNames, DynamicCache, u);
    }
    var s := Sweep(store);
    forall j | 0 <= j < |s| ensures s[j].name != CacheName {
      assert s[j] in s;
    }
  }

  /** After `PutAll`, each listed URL maps to its network response; every other entry is as before. */
  lemma {:induction false} PutAllLookup(store: Store, name: string, urls: seq<string>, net: Network, n: string, u: string)
    requires forall i :: 0 <= i < |urls| ==> urls[i] in net
    ensures Lookup(PutAll(store, name, urls, net), n, u) ==
      if n == name && u in urls then Some(net[u]) else Lookup(store, n, u)
    decreases |urls|
  {
    if urls != [] {
      var s1 := Put(store, name, urls[0], net[urls[0]]);
      PutAllLookup(s1, name, urls[1..], net, n, u);
      assert u in urls <==> u == urls[0] || u in urls[1..];
    }
  }

  /** Install always leaves a static partition, whatever the network does. */
  lemma InstallOpensStatic(origin: string, net: Network, store: Store)
    ensures Find(InstallStore(origin, net, store), StaticCache).Some?
  {
    AddAllKeepsOpen(Open(store, StaticCache), StaticCache, ResolveAll(origin, StaticAssets), net);
  }

  /** `addAll` on an opened partition leaves it open, whether or not it stores anything. */
  lemma AddAllKeepsOpen(o: Store, name: string, urls: seq<string>, net: Network)
    requires Find(o, name).Some?
    ensures Find(AddAll(o, name, urls, net), name).Some?
  {
    if AllFetchOk(urls, net) {
      PutAllNames(o, name, urls, net);
      FindSameNames(PutAll(o, name, urls, net), o, name);
    }
  }

  lemma {:induction false} PutAllNames(store: Store, name: string, urls: seq<string>, net: Network)
    requires Find(store, name).Some?
    requires forall i :: 0 <= i < |urls| ==> urls[i] in net
    ensures Names(PutAll(store, name, urls, net)) == Names(store)
    ensures |PutAll(store, name, urls, net)| == |store|
    decreases |urls|
  {
    if urls != [] {
      var s1 := Put(store, name, urls[0], net[urls[0]]);
      assert Names(s1) == Names(store);
      FindSameNames(s1, store, name);
      PutAllNames(s1, name, urls[1..], net);
    }
  }

  /** Install with every manifest fetch ok: each manifest entry is cached in the static partition. */
  lemma InstallStoresManifest(origin: string, net: Network, store: Store)
    requires AllFetchOk(ResolveAll(origin, StaticAssets), net)
    ensures forall i :: 0 <= i < |StaticAssets| ==>
      Lookup(InstallStore(origin, net, store), StaticCache, Resolve(origin, StaticAssets[i]))
        == Some(net[Resolve(origin, StaticAssets[i])])
  {
    var urls := ResolveAll(origin, StaticAssets);
    forall i | 0 <= i < |StaticAssets|
      ensures Lookup(InstallStore(origin, net, store), StaticCache, urls[i]) == Some(net[urls[i]])
    {
      PutAllLookup(Open(store, StaticCache), StaticCache, urls, net, StaticCache, urls[i]);
    }
  }

  /** Install with some manifest fetch failing: the failure is caught and nothing is added. */
  lemma InstallFailureAddsNothing(origin: string, net: Network, store: Store)
    requires !AllFetchOk(ResolveAll(origin, StaticAssets), net)
    ensures InstallStore(origin, net, store) == Open(store, StaticCache)
    ensures forall n, u :: Lookup(InstallStore(origin, net, store), n, u) == Lookup(store, n, u)
  {
    forall n, u ensures Lookup(Open(store, StaticCache), n, u) == Lookup(store, n, u) {
      LookupOpen(store, StaticCache, n, u);
    }
  }

  /** The map from each listed URL to its network response. */
  function Fetched(urls: seq<string>, net: Network): map<string, Response>
    requires forall i :: 0 <= i < |urls| ==> urls[i] in net
  {
    map u | u in urls :: net[u]
  }

  /** On an opened partition, `PutAll` adds the fetched map to it and changes nothing else. */
  lemma {:induction false} PutAllShape(store: Store, name: string, urls: seq<string>, net: Network)
    requires Find(store, name).Some?
    requires forall i :: 0 <= i < |urls| ==> urls[i] in net
    ensures var i := Find(store, name).value;
      PutAll(store, name, urls, net) == store[i := Partition(name, store[i].entries + Fetched(urls, net))]
    decreases |urls|
  {
    var i := Find(store, name).value;
    if urls == [] {
      assert store[i].entries + Fetched(urls, net) == store[i].entries;
      assert store[i := Partition(name, store[i].entries)] == store;
    } else {
      var u0 := urls[0];
      var s1 := Put(store, name, u0, net[u0]);
      PutOpened(store, name, u0, net[u0]);
      PutAllShape(s1, name, urls[1..], net);
      ShapeStep(store, i, name, urls, net, s1);
    }
  }

  lemma ShapeStep(store: Store, i: nat, name: string, urls: seq<string>, net: Network, s1: Store)
    requires i < |store| && urls != []
    requires forall j :: 0 <= j < |urls| ==> urls[j] in net
    requires s1 == store[i := Partition(name, store[i].entries[urls[0] := net[urls[0]]])]
    ensures s1[i := Partition(name, s1[i].entries + Fetched(urls[1..], net))]
      == store[i := Partition(name, store[i].entries + Fetched(urls, net))]
  {
    FetchedStep(store[i].entries, urls, net);
  }

  /** On an opened partition, `Put` updates that partition's entry in place. */
  lemma PutOpened(store: Store, name: string, url: string, r: Response)
    requires Find(store, name).Some?
    ensures var i := Find(store, name).value;
      Put(store, name, url, r) == store[i := Partition(name, store[i].entries[url := r])]
    ensures Find(Put(store, name, url, r), name) == Find(store, name)
  {
    var i := Find(store, name).value;
    var s := store[i := Partition(name, store[i].entries[url := r])];
    assert Put(store, name, url, r) == s;
    FindSameNames(s, store, name);
  }

  lemma FetchedStep(e: map<string, Response>, urls: seq<string>, net: Network)
    requires urls != []
    requires forall i :: 0 <= i < |urls| ==> urls[i] in net
    ensures e[urls[0] := net[urls[0]]] + Fetched(urls[1..], net) == e + Fetched(urls, net)
  {
    var a := e[urls[0] := net[urls[0]]] + Fetched(urls[1..], net);
    var b := e + Fetched(urls, net);
    FetchedStepEntries(e, urls, net);
    assert a.Keys == b.Keys;
  }

  lemma FetchedStepEntries(e: map<string, Response>, urls: seq<string>, net: Network)
    requires urls != []
    requires forall i :: 0 <= i < |urls| ==> urls[i] in net
    ensures forall k :: k in e[urls[0] := net[urls[0]]] + Fetched(urls[1..], net) <==> k in e + Fetched(urls, net)
    ensures forall k :: k in e[urls[0] := net[urls[0]]] + Fetched(urls[1..], net) ==>
      (e[urls[0] := net[urls[0]]] + Fetched(urls[1..], net))[k] == (e + Fetched(urls, net))[k]
  {
    forall k ensures k in urls <==> k == urls[0] || k in urls[1..] {
      assert urls == [urls[0]] + urls[1..];
    }
  }

  /** `PutAll` leaves an opened partition alone when it already holds every fetched entry. */
  lemma PutAllFixed(store: Store, name: string, urls: seq<string>, net: Network)
    requires Find(store, name).Some?
    requires forall i :: 0 <= i < |urls| ==> urls[i] in net
    requires store[Find(store, name).value].entries + Fetched(urls, net) == store[Find(store, name).value].entries
    ensures PutAll(store, name, urls, net) == store
  {
    PutAllShape(store, name, urls, net);
  }

  /** Writing the same URLs twice into an opened partition is the same as writing them once. */
  lemma PutAllTwice(store: Store, name: string, urls: seq<string>, net: Network)
    requires Find(store, name).Some?
    requires forall i :: 0 <= i < |urls| ==> urls[i] in net
    ensures PutAll(PutAll(store, name, urls, net), name, urls, net) == PutAll(store, name, urls, net)
  {
    var i := Find(store, name).value;
    var f := Fetched(urls, net);
    var once := PutAll(store, name, urls, net);
    PutAllShape(store, name, urls, net);
    assert once == store[i := Partition(name, store[i].entries + f)];
    FindSameNames(once, store, name);
    MergeTwice(store[i].entries, f);
    PutAllFixed(once, name, urls, net);
  }

  /** Merging the same map twice is merging it once. */
  lemma MergeTwice(e: map<string, Response>, f: map<string, Response>)
    ensures (e + f) + f == e + f
  {
  }

  /** Sending the same CACHE_URLS message twice leaves the store as one message does (one entry per URL). */
  lemma CacheUrlsIdempotent(origin: string, urls: seq<string>, net: Network, store: Store)
    ensures var once := MessageStore(origin, CacheUrlsMsg(urls), net, store);
      MessageStore(origin, CacheUrlsMsg(urls), net, once) == once
  {
    var rs := ResolveAll(origin, urls);
    var o := Open(store, DynamicCache);
    if AllFetchOk(rs, net) {
      var once := PutAll(o, DynamicCache, rs, net);
      PutAllNames(o, DynamicCache, rs, net);
      FindSameNames(once, o, DynamicCache);
      assert Open(once, DynamicCache) == once;
      PutAllTwice(o, DynamicCache, rs, net);
    } else {
      assert Open(o, DynamicCache) == o;
    }
  }

  // ---------------------------------------------------------------- scenarios

  /** One manifest entry answering with an error status (a 404, say) leaves the static partition as it was: nothing of the manifest is cached. */
  lemma InstallManifest404(origin: string, net: Network, store: Store)
    requires Resolve(origin, "/manifest.json") in net && !IsOk(net[Resolve(origin, "/manifest.json")])
    ensures InstallStore(origin, net, store) == Open(store, StaticCache)
  {
    var urls := ResolveAll(origin, StaticAssets);
    assert urls[3] == Resolve(origin, StaticAssets[3]);
  }

  // ---------------------------------------------------------------- the worker

  class CacheWorker {
    const origin: string
    var caches: Store
    /** `self.skipWaiting()` was called. */
    var skipWaitingCalled: bool
    /** `self.clients.claim()` was called. */
    var clientsClaimed: bool

    constructor (origin: string, existing: Store)
      ensures this.origin == origin && caches == existing
      ensures !skipWaitingCalled && !clientsClaimed
    {
      this.origin := origin;
      caches := existing;
      skipWaitingCalled := false;
      clientsClaimed := false;
    }

    method Install(net: Network)
      modifies this
      ensures caches == InstallStore(origin, net, old(caches))
      ensures skipWaitingCalled && clientsClaimed == old(clientsClaimed)
    {
      caches := InstallStore(origin, net, caches);
      skipWaitingCalled := true;
    }

    /** Deletes, one name at a time, every partition that is not current. */
    method Activate()
      modifies this
      ensures caches == Sweep(old(caches))
      ensures clientsClaimed && skipWaitingCalled == old(skipWaitingCalled)
    {
      caches := DeleteOutside(caches, CurrentNames);
      clientsClaimed := true;
    }

    method OnFetch(req: Request, net: Network) returns (outcome: Outcome, fetched: seq<string>)
      modifies this
      ensures var st := HandleFetch(origin, req, net, old(caches));
        outcome == st.outcome && caches == st.store && fetched == st.fetched
      ensures skipWaitingCalled == old(skipWaitingCalled) && clientsClaimed == old(clientsClaimed)
    {
      var st := HandleFetch(origin, req, net, caches);
      outcome, caches, fetched := st.outcome, st.store, st.fetched;
    }

    method OnMessage(msg: Message, net: Network)
      modifies this
      ensures caches == MessageStore(origin, msg, net, old(caches))
      ensures skipWaitingCalled == (old(skipWaitingCalled) || msg == SkipWaitingMsg)
      ensures clientsClaimed == old(clientsClaimed)
    {
      if msg == SkipWaitingMsg {
        skipWaitingCalled := true;
      }
      caches := MessageStore(origin, msg, net, caches);
    }
  }
}
