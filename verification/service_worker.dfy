/** The offline service worker: it pre-caches the application shell at
    install, drops caches of older versions at activation, and answers GET
    requests network-first (API calls) or cache-first with background
    revalidation (everything else). The browser's cache storage is a value of
    `CacheStorage`; the network's answer to a request is an input. */
module ServiceWorker {
  import opened NewsTypes

  /** The name of the current version's cache. */
  const CacheName: string := "newspwa-v1"

  /** The parts of a request URL the worker looks at, and the cache key. */
  datatype Url = Url(protocol: string, hostname: string, pathname: string, search: string)

  datatype Request = Request(verb: string, url: Url, mode: string)

  datatype Response = Response(status: int, contentType: string, body: string)

  /** The `ok` flag of a response: a 2xx status. */
  predicate Ok(r: Response) {
    200 <= r.status <= 299
  }

  /** What `fetch(request)` settles with: a response (of any status) or a
      rejection (no network). */
  datatype Network = Answer(response: Response) | Unreachable

  /** What the worker gives the page for one request. */
  datatype Reply =
    | Passthrough            // not intercepted: the browser fetches on its own
    | Served(response: Response)
    | NoResponse             // the navigation fallback found nothing in the cache
    | Rejected               // the network failure reaches the page

  /** The synthesized answer to an API call made offline with nothing cached. */
  const OfflineResponse: Response :=
    Response(503, "application/json", "{\"error\":\"Offline\",\"message\":\"No cached data available\"}")

  /** The shell paths pre-cached at install. */
  const StaticAssets: seq<string> :=
    ["/", "/index.html", "/manifest.json", "/icons/icon-192x192.png", "/icons/icon-512x512.png"]

  /** A path resolved against the worker's own origin. */
  function SameOrigin(origin: Url, path: string): Url {
    Url(origin.protocol, origin.hostname, path, "")
  }

  /** `t` occurs in `s` starting at position `i`. */
  predicate OccursAt(s: string, t: string, i: int) {
    0 <= i <= |s| - |t| && s[i..i + |t|] == t
  }

  /** Whether `t` occurs in `s` (JavaScript `includes`). */
  function Contains(s: string, t: string): (b: bool)
    ensures b <==> exists i :: OccursAt(s, t, i)
  {
    if |s| < |t| then false
    else if s[..|t|] == t then assert OccursAt(s, t, 0); true
    else
      var b := Contains(s[1..], t);
      assert b ==> exists i :: OccursAt(s, t, i) by {
        if b {
          var j :| OccursAt(s[1..], t, j);
          assert s[1..][j..j + |t|] == s[j + 1..j + 1 + |t|];
          assert OccursAt(s, t, j + 1);
        }
      }
      assert (exists i :: OccursAt(s, t, i)) ==> b by {
        if exists i :: OccursAt(s, t, i) {
          var i :| OccursAt(s, t, i);
          assert i != 0;
          assert s[1..][i - 1..i - 1 + |t|] == s[i..i + |t|];
          assert OccursAt(s[1..], t, i - 1);
        }
      }
      b
  }

  /** The worker handles only GET requests that are not browser-extension
      requests. */
  predicate Intercepted(req: Request) {
    req.verb == "GET" && req.url.protocol != "chrome-extension:"
  }

  /** API-like requests: the path mentions `/api/` or the host is the news
      provider's. */
  predicate IsApi(url: Url) {
    Contains(url.pathname, "/api/") || Contains(url.hostname, "newsapi")
  }

  datatype Strategy = NetworkFirst | CacheFirst

  /** The strategy a request is served with, if it is intercepted at all. */
  function StrategyFor(req: Request): (s: Option<Strategy>)
    ensures s.None? <==> req.verb != "GET" || req.url.protocol == "chrome-extension:"
    ensures s == Some(NetworkFirst) <==>
      Intercepted(req) &&
      ((exists i :: OccursAt(req.url.pathname, "/api/", i)) ||
       (exists i :: OccursAt(req.url.hostname, "newsapi", i)))
  {
    if !Intercepted(req) then None
    else if IsApi(req.url) then Some(NetworkFirst)
    else Some(CacheFirst)
  }

  /** The named caches, in creation order, and their entries. */
  datatype CacheStorage = CacheStorage(names: seq<string>, buckets: map<string, map<Url, Response>>)

  ghost predicate WellFormed(cs: CacheStorage) {
    Distinct(cs.names) && forall n :: n in cs.names <==> n in cs.buckets
  }

  /** The first cached response for `u`, searching the caches in creation
      order (`caches.match`). */
  function MatchIn(names: seq<string>, buckets: map<string, map<Url, Response>>, u: Url): (r: Option<Response>)
    ensures r.Some? ==> exists n :: n in names && n in buckets && u in buckets[n] && buckets[n][u] == r.value
    ensures r.None? <==> forall n :: n in names && n in buckets ==> u !in buckets[n]
  {
    if names == [] then None
    else if names[0] in buckets && u in buckets[names[0]] then Some(buckets[names[0]][u])
    else
      assert forall n :: n in names ==> n == names[0] || n in names[1..];
      MatchIn(names[1..], buckets, u)
  }

  function Match(cs: CacheStorage, u: Url): Option<Response> {
    MatchIn(cs.names, cs.buckets, u)
  }

  /** `caches.open(name)`: the cache, created empty at the end of the order if
      it does not exist yet. */
  function Open(cs: CacheStorage, name: string): (r: CacheStorage)
    ensures name in r.buckets
    ensures WellFormed(cs) ==> WellFormed(r)
    ensures forall n :: n in cs.buckets ==> n in r.buckets && r.buckets[n] == cs.buckets[n]
    ensures forall n :: n in r.buckets ==> n in cs.buckets || n == name
  {
    if name in cs.buckets then cs
    else CacheStorage(cs.names + [name], cs.buckets[name := map[]])
  }

  /** `v` is one of the first `k` shell assets, resolved against `origin`. */
  ghost predicate ShellUrl(origin: Url, v: Url, k: nat) {
    exists i :: 0 <= i < k && i < |StaticAssets| && v == SameOrigin(origin, StaticAssets[i])
  }

  /** No shell path is listed twice. */
  lemma StaticAssetsDistinct()
    ensures forall i, j :: 0 <= i < j < |StaticAssets| ==> StaticAssets[i] != StaticAssets[j]
  {
    assert |StaticAssets[0]| == 1 && |StaticAssets[1]| > 1 && |StaticAssets[2]| > 1;
    assert |StaticAssets[3]| > 12 && |StaticAssets[4]| > 12;
    assert StaticAssets[1][1] == 'i' && StaticAssets[2][1] == 'm' && StaticAssets[3][1] == 'i' && StaticAssets[4][1] == 'i';
    assert StaticAssets[1][2] == 'n' && StaticAssets[3][2] == 'c' && StaticAssets[4][2] == 'c';
    assert StaticAssets[3][12] == '1' && StaticAssets[4][12] == '5';
  }

  /** Storing shell asset `k` in a cache that so far differs from `initial`
      only at the first `k` shell assets makes it differ only at the first
      `k + 1`. */
  lemma ShellStep(origin: Url, initial: map<Url, Response>, before: map<Url, Response>, k: nat, resp: Response)
    requires k < |StaticAssets|
    requires forall v :: v in initial && !ShellUrl(origin, v, k) ==> v in before && before[v] == initial[v]
    requires forall v :: v in before ==> v in initial || ShellUrl(origin, v, k)
    ensures var after := before[SameOrigin(origin, StaticAssets[k]) := resp];
      && (forall v :: v in initial && !ShellUrl(origin, v, k + 1) ==> v in after && after[v] == initial[v])
      && (forall v :: v in after ==> v in initial || ShellUrl(origin, v, k + 1))
  {
    var u := SameOrigin(origin, StaticAssets[k]);
    var after := before[u := resp];
    forall v | v in initial && !ShellUrl(origin, v, k + 1) ensures v in after && after[v] == initial[v] {
      assert v != u;
    }
    forall v | v in after ensures v in initial || ShellUrl(origin, v, k + 1) {
      if v == u {
        assert ShellUrl(origin, v, k + 1);
      } else if v !in initial {
        var i :| 0 <= i < k && i < |StaticAssets| && v == SameOrigin(origin, StaticAssets[i]);
      }
    }
  }

  /** The cache `name` replaced by `bucket`, every other cache as it was. */
  function ReplaceBucket(cs: CacheStorage, name: string, bucket: map<Url, Response>): (r: CacheStorage)
    requires name in cs.buckets
    ensures r.names == cs.names
    ensures forall n :: n in r.buckets <==> n in cs.buckets
    ensures WellFormed(cs) ==> WellFormed(r)
    ensures r.buckets[name] == bucket
    ensures forall n :: n != name && n in cs.buckets ==> r.buckets[n] == cs.buckets[n]
  {
    cs.(buckets := cs.buckets[name := bucket])
  }

  /** `cache.addAll` once every answer is in and ok: each shell asset, resolved
      against `origin`, is stored with its answer; every other entry of
      `bucket` stays, and nothing else is added. */
  method AddShell(origin: Url, bucket: map<Url, Response>, answers: seq<Network>) returns (r: map<Url, Response>)
    requires |answers| == |StaticAssets| && forall i :: 0 <= i < |answers| ==> answers[i].Answer?
    ensures forall i :: 0 <= i < |StaticAssets| ==>
      SameOrigin(origin, StaticAssets[i]) in r && r[SameOrigin(origin, StaticAssets[i])] == answers[i].response
    ensures forall v :: v in bucket && !ShellUrl(origin, v, |StaticAssets|) ==> v in r && r[v] == bucket[v]
    ensures forall v :: v in r ==> v in bucket || ShellUrl(origin, v, |StaticAssets|)
  {
    StaticAssetsDistinct();
    r := bucket;
    var k := 0;
    while k < |StaticAssets|
      invariant 0 <= k <= |StaticAssets|
      invariant forall i :: 0 <= i < k ==>
        SameOrigin(origin, StaticAssets[i]) in r && r[SameOrigin(origin, StaticAssets[i])] == answers[i].response
      invariant forall v :: v in bucket && !ShellUrl(origin, v, k) ==> v in r && r[v] == bucket[v]
      invariant forall v :: v in r ==> v in bucket || ShellUrl(origin, v, k)
    {
      ShellStep(origin, bucket, r, k, answers[k].response);
      r := r[SameOrigin(origin, StaticAssets[k]) := answers[k].response];
      k := k + 1;
    }
  }

  /** `cache.put(request, response)` on the cache `name`. */
  function Put(cs: CacheStorage, name: string, u: Url, resp: Response): (r: CacheStorage)
    ensures WellFormed(cs) ==> WellFormed(r)
    ensures name in r.buckets && u in r.buckets[name] && r.buckets[name][u] == resp
    ensures forall v :: v != u && name in cs.buckets && v in cs.buckets[name] ==>
      v in r.buckets[name] && r.buckets[name][v] == cs.buckets[name][v]
    ensures forall v :: v in r.buckets[name] ==> v == u || (name in cs.buckets && v in cs.buckets[name])
    ensures forall n :: n != name && n in cs.buckets ==> n in r.buckets && r.buckets[n] == cs.buckets[n]
    ensures forall n :: n in r.buckets ==> n in cs.buckets || n == name
    ensures r.names == Open(cs, name).names
    ensures name in cs.buckets ==> r.buckets[name] == cs.buckets[name][u := resp]
  {
    var bucketed := Open(cs, name);
    bucketed.(buckets := bucketed.buckets[name := bucketed.buckets[name][u := resp]])
  }

  /** The names other than `name`, in order. */
  function RemoveName(names: seq<string>, name: string): (r: seq<string>)
    ensures forall n {:trigger n in r} :: n in r <==> n in names && n != name
  {
    if names == [] then []
    else (if names[0] == name then [] else [names[0]]) + RemoveName(names[1..], name)
  }

  /** `caches.delete(name)`. */
  function Delete(cs: CacheStorage, name: string): (r: CacheStorage)
    ensures WellFormed(cs) ==> WellFormed(r)
    ensures r.names == RemoveName(cs.names, name)
    ensures r.buckets == cs.buckets - {name}
  {
    var r := CacheStorage(RemoveName(cs.names, name), cs.buckets - {name});
    assert WellFormed(cs) ==> WellFormed(r) by {
      if WellFormed(cs) { RemoveNameDistinct(cs.names, name); }
    }
    r
  }

  lemma {:induction false} RemoveNameDistinct(names: seq<string>, name: string)
    requires Distinct(names)
    ensures Distinct(RemoveName(names, name))
  {
    if names != [] {
      RemoveNameDistinct(names[1..], name);
      var rest := RemoveName(names[1..], name);
      if names[0] != name {
        assert names[0] !in names[1..] by {
          assert forall k :: 0 <= k < |names[1..]| ==> names[1..][k] == names[k + 1];
        }
        var r := [names[0]] + rest;
        forall i, j | 0 <= i < j < |r| ensures r[i] != r[j] {
          assert r[j] == rest[j - 1] && rest[j - 1] in rest;
          if i > 0 { assert r[i] == rest[i - 1]; }
        }
      }
    }
  }

  /** One intercepted request, as a decision: the reply and the cache storage
      after the cache writes the handler starts. `net` is what the network
      answers the request with (for a cached static asset, the answer to the
      background refresh). `origin` is the worker's own origin, against which
      the `/index.html` fallback resolves. */
  function FetchStep(cs: CacheStorage, origin: Url, req: Request, net: Network): (out: (Reply, CacheStorage))
    // not intercepted: the browser handles it and nothing is stored
    ensures !Intercepted(req) ==> out == (Passthrough, cs)
    // network first: a live answer is passed on, and stored only when ok
    ensures Intercepted(req) && IsApi(req.url) && net.Answer? ==>
      out.0 == Served(net.response) &&
      out.1 == (if Ok(net.response) then Put(cs, CacheName, req.url, net.response) else cs)
    // network first, offline: the cached answer, else the 503 JSON answer
    ensures Intercepted(req) && IsApi(req.url) && net.Unreachable? ==>
      out.1 == cs &&
      out.0 == (if Match(cs, req.url).Some? then Served(Match(cs, req.url).value) else Served(OfflineResponse))
    // cache first: a cached answer is served; the refresh overwrites it only when ok
    ensures Intercepted(req) && !IsApi(req.url) && Match(cs, req.url).Some? ==>
      out.0 == Served(Match(cs, req.url).value) &&
      out.1 == (if net.Answer? && Ok(net.response) then Put(cs, CacheName, req.url, net.response) else cs)
    // cache first, nothing cached: the live answer, stored when ok
    ensures Intercepted(req) && !IsApi(req.url) && Match(cs, req.url).None? && net.Answer? ==>
      out.0 == Served(net.response) &&
      out.1 == (if Ok(net.response) then Put(cs, CacheName, req.url, net.response) else cs)
    // cache first, nothing cached, offline: navigations get the cached shell
    ensures Intercepted(req) && !IsApi(req.url) && Match(cs, req.url).None? && net.Unreachable? ==>
      out.1 == cs &&
      out.0 == (if req.mode != "navigate" then Rejected
                else if Match(cs, SameOrigin(origin, "/index.html")).Some?
                then Served(Match(cs, SameOrigin(origin, "/index.html")).value)
                else NoResponse)
  {
    match StrategyFor(req)
    case None => (Passthrough, cs)
    case Some(NetworkFirst) =>
      (match net
       case Answer(resp) =>
         (Served(resp), if Ok(resp) then Put(cs, CacheName, req.url, resp) else cs)
       case Unreachable =>
         (match Match(cs, req.url)
          case Some(cached) => (Served(cached), cs)
          case None => (Served(OfflineResponse), cs)))
    case Some(CacheFirst) =>
      (match Match(cs, req.url)
       case Some(cached) =>
         (Served(cached), if net.Answer? && Ok(net.response) then Put(cs, CacheName, req.url, net.response) else cs)
       case None =>
         (match net
          case Answer(resp) => (Served(resp), if Ok(resp) then Put(cs, CacheName, req.url, resp) else cs)
          case Unreachable =>
            if req.mode == "navigate" then
              (match Match(cs, SameOrigin(origin, "/index.html"))
               case Some(shell) => (Served(shell), cs)
               case None => (NoResponse, cs))
            else (Rejected, cs)))
  }

  /** Caches other than the current one are never written to or created by a
      request. */
  lemma FetchStepWritesOnlyCurrent(cs: CacheStorage, origin: Url, req: Request, net: Network)
    requires WellFormed(cs)
    ensures var after := FetchStep(cs, origin, req, net).1;
      && WellFormed(after)
      && (forall n :: n != CacheName && n in cs.buckets ==> n in after.buckets && after.buckets[n] == cs.buckets[n])
      && (forall n :: n in after.buckets ==> n in cs.buckets || n == CacheName)
  {
  }

  /** Storage after activation: at most the current cache is left. */
  ghost predicate Activated(cs: CacheStorage) {
    WellFormed(cs) && forall n :: n in cs.buckets ==> n == CacheName
  }

  lemma ActivatedNames(cs: CacheStorage)
    requires Activated(cs)
    ensures cs.names == if CacheName in cs.buckets then [CacheName] else []
  {
    if |cs.names| >= 2 {
      DistinctPair(cs.names);
      assert false;
    } else if |cs.names| == 1 {
      assert cs.names[0] in cs.buckets;
    } else {
      assert CacheName !in cs.names;
    }
  }

  /** After activation, what was last put under a URL is what `caches.match`
      finds. */
  lemma MatchAfterPut(cs: CacheStorage, u: Url, resp: Response)
    requires Activated(cs)
    ensures Activated(Put(cs, CacheName, u, resp))
    ensures Match(Put(cs, CacheName, u, resp), u) == Some(resp)
  {
    ActivatedNames(cs);
    var r := Put(cs, CacheName, u, resp);
    assert r.names == [CacheName];
  }

  lemma DistinctPair(s: seq<string>)
    requires Distinct(s) && |s| >= 2
    ensures s[0] in s && s[1] in s && s[0] != s[1]
  {
  }

  /** Network first, end to end: once activated, an API answer that was ok
      is what the same request gets when the network later fails. */
  lemma OfflineApiServesLastGoodAnswer(cs: CacheStorage, origin: Url, req: Request, resp: Response)
    requires Activated(cs) && Intercepted(req) && IsApi(req.url) && Ok(resp)
    ensures var online := FetchStep(cs, origin, req, Answer(resp));
      online.0 == Served(resp) &&
      FetchStep(online.1, origin, req, Unreachable).0 == Served(resp)
  {
    MatchAfterPut(cs, req.url, resp);
  }

  /** Once activated, a failed non-API page navigation with nothing cached for
      its own URL is answered with the cached shell document when the shell was
      stored. */
  lemma OfflineNavigationServesShell(cs: CacheStorage, origin: Url, req: Request, shell: Response)
    requires Activated(cs) && Intercepted(req) && !IsApi(req.url) && req.mode == "navigate"
    requires Match(cs, req.url).None?
    requires CacheName in cs.buckets && SameOrigin(origin, "/index.html") in cs.buckets[CacheName]
    requires cs.buckets[CacheName][SameOrigin(origin, "/index.html")] == shell
    ensures FetchStep(cs, origin, req, Unreachable).0 == Served(shell)
  {
    ActivatedNames(cs);
  }

  /** The caches that survive activation: the current one, if it exists. */
  function OnlyCurrent(names: seq<string>): (r: seq<string>)
    ensures forall n {:trigger n in r} :: n in r <==> n in names && n == CacheName
  {
    if names == [] then []
    else (if names[0] == CacheName then [names[0]] else []) + OnlyCurrent(names[1..])
  }

  lemma {:induction false} RemoveNameAbsent(s: seq<string>, x: string)
    requires x !in s
    ensures RemoveName(s, x) == s
  {
    if s != [] {
      RemoveNameAbsent(s[1..], x);
      assert s == [s[0]] + s[1..];
    }
  }

  lemma {:induction false} RemoveNameSplit(a: seq<string>, b: seq<string>, x: string)
    requires x !in a && |b| > 0 && b[0] == x && x !in b[1..]
    ensures RemoveName(a + b, x) == a + b[1..]
  {
    if a == [] {
      assert a + b == b;
      assert RemoveName(b, x) == [] + RemoveName(b[1..], x);
      RemoveNameAbsent(b[1..], x);
    } else {
      assert (a + b)[0] == a[0];
      assert (a + b)[1..] == a[1..] + b;
      RemoveNameSplit(a[1..], b, x);
      assert a == [a[0]] + a[1..];
    }
  }

  lemma {:induction false} OnlyCurrentAppend(a: seq<string>, b: seq<string>)
    ensures OnlyCurrent(a + b) == OnlyCurrent(a) + OnlyCurrent(b)
  {
    if a == [] {
      assert a + b == b;
    } else {
      assert (a + b)[0] == a[0];
      assert (a + b)[1..] == a[1..] + b;
      OnlyCurrentAppend(a[1..], b);
    }
  }

  /** The storage after deleting, one after the other, those of `names` that
      are not the current cache. */
  function DeleteStale(cs: CacheStorage, names: seq<string>): CacheStorage
  {
    if names == [] then cs
    else
      var before := DeleteStale(cs, names[..|names| - 1]);
      if names[|names| - 1] != CacheName then Delete(before, names[|names| - 1]) else before
  }

  /** What deleting the stale caches among the first k names leaves: the
      order of the rest, and the contents of every cache that is left. */
  ghost predicate StaleDeleted(cs: CacheStorage, k: nat, r: CacheStorage)
    requires k <= |cs.names|
  {
    && WellFormed(r)
    && r.names == OnlyCurrent(cs.names[..k]) + cs.names[k..]
    && (forall n :: n in r.buckets <==> n in cs.buckets && (n == CacheName || n in cs.names[k..]))
    && (forall n :: n in r.buckets ==> r.buckets[n] == cs.buckets[n])
  }

  lemma {:induction false} DeleteStalePrefix(cs: CacheStorage, k: nat)
    requires WellFormed(cs) && k <= |cs.names|
    ensures StaleDeleted(cs, k, DeleteStale(cs, cs.names[..k]))
  {
    if k == 0 {
      assert cs.names[..0] == [];
      assert cs.names[0..] == cs.names;
    } else {
      DeleteStalePrefix(cs, k - 1);
      assert cs.names[..k][..k - 1] == cs.names[..k - 1];
      DeleteStaleStep(cs, k, DeleteStale(cs, cs.names[..k - 1]));
    }
  }

  lemma DeleteStaleStep(cs: CacheStorage, k: nat, before: CacheStorage)
    requires WellFormed(cs) && 0 < k <= |cs.names|
    requires StaleDeleted(cs, k - 1, before)
    ensures StaleDeleted(cs, k,
      if cs.names[k - 1] != CacheName then Delete(before, cs.names[k - 1]) else before)
  {
    var names := cs.names;
    var x := names[k - 1];
    assert names[k - 1..] == [x] + names[k..];
    assert x !in names[k..] by {
      forall j | k <= j < |names| ensures names[j] != x { }
    }
    if x != CacheName {
      var r := Delete(before, x);
      StaleNamesStep(names, k, before.names, r.names);
      StaleBucketsStep(names, k, cs.buckets, before.buckets, r.buckets);
      assert StaleDeleted(cs, k, r);
    } else {
      StaleNamesStep(names, k, before.names, before.names);
      StaleBucketsStep(names, k, cs.buckets, before.buckets, before.buckets);
    }
  }

  lemma StaleBucketsStep(names: seq<string>, k: nat, buckets: map<string, map<Url, Response>>,
                         before: map<string, map<Url, Response>>, after: map<string, map<Url, Response>>)
    requires 0 < k <= |names| && names[k - 1] !in names[k..]
    requires forall n :: n in before <==> n in buckets && (n == CacheName || n in names[k - 1..])
    requires forall n :: n in before ==> before[n] == buckets[n]
    requires after == if names[k - 1] != CacheName then before - {names[k - 1]} else before
    ensures forall n :: n in after <==> n in buckets && (n == CacheName || n in names[k..])
    ensures forall n :: n in after ==> after[n] == buckets[n]
  {
    assert names[k - 1..] == [names[k - 1]] + names[k..];
  }

  lemma StaleNamesStep(names: seq<string>, k: nat, before: seq<string>, after: seq<string>)
    requires 0 < k <= |names| && names[k - 1] !in names[k..]
    requires before == OnlyCurrent(names[..k - 1]) + names[k - 1..]
    requires after == if names[k - 1] != CacheName then RemoveName(before, names[k - 1]) else before
    ensures after == OnlyCurrent(names[..k]) + names[k..]
  {
    var x := names[k - 1];
    assert names[..k] == names[..k - 1] + [x];
    OnlyCurrentAppend(names[..k - 1], [x]);
    assert OnlyCurrent([x]) == (if x == CacheName then [x] else []) + OnlyCurrent([]);
    assert names[k - 1..] == [x] + names[k..];
    if x != CacheName {
      RemoveNameSplit(OnlyCurrent(names[..k - 1]), names[k - 1..], x);
    }
  }

  /** The worker's view of the browser's cache storage. */
  class Worker {
    var storage: CacheStorage
    const origin: Url

    constructor (origin: Url, storage: CacheStorage)
      requires WellFormed(storage)
      ensures this.origin == origin && this.storage == storage
    {
      this.origin := origin;
      this.storage := storage;
    }

    /** Install: open the current cache and add the shell assets with
        `cache.addAll`, which stores all of them or, when any answer is
        missing or not ok, none; the failure is logged and install goes on.
        `answers[i]` is the network's answer for `StaticAssets[i]`. */
    method Install(answers: seq<Network>)
      requires WellFormed(storage) && |answers| == |StaticAssets|
      modifies this
      ensures WellFormed(storage)
      ensures CacheName in storage.buckets
      ensures forall n :: n != CacheName && n in old(storage.buckets) ==>
        n in storage.buckets && storage.buckets[n] == old(storage.buckets)[n]
      ensures storage.names == Open(old(storage), CacheName).names
      ensures forall n :: n in storage.buckets ==> n in old(storage.buckets) || n == CacheName
      ensures (forall i :: 0 <= i < |answers| ==> answers[i].Answer? && Ok(answers[i].response)) ==>
        && (forall i :: 0 <= i < |StaticAssets| ==>
             SameOrigin(origin, StaticAssets[i]) in storage.buckets[CacheName] &&
             storage.buckets[CacheName][SameOrigin(origin, StaticAssets[i])] == answers[i].response)
        && (forall v :: v in Open(old(storage), CacheName).buckets[CacheName] && !ShellUrl(origin, v, |StaticAssets|) ==>
             v in storage.buckets[CacheName] &&
             storage.buckets[CacheName][v] == Open(old(storage), CacheName).buckets[CacheName][v])
        && (forall v :: v in storage.buckets[CacheName] ==>
             v in Open(old(storage), CacheName).buckets[CacheName] || ShellUrl(origin, v, |StaticAssets|))
      ensures !(forall i :: 0 <= i < |answers| ==> answers[i].Answer? && Ok(answers[i].response)) ==>
        storage == Open(old(storage), CacheName)
    {
      storage := Open(storage, CacheName);
      if forall i :: 0 <= i < |answers| ==> answers[i].Answer? && Ok(answers[i].response) {
        var bucket := AddShell(origin, storage.buckets[CacheName], answers);
        storage := ReplaceBucket(storage, CacheName, bucket);
      }
    }

    /** Activate: delete every cache whose name is not the current version's,
        one name at a time. */
    method Activate()
      requires WellFormed(storage)
      modifies this
      ensures Activated(storage)
      ensures storage.names == OnlyCurrent(old(storage.names))
      ensures forall n :: n in storage.buckets <==> n in old(storage.buckets) && n == CacheName
      ensures CacheName in storage.buckets ==> storage.buckets[CacheName] == old(storage.buckets)[CacheName]
    {
      var names := storage.names;
      var i := 0;
      while i < |names|
        invariant 0 <= i <= |names|
        invariant storage == DeleteStale(old(storage), names[..i])
      {
        assert names[..i + 1][..i] == names[..i];
        if names[i] != CacheName {
          storage := Delete(storage, names[i]);
        }
        i := i + 1;
      }
      DeleteStalePrefix(old(storage), |names|);
      assert names[..|names|] == names;
    }

    /** Answer one request; the cache writes the handler starts are applied in
        the same step. */
    method HandleFetch(req: Request, net: Network) returns (reply: Reply)
      requires WellFormed(storage)
      modifies this
      ensures (reply, storage) == FetchStep(old(storage), origin, req, net)
      ensures WellFormed(storage)
    {
      if req.verb != "GET" || req.url.protocol == "chrome-extension:" {
        return Passthrough;
      }
      if IsApi(req.url) {
        if net.Answer? {
          if Ok(net.response) {
            storage := Put(storage, CacheName, req.url, net.response);
          }
          reply := Served(net.response);
        } else {
          var cached := Match(storage, req.url);
          reply := if cached.Some? then Served(cached.value) else Served(OfflineResponse);
        }
      } else {
        var cached := Match(storage, req.url);
        if cached.Some? {
          if net.Answer? && Ok(net.response) {
            storage := Put(storage, CacheName, req.url, net.response);
          }
          reply := Served(cached.value);
        } else if net.Answer? {
          if Ok(net.response) {
            storage := Put(storage, CacheName, req.url, net.response);
          }
          reply := Served(net.response);
        } else if req.mode == "navigate" {
          var shell := Match(storage, SameOrigin(origin, "/index.html"));
          reply := if shell.Some? then Served(shell.value) else NoResponse;
        } else {
          reply := Rejected;
        }
      }
    }
  }
}
