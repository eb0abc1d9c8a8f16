/** The paginated news feed of one category and the response cache it shares
    with every other feed. The feed's state changes are pure transition
    functions over `FeedState` and the cache's entries; `NewsFeed` is the
    stateful object whose methods perform them. Each fetch is one atomic step;
    `now` is the clock when the fetch starts and `later` when its simulated
    network delay has passed. */
module NewsFeed {
  import opened NewsTypes
  import opened Decimal
  import opened Articles

  /** How long a cached page stays usable, in ms. */
  const CacheDuration: int := 300000

  /** Fetching this page number or a later one ends the feed. */
  const MaxPages: nat := 5

  const LoadErrorMessage: string := "Error al cargar las noticias. Inténtalo de nuevo."

  /** What a feed shows: every category, or one. */
  datatype FeedCategory = All | Only(category: Category)

  /** The feed's name in cache keys. */
  function FeedName(fc: FeedCategory): (name: string)
    ensures |name| >= 3
  {
    match fc
    case All => "all"
    case Only(c) => CategoryName(c)
  }

  /** The cache key of page `page` of a feed: `{category}-{page}`. */
  function CacheKey(fc: FeedCategory, page: nat): string {
    FeedName(fc) + "-" + NatToString(page)
  }

  /** The feed whose name begins with the given two letters. */
  function FeedOfInitials(initials: string): FeedCategory {
    if initials == "ge" then Only(General)
    else if initials == "bu" then Only(Business)
    else if initials == "en" then Only(Entertainment)
    else if initials == "he" then Only(Health)
    else if initials == "sc" then Only(Science)
    else if initials == "sp" then Only(Sports)
    else if initials == "te" then Only(Technology)
    else All
  }

  /** The first two letters of a feed's name identify the feed. */
  lemma InitialsIdentifyFeed(f: FeedCategory)
    ensures FeedOfInitials(FeedName(f)[..2]) == f
  {
    match f
    case All => assert FeedName(f)[..2] == "al";
    case Only(c) =>
      match c
      case General => assert CategoryName(c)[..2] == "ge";
      case Business => assert CategoryName(c)[..2] == "bu";
      case Entertainment => assert CategoryName(c)[..2] == "en";
      case Health => assert CategoryName(c)[..2] == "he";
      case Science => assert CategoryName(c)[..2] == "sc";
      case Sports => assert CategoryName(c)[..2] == "sp";
      case Technology => assert CategoryName(c)[..2] == "te";
  }

  lemma InitialsOfPrefix(s: string, p: string)
    requires |p| >= 2
    ensures StartsWith(s, p) ==> s[..2] == p[..2]
  {
    if StartsWith(s, p) {
      assert s[..2] == s[..|p|][..2];
    }
  }

  /** Invalidating by prefix is exact: the keys starting with a feed's name
      are precisely the keys of that feed's pages. */
  lemma PrefixSelectsFeed(f: FeedCategory, g: FeedCategory, page: nat)
    ensures StartsWith(CacheKey(g, page), FeedName(f)) <==> f == g
  {
    var key := CacheKey(g, page);
    assert key[..|FeedName(g)|] == FeedName(g);
    InitialsIdentifyFeed(f);
    InitialsIdentifyFeed(g);
    InitialsOfPrefix(key, FeedName(f));
    InitialsOfPrefix(key, FeedName(g));
  }

  /** Distinct pages of distinct feeds never share a key. */
  lemma CacheKeyInjective(f: FeedCategory, p: nat, g: FeedCategory, q: nat)
    requires CacheKey(f, p) == CacheKey(g, q)
    ensures f == g && p == q
  {
    PrefixSelectsFeed(f, g, q);
    var key := CacheKey(f, p);
    assert key[..|FeedName(f)|] == FeedName(f);
    assert f == g;
    assert NatToString(p) == key[|FeedName(f)| + 1..];
    assert NatToString(q) == key[|FeedName(g)| + 1..];
    NatToStringInjective(p, q);
  }

  /** A cached page and the time it was stored. */
  datatype CacheEntry = CacheEntry(data: seq<Article>, timestamp: int)

  /** The cached page a fetch may use: one stored under `key` less than five
      minutes before `now`, and never for a refresh. */
  function FreshHit(entries: map<string, CacheEntry>, key: string, now: int, isRefresh: bool): (r: Option<seq<Article>>)
    ensures r.Some? <==> key in entries && now - entries[key].timestamp < CacheDuration && !isRefresh
    ensures r.Some? ==> r.value == entries[key].data
  {
    if key in entries && now - entries[key].timestamp < CacheDuration && !isRefresh
    then Some(entries[key].data)
    else None
  }

  /** The entries whose keys do not start with `prefix`. */
  function WithoutPrefix(entries: map<string, CacheEntry>, prefix: string): (r: map<string, CacheEntry>)
    ensures forall k :: k in r <==> k in entries && !StartsWith(k, prefix)
    ensures forall k :: k in r ==> r[k] == entries[k]
  {
    map k | k in entries && !StartsWith(k, prefix) :: entries[k]
  }

  /** The response cache shared by every feed: page key to page and time. */
  class ResponseCache {
    var entries: map<string, CacheEntry>

    constructor()
      ensures entries == map[]
    {
      entries := map[];
    }

    method Set(key: string, entry: CacheEntry)
      modifies this
      ensures entries == old(entries)[key := entry]
    {
      entries := entries[key := entry];
    }

    /** Deletes, one key at a time, every entry whose key starts with
        `prefix`. */
    method DeleteWithPrefix(prefix: string)
      modifies this
      ensures entries == WithoutPrefix(old(entries), prefix)
    {
      var keys := entries.Keys;
      while keys != {}
        invariant keys <= old(entries).Keys
        invariant forall k :: k in entries <==> k in old(entries) && (k in keys || !StartsWith(k, prefix))
        invariant forall k :: k in entries ==> entries[k] == old(entries)[k]
        decreases keys
      {
        var key :| key in keys;
        if StartsWith(key, prefix) {
          entries := entries - {key};
        }
        keys := keys - {key};
      }
      assert entries.Keys == WithoutPrefix(old(entries), prefix).Keys;
    }
  }

  /** The articles of a feed's first page: the first `pageSize` of the
      sample articles of its category (the feed is given the samples). */
  function FirstPage(fc: FeedCategory, pageSize: nat, samples: seq<Article>): (r: seq<Article>)
    ensures |r| <= pageSize
    ensures forall a :: a in r ==> a in samples
    ensures fc.Only? ==> forall a :: a in r ==> a.category == fc.category
    ensures fc.Only? ==> r == Take(OfCategory(samples, fc.category), pageSize)
    ensures fc.All? ==> |r| == (if pageSize < |samples| then pageSize else |samples|) && r == samples[..|r|]
  {
    match fc
    case All => Take(samples, pageSize)
    case Only(c) => Take(OfCategory(samples, c), pageSize)
  }

  /** A feed of one category relabels every article with that category. */
  function Retag(s: seq<Article>, fc: FeedCategory): (r: seq<Article>)
    ensures |r| == |s|
    ensures fc.All? ==> r == s
    ensures fc.Only? ==> forall i :: 0 <= i < |r| ==> r[i] == s[i].(category := fc.category)
  {
    match fc
    case All => s
    case Only(c) => seq(|s|, i requires 0 <= i < |s| => s[i].(category := c))
  }

  /** The articles a fetch that misses the cache produces: sample articles
      for a plain first-page load, a generated page otherwise (also for a
      refreshed first page), relabelled for a one-category feed. */
  function SynthesizePage(fc: FeedCategory, pageNum: nat, isRefresh: bool, pageSize: nat,
                          samples: seq<Article>, now: int): (r: seq<Article>)
    requires pageNum >= 1
  {
    if pageNum == 1 && !isRefresh then FirstPage(fc, pageSize, samples)
    else Retag(GenerateMoreArticles(pageNum, pageSize, now), fc)
  }

  /** A generated page delivered to a feed has exactly `pageSize` articles
      with distinct ids, all of the feed's category when it has one. */
  lemma GeneratedPageShape(fc: FeedCategory, pageNum: nat, pageSize: nat, now: int)
    requires pageNum >= 1
    ensures var r := Retag(GenerateMoreArticles(pageNum, pageSize, now), fc);
      && |r| == pageSize
      && (fc.Only? ==> forall a :: a in r ==> a.category == fc.category)
      && (forall i, j :: 0 <= i < j < |r| ==> r[i].id != r[j].id)
  {
    var g := GenerateMoreArticles(pageNum, pageSize, now);
    var r := Retag(g, fc);
    GeneratedPageIdsDistinct(pageNum, pageSize, now);
    forall i, j | 0 <= i < j < |r| ensures r[i].id != r[j].id {
      assert r[i].id == g[i].id && r[j].id == g[j].id;
    }
  }

  /** What a fetch delivers to a one-category feed is of that category, at
      most `pageSize` articles, and exactly that many on a generated page, with
      distinct ids. */
  lemma SynthesizedPageShape(fc: FeedCategory, pageNum: nat, isRefresh: bool, pageSize: nat,
                             samples: seq<Article>, now: int)
    requires pageNum >= 1
    ensures var r := SynthesizePage(fc, pageNum, isRefresh, pageSize, samples, now);
      && |r| <= pageSize
      && (fc.Only? ==> forall a :: a in r ==> a.category == fc.category)
      && (pageNum > 1 || isRefresh ==>
            |r| == pageSize && forall i, j :: 0 <= i < j < |r| ==> r[i].id != r[j].id)
  {
    if pageNum > 1 || isRefresh {
      GeneratedPageShape(fc, pageNum, pageSize, now);
    }
  }

  /** The hook's own state. */
  datatype FeedState = FeedState(
    articles: seq<Article>,
    loading: bool,
    error: Option<string>,
    hasMore: bool,
    page: nat,
    refreshing: bool)

  /** A fresh cache hit: page 1 replaces the list, later pages extend it. */
  function ServeCached(st: FeedState, pageNum: nat, data: seq<Article>): (r: FeedState)
    // only the list changes, and it ends with the cached page
    ensures r.(articles := st.articles) == st
    ensures pageNum == 1 ==> r.articles == data
    ensures pageNum != 1 ==>
      |r.articles| == |st.articles| + |data| &&
      r.articles[..|st.articles|] == st.articles && r.articles[|st.articles|..] == data
  {
    st.(articles := if pageNum == 1 then data else st.articles + data)
  }

  /** The synchronous start of a fetch that missed the cache. */
  function StartMiss(st: FeedState, pageNum: nat): (r: FeedState)
    // the list, page and flags stay; the error is cleared; a first page shows the spinner
    ensures r.articles == st.articles && r.page == st.page && r.hasMore == st.hasMore
    ensures r.refreshing == st.refreshing && r.error == None
    ensures r.loading <==> pageNum == 1 || st.loading
  {
    st.(loading := if pageNum == 1 then true else st.loading, error := None)
  }

  /** How a fetch's network phase ends: it completes, or something is
      thrown (an `Error` with a name, or a non-`Error` value). */
  datatype Thrown = ErrorNamed(name: string) | NotAnError
  datatype Outcome = Completed | Threw(thrown: Thrown)

  /** The continuation of a missed fetch: store and show the page, or record
      the failure; either way the feed is idle afterwards. */
  function FinishMiss(st: FeedState, entries: map<string, CacheEntry>, key: string, data: seq<Article>,
                      pageNum: nat, isRefresh: bool, later: int, outcome: Outcome): (r: (FeedState, map<string, CacheEntry>))
    ensures !r.0.loading && !r.0.refreshing && r.0.page == st.page
    // a completed fetch stores the page under its key and leaves every other entry
    ensures outcome.Completed? ==>
      && key in r.1 && r.1[key] == CacheEntry(data, later)
      && (forall k :: k != key ==> (k in r.1 <==> k in entries))
      && (forall k :: k != key && k in entries ==> r.1[k] == entries[k])
      && r.0.error == st.error
    // it replaces the list for page 1 or a refresh, and appends otherwise
    ensures outcome.Completed? && (pageNum == 1 || isRefresh) ==> r.0.articles == data
    ensures outcome.Completed? && !(pageNum == 1 || isRefresh) ==>
      |r.0.articles| == |st.articles| + |data| &&
      r.0.articles[..|st.articles|] == st.articles && r.0.articles[|st.articles|..] == data
    // a failure keeps list and cache, and reports anything but an abort
    ensures outcome.Threw? ==>
      && r.1 == entries && r.0.articles == st.articles
      && r.0.error == (if outcome.thrown.ErrorNamed? && outcome.thrown.name != "AbortError"
                       then Some(LoadErrorMessage) else st.error)
    // only a completed fetch of page 5 or later ends the feed
    ensures r.0.hasMore <==> st.hasMore && !(outcome.Completed? && pageNum >= MaxPages)
  {
    match outcome
    case Completed =>
      (st.(articles := if pageNum == 1 || isRefresh then data else st.articles + data,
           hasMore := if pageNum >= MaxPages then false else st.hasMore,
           loading := false, refreshing := false),
       entries[key := CacheEntry(data, later)])
    case Threw(thrown) =>
      (st.(error := if thrown.ErrorNamed? && thrown.name != "AbortError" then Some(LoadErrorMessage) else st.error,
           loading := false, refreshing := false),
       entries)
  }

  /** Fetching page `pageNum` of feed `fc`. */
  function FetchNews(st: FeedState, entries: map<string, CacheEntry>, fc: FeedCategory, pageSize: nat,
                     samples: seq<Article>, pageNum: nat, isRefresh: bool, now: int, later: int,
                     outcome: Outcome): (r: (FeedState, map<string, CacheEntry>))
    requires pageNum >= 1
    // a fresh hit touches only the list: page 1 replaced, later pages appended
    ensures var hit := FreshHit(entries, CacheKey(fc, pageNum), now, isRefresh);
      hit.Some? ==>
        (r.1 == entries && r.0 == st.(articles := if pageNum == 1 then hit.value else st.articles + hit.value))
    // a miss always ends idle, on the same page
    ensures FreshHit(entries, CacheKey(fc, pageNum), now, isRefresh).None? ==>
      !r.0.loading && !r.0.refreshing && r.0.page == st.page
    // a completed miss stores the page under its key, then replaces or appends
    ensures FreshHit(entries, CacheKey(fc, pageNum), now, isRefresh).None? && outcome.Completed? ==>
      var data := SynthesizePage(fc, pageNum, isRefresh, pageSize, samples, later);
      && r.1 == entries[CacheKey(fc, pageNum) := CacheEntry(data, later)]
      && r.0.articles == (if pageNum == 1 || isRefresh then data else st.articles + data)
      && r.0.error == None
    // a failed miss keeps list, cache and hasMore, and reports non-abort errors
    ensures FreshHit(entries, CacheKey(fc, pageNum), now, isRefresh).None? && outcome.Threw? ==>
      && r.1 == entries && r.0.articles == st.articles && r.0.hasMore == st.hasMore
      && r.0.error == (if outcome.thrown.ErrorNamed? && outcome.thrown.name != "AbortError"
                       then Some(LoadErrorMessage) else None)
    // the feed ends exactly when a fetch of page 5 or later completes from the network
    ensures r.0.hasMore <==>
      st.hasMore && !(FreshHit(entries, CacheKey(fc, pageNum), now, isRefresh).None? &&
                      outcome.Completed? && pageNum >= MaxPages)
  {
    var key := CacheKey(fc, pageNum);
    match FreshHit(entries, key, now, isRefresh)
    case Some(data) => (ServeCached(st, pageNum, data), entries)
    case None =>
      FinishMiss(StartMiss(st, pageNum), entries, key,
                 SynthesizePage(fc, pageNum, isRefresh, pageSize, samples, later),
                 pageNum, isRefresh, later, outcome)
  }

  /** A page stored by a completed fetch is served from the cache to any
      plain fetch of the same page within the next five minutes. */
  lemma StoredPageIsServed(st: FeedState, entries: map<string, CacheEntry>, fc: FeedCategory,
                           pageSize: nat, samples: seq<Article>, pageNum: nat, isRefresh: bool,
                           now: int, later: int, t: int)
    requires pageNum >= 1 && later <= t < later + CacheDuration
    requires FreshHit(entries, CacheKey(fc, pageNum), now, isRefresh).None?
    ensures var r := FetchNews(st, entries, fc, pageSize, samples, pageNum, isRefresh, now, later, Completed);
      FreshHit(r.1, CacheKey(fc, pageNum), t, false)
        == Some(SynthesizePage(fc, pageNum, isRefresh, pageSize, samples, later))
  {
  }

  /** `loadMore`: when idle with pages left, move to the next page and fetch
      it; otherwise nothing happens. */
  function LoadMoreStep(st: FeedState, entries: map<string, CacheEntry>, fc: FeedCategory, pageSize: nat,
                    samples: seq<Article>, now: int, later: int, outcome: Outcome): (r: (FeedState, map<string, CacheEntry>))
    ensures st.loading || !st.hasMore ==> r == (st, entries)
    ensures !st.loading && st.hasMore ==>
      r == FetchNews(st.(page := st.page + 1), entries, fc, pageSize, samples, st.page + 1, false, now, later, outcome)
    ensures !st.loading && st.hasMore ==> r.0.page == st.page + 1
  {
    if !st.loading && st.hasMore then
      FetchNews(st.(page := st.page + 1), entries, fc, pageSize, samples, st.page + 1, false, now, later, outcome)
    else (st, entries)
  }

  /** `refresh`: back to page 1 with pages left, forget this feed's cached
      pages, and fetch page 1 bypassing the cache. */
  function RefreshStep(st: FeedState, entries: map<string, CacheEntry>, fc: FeedCategory, pageSize: nat,
                   samples: seq<Article>, now: int, later: int, outcome: Outcome): (r: (FeedState, map<string, CacheEntry>))
    ensures r.0.page == 1 && r.0.hasMore && !r.0.loading && !r.0.refreshing
    ensures outcome.Completed? ==>
      var data := Retag(GenerateMoreArticles(1, pageSize, later), fc);
      && r.0.articles == data && r.0.error == None
      && r.1 == WithoutPrefix(entries, FeedName(fc))[CacheKey(fc, 1) := CacheEntry(data, later)]
    ensures outcome.Threw? ==>
      r.0.articles == st.articles && r.1 == WithoutPrefix(entries, FeedName(fc))
    ensures outcome.Threw? ==>
      r.0.error == (if outcome.thrown.ErrorNamed? && outcome.thrown.name != "AbortError"
                    then Some(LoadErrorMessage) else None)
  {
    FetchNews(st.(refreshing := true, page := 1, hasMore := true), WithoutPrefix(entries, FeedName(fc)),
              fc, pageSize, samples, 1, true, now, later, outcome)
  }

  /** `reset`: empty list, page 1, pages left, no error. */
  function ResetStep(st: FeedState): (r: FeedState)
    ensures r.articles == [] && r.page == 1 && r.hasMore && r.error == None
    ensures r.loading == st.loading && r.refreshing == st.refreshing
  {
    st.(articles := [], page := 1, hasMore := true, error := None)
  }

  /** The effect that runs when the feed is shown and whenever its category
      changes: reset, then fetch page 1. */
  function ShowCategoryStep(st: FeedState, entries: map<string, CacheEntry>, fc: FeedCategory, pageSize: nat,
                        samples: seq<Article>, now: int, later: int, outcome: Outcome): (r: (FeedState, map<string, CacheEntry>))
    ensures r.0.page == 1 && r.0.hasMore
    // switching back within five minutes shows the cached first page
    ensures var hit := FreshHit(entries, CacheKey(fc, 1), now, false);
      hit.Some? ==>
        && r.1 == entries && r.0.articles == hit.value && r.0.error == None
        && r.0.loading == st.loading && r.0.refreshing == st.refreshing
    // otherwise the fetch ends idle
    ensures FreshHit(entries, CacheKey(fc, 1), now, false).None? ==> !r.0.loading && !r.0.refreshing
    // and, when it completes, shows and stores the category's first page of samples
    ensures outcome.Completed? && FreshHit(entries, CacheKey(fc, 1), now, false).None? ==>
      && r.0.articles == FirstPage(fc, pageSize, samples) && r.0.error == None
      && r.1 == entries[CacheKey(fc, 1) := CacheEntry(FirstPage(fc, pageSize, samples), later)]
    // when it fails, the reset list stays empty, the cache is untouched, and the error is reported
    ensures outcome.Threw? && FreshHit(entries, CacheKey(fc, 1), now, false).None? ==>
      && r.0.articles == [] && r.1 == entries
      && r.0.error == (if outcome.thrown.ErrorNamed? && outcome.thrown.name != "AbortError"
                       then Some(LoadErrorMessage) else None)
  {
    FetchNews(ResetStep(st), entries, fc, pageSize, samples, 1, false, now, later, outcome)
  }

  /** The prefetch effect: when idle with pages left before page 5, and the
      next page's key is not in the cache at all (fresh or stale), store the
      generated next page, as generated, stamped `later`. */
  function PrefetchStep(st: FeedState, entries: map<string, CacheEntry>, fc: FeedCategory, pageSize: nat,
                    later: int): (r: map<string, CacheEntry>)
    ensures entries.Keys <= r.Keys
    ensures forall k :: k in entries ==> r[k] == entries[k]
    ensures r != entries <==>
      st.hasMore && !st.loading && st.page < MaxPages && CacheKey(fc, st.page + 1) !in entries
    ensures r != entries ==>
      r == entries[CacheKey(fc, st.page + 1) := CacheEntry(GenerateMoreArticles(st.page + 1, pageSize, later), later)]
  {
    var key := CacheKey(fc, st.page + 1);
    if st.hasMore && !st.loading && st.page < MaxPages && key !in entries then
      assert key in entries[key := CacheEntry(GenerateMoreArticles(st.page + 1, pageSize, later), later)];
      entries[key := CacheEntry(GenerateMoreArticles(st.page + 1, pageSize, later), later)]
    else entries
  }

  /** Refreshing forgets exactly the refreshed feed's cached pages: every
      other feed's pages are kept as they were, and of its own only the newly
      fetched page 1 is left, when the fetch completed. */
  lemma RefreshInvalidatesOnlyOwnFeed(st: FeedState, entries: map<string, CacheEntry>, fc: FeedCategory,
                                      pageSize: nat, samples: seq<Article>, now: int, later: int,
                                      outcome: Outcome, g: FeedCategory, p: nat)
    ensures var r := RefreshStep(st, entries, fc, pageSize, samples, now, later, outcome).1;
      && (g != fc ==> (CacheKey(g, p) in r <==> CacheKey(g, p) in entries))
      && (g != fc && CacheKey(g, p) in r ==> r[CacheKey(g, p)] == entries[CacheKey(g, p)])
      && (g == fc ==> (CacheKey(g, p) in r <==> p == 1 && outcome.Completed?))
  {
    PrefixSelectsFeed(fc, g, p);
    if CacheKey(g, p) == CacheKey(fc, 1) {
      CacheKeyInjective(g, p, fc, 1);
    }
  }

  /** The states every user-visible step leaves the feed in: idle, and out
      of pages only once page 5 or a later one has been reached. */
  ghost predicate Settled(st: FeedState) {
    !st.loading && !st.refreshing && (!st.hasMore ==> st.page >= MaxPages)
  }

  /** What can happen to a shown feed. */
  datatype FeedEvent =
    | LoadMoreEvent(now: int, later: int, outcome: Outcome)
    | RefreshEvent(now: int, later: int, outcome: Outcome)
    | ShowEvent(fc: FeedCategory, now: int, later: int, outcome: Outcome)
    | PrefetchEvent(later: int)

  /** The feed's state, the shared cache and the category shown. */
  datatype Session = Session(feed: FeedState, entries: map<string, CacheEntry>, category: FeedCategory)

  function Step(s: Session, pageSize: nat, samples: seq<Article>, e: FeedEvent): Session {
    match e
    case LoadMoreEvent(now, later, outcome) =>
      var r := LoadMoreStep(s.feed, s.entries, s.category, pageSize, samples, now, later, outcome);
      Session(r.0, r.1, s.category)
    case RefreshEvent(now, later, outcome) =>
      var r := RefreshStep(s.feed, s.entries, s.category, pageSize, samples, now, later, outcome);
      Session(r.0, r.1, s.category)
    case ShowEvent(fc, now, later, outcome) =>
      var r := ShowCategoryStep(s.feed, s.entries, fc, pageSize, samples, now, later, outcome);
      Session(r.0, r.1, fc)
    case PrefetchEvent(later) =>
      s.(entries := PrefetchStep(s.feed, s.entries, s.category, pageSize, later))
  }

  function Run(s: Session, pageSize: nat, samples: seq<Article>, events: seq<FeedEvent>): Session
    decreases |events|
  {
    if events == [] then s else Run(Step(s, pageSize, samples, events[0]), pageSize, samples, events[1..])
  }

  lemma StepKeepsSettled(s: Session, pageSize: nat, samples: seq<Article>, e: FeedEvent)
    requires Settled(s.feed)
    ensures Settled(Step(s, pageSize, samples, e).feed)
  {
    match e
    case LoadMoreEvent(now, later, outcome) =>
    case RefreshEvent(now, later, outcome) =>
    case ShowEvent(fc, now, later, outcome) =>
    case PrefetchEvent(later) =>
  }

  /** Whatever the user does, in whatever order, a settled feed stays
      settled. */
  lemma {:induction false} EventsKeepSettled(s: Session, pageSize: nat, samples: seq<Article>, events: seq<FeedEvent>)
    requires Settled(s.feed)
    ensures Settled(Run(s, pageSize, samples, events).feed)
    decreases |events|
  {
    if events != [] {
      StepKeepsSettled(s, pageSize, samples, events[0]);
      EventsKeepSettled(Step(s, pageSize, samples, events[0]), pageSize, samples, events[1..]);
    }
  }

  /** A new feed is settled. */
  lemma InitialFeedSettled(initialPage: nat)
    ensures Settled(FeedState([], false, None, true, initialPage, false))
  {
  }

  /** A page 5 stored by the prefetch effect is served as a cache hit, which
      does not end the feed, so a sixth page is fetched and shown. */
  lemma PrefetchedFifthPageAllowsSixth(articles: seq<Article>, pageSize: nat, samples: seq<Article>, t: int)
    ensures var st := FeedState(articles, false, None, true, 4, false);
      var cached := PrefetchStep(st, map[], All, pageSize, t);
      var fifth := LoadMoreStep(st, cached, All, pageSize, samples, t, t + 800, Completed);
      var sixth := LoadMoreStep(fifth.0, fifth.1, All, pageSize, samples, t, t + 800, Completed);
      && fifth.0.page == 5 && fifth.0.hasMore
      && sixth.0.page == 6 && !sixth.0.hasMore
      && sixth.0.articles == articles + GenerateMoreArticles(5, pageSize, t)
                                      + GenerateMoreArticles(6, pageSize, t + 800)
  {
    var st := FeedState(articles, false, None, true, 4, false);
    var cached := PrefetchStep(st, map[], All, pageSize, t);
    assert cached == map[CacheKey(All, 5) := CacheEntry(GenerateMoreArticles(5, pageSize, t), t)];
    if CacheKey(All, 6) == CacheKey(All, 5) {
      CacheKeyInjective(All, 6, All, 5);
    }
  }

  /** A page stored by the prefetch effect keeps the generated categories, so
      a one-category feed that is served it from the cache shows an article of
      another category (pages it fetches itself are relabelled). */
  lemma PrefetchedPageKeepsForeignCategory(articles: seq<Article>, samples: seq<Article>, t: int)
    ensures var st := FeedState(articles, false, None, true, 4, false);
      var cached := PrefetchStep(st, map[], Only(Business), 10, t);
      var fifth := LoadMoreStep(st, cached, Only(Business), 10, samples, t, t + 800, Completed);
      exists a :: a in fifth.0.articles && a.category == Sports
  {
    var g := GenerateMoreArticles(5, 10, t);
    assert g[0].category == AllCategories[40 % 7];
    var st := FeedState(articles, false, None, true, 4, false);
    var cached := PrefetchStep(st, map[], Only(Business), 10, t);
    var fifth := LoadMoreStep(st, cached, Only(Business), 10, samples, t, t + 800, Completed);
    assert fifth.0.articles == articles + g;
    assert fifth.0.articles[|articles|] == g[0];
  }

  /** The feed object: the hook's state, the category it shows, and the
      shared response cache. */
  class Feed {
    const cache: ResponseCache
    var category: FeedCategory
    const pageSize: nat
    /** The sample articles, dated when the module was loaded. */
    const samples: seq<Article>

    var articles: seq<Article>
    var loading: bool
    var error: Option<string>
    var hasMore: bool
    var page: nat
    var refreshing: bool

    function State(): FeedState
      reads this
    {
      FeedState(articles, loading, error, hasMore, page, refreshing)
    }

    constructor(cache: ResponseCache, category: FeedCategory, pageSize: nat, initialPage: nat, loadedAt: int)
      ensures this.cache == cache && this.category == category
      ensures this.pageSize == pageSize && samples == MockArticles(loadedAt)
      ensures State() == FeedState([], false, None, true, initialPage, false)
    {
      this.cache := cache;
      this.category := category;
      this.pageSize := pageSize;
      samples := MockArticles(loadedAt);
      articles := [];
      loading := false;
      error := None;
      hasMore := true;
      page := initialPage;
      refreshing := false;
    }

    /** The part of a fetch before its network delay. Returns whether a
        fresh cached page was used, which ends the fetch. */
    method BeginFetch(pageNum: nat, isRefresh: bool, now: int) returns (served: bool)
      modifies this
      ensures category == old(category)
      ensures var hit := FreshHit(cache.entries, CacheKey(category, pageNum), now, isRefresh);
        && served == hit.Some?
        && (served ==> State() == ServeCached(old(State()), pageNum, hit.value))
        && (!served ==> State() == StartMiss(old(State()), pageNum))
    {
      var key := CacheKey(category, pageNum);
      if key in cache.entries && now - cache.entries[key].timestamp < CacheDuration && !isRefresh {
        var data := cache.entries[key].data;
        if pageNum == 1 {
          articles := data;
        } else {
          articles := articles + data;
        }
        return true;
      }
      if pageNum == 1 {
        loading := true;
      }
      error := None;
      return false;
    }

    /** The part of a missed fetch after its network delay. */
    method CompleteFetch(pageNum: nat, isRefresh: bool, later: int, outcome: Outcome)
      requires pageNum >= 1
      modifies this, cache
      ensures category == old(category)
      ensures (State(), cache.entries) ==
        FinishMiss(old(State()), old(cache.entries), CacheKey(category, pageNum),
                   SynthesizePage(category, pageNum, isRefresh, pageSize, samples, later),
                   pageNum, isRefresh, later, outcome)
    {
      match outcome {
        case Completed =>
          var data := SynthesizePage(category, pageNum, isRefresh, pageSize, samples, later);
          cache.Set(CacheKey(category, pageNum), CacheEntry(data, later));
          if pageNum == 1 || isRefresh {
            articles := data;
          } else {
            articles := articles + data;
          }
          if pageNum >= MaxPages {
            hasMore := false;
          }
        case Threw(thrown) =>
          if thrown.ErrorNamed? && thrown.name != "AbortError" {
            error := Some(LoadErrorMessage);
          }
      }
      loading := false;
      refreshing := false;
    }

    /** `fetchNews(pageNum, isRefresh)` as one step. */
    method Fetch(pageNum: nat, isRefresh: bool, now: int, later: int, outcome: Outcome)
      requires pageNum >= 1
      modifies this, cache
      ensures category == old(category)
      ensures (State(), cache.entries) ==
        FetchNews(old(State()), old(cache.entries), category, pageSize, samples, pageNum, isRefresh, now, later, outcome)
    {
      var served := BeginFetch(pageNum, isRefresh, now);
      if !served {
        CompleteFetch(pageNum, isRefresh, later, outcome);
      }
    }

    method LoadMore(now: int, later: int, outcome: Outcome)
      modifies this, cache
      ensures category == old(category)
      // the two cases of `LoadMoreStep`
      ensures old(loading) || !old(hasMore) ==> State() == old(State()) && cache.entries == old(cache.entries)
      ensures !old(loading) && old(hasMore) ==>
        (State(), cache.entries) ==
          FetchNews(old(State()).(page := old(page) + 1), old(cache.entries), category, pageSize, samples,
                    old(page) + 1, false, now, later, outcome)
    {
      if !loading && hasMore {
        NextPage(now, later, outcome);
      }
    }

    /** The body of `loadMore` once its guard holds: the next page is
        recorded first, then fetched. */
    method NextPage(now: int, later: int, outcome: Outcome)
      modifies this, cache
      ensures category == old(category)
      ensures (State(), cache.entries) ==
        FetchNews(old(State()).(page := old(page) + 1), old(cache.entries), category, pageSize, samples,
                  old(page) + 1, false, now, later, outcome)
    {
      ghost var before := State();
      var nextPage := page + 1;
      page := nextPage;
      assert State() == before.(page := nextPage);
      Fetch(nextPage, false, now, later, outcome);
    }

    method Refresh(now: int, later: int, outcome: Outcome)
      modifies this, cache
      ensures category == old(category)
      ensures (State(), cache.entries) ==
        RefreshStep(old(State()), old(cache.entries), category, pageSize, samples, now, later, outcome)
    {
      refreshing := true;
      page := 1;
      hasMore := true;
      cache.DeleteWithPrefix(FeedName(category));
      Fetch(1, true, now, later, outcome);
    }

    method Reset()
      modifies this
      ensures category == old(category) && cache.entries == old(cache.entries)
      ensures State() == ResetStep(old(State()))
    {
      articles := [];
      page := 1;
      hasMore := true;
      error := None;
    }

    /** Show the feed of `fc`: at mount and on every category change. */
    method ShowCategory(fc: FeedCategory, now: int, later: int, outcome: Outcome)
      modifies this, cache
      ensures category == fc
      ensures (State(), cache.entries) ==
        ShowCategoryStep(old(State()), old(cache.entries), fc, pageSize, samples, now, later, outcome)
    {
      category := fc;
      Reset();
      Fetch(1, false, now, later, outcome);
    }

    /** The prefetch effect, its two-second timer collapsed into the step. */
    method Prefetch(later: int)
      modifies cache
      ensures cache.entries == PrefetchStep(State(), old(cache.entries), category, pageSize, later)
    {
      if hasMore && !loading && page < MaxPages {
        var nextPage := page + 1;
        var key := CacheKey(category, nextPage);
        if key !in cache.entries {
          cache.Set(key, CacheEntry(GenerateMoreArticles(nextPage, pageSize, later), later));
        }
      }
    }
  }
}
