# News Pulse: a verified model of the feed, favourites, preferences and offline worker

This project models the logic of a small news-reading web client. It does not model the presentation layer. Five parts are modelled:

- **The paginated news feed and its response cache** (`useNews`). The cache is a process-wide map from `{category}-{page}` to a page of articles and the time it was stored, with a five-minute lifetime.
  - A fetch uses a fresh cached page unless it is a refresh. Otherwise it synthesizes the page: the sample articles for a plain first page, the deterministic generator for everything else. It stores the page under its key, then replaces (page 1 or refresh) or extends the list.
  - Fetching page 5 or later from the network ends the feed.
  - `loadMore`, `refresh`, `reset`, the category-change effect and the next-page prefetch are each one atomic step.
  - The feed is a class (`NewsFeed.Feed`) over a shared cache object (`NewsFeed.ResponseCache`). Each method is proved equal to a pure transition function (`FetchNews`, `LoadMoreStep`, `RefreshStep`, …). Properties of those functions are proved as lemmas, including that every sequence of user events keeps the feed idle and ends it only at page 5 or later.
- **The personalized feed.** For `n` followed categories, each page asks every category for `per = ceil(pageSize / n)` articles.
  - A category at an even position gets the first `per` sample articles, or all twelve when `per` is larger.
  - A category at an odd position gets a generated page of `per` articles.
  - Each article is relabelled with the category and re-identified as `{id}-{category}-{page}`.
  - The pool is shuffled and cut to `pageSize`. The shuffle is an arbitrary permutation supplied by the caller.
- **Favourites** (`useFavorites`): a bounded, id-unique, most-recent-first list with a thirty-day expiry at load.
- **User preferences** (`useUserPreferences`): followed categories and the dark-mode flag, merged over defaults at load.
- **The service worker** (`public/sw.js`).
  - It pre-caches the application shell at install and deletes other versions' caches at activation.
  - It routes GET requests: network-first for API calls, cache-first with background revalidation for the rest, and an `/index.html` fallback for failed navigations.
  - The browser's cache storage is a value (`CacheStorage`). The network's answer is an input.
- **The article card's pure helpers** (`NewsCard`): relative-time labels, the category badge's colour and label fallbacks, and the animation-delay clamp.

Clock readings are integer millisecond parameters.
- `now` is the clock when a fetch starts, and `later` is the clock after its simulated delay.
- `loadedAt` is the moment the module with the sample articles was loaded.
- ISO date strings are modelled as their millisecond values.

The files are:
- `decimal.dfy`: printing naturals as `${n}` does, and its inverse.
- `news_types.dfy`: the records.
- `articles.dfy`: the sample articles and the generator.
- `news_feed.dfy`, `personalized.dfy`, `favorites.dfy`, `preferences.dfy`, `news_card.dfy`, `service_worker.dfy`.

## Model

| member | source | states |
|---|---|---|
| Decimal.NatToString | src/hooks/useNews.ts:163 | the `${n}` text of a natural: non-empty, digits only, and it starts with `0` exactly when `n` is 0 |
| Decimal.ParseNatToString | src/hooks/useNews.ts:163 | reading the printed digits back gives the number (round trip) |
| Decimal.NatToStringInjective | src/hooks/useNews.ts:163 | distinct numbers print differently |
| Decimal.DashSplitUnique | src/hooks/useNews.ts:163 | a digit string followed by `-` splits off one way only, so `x-y` with `x` numeric determines `x` and `y` |
| Articles.MockArticle | src/hooks/useNews.ts:5-150 | sample `k` has its fixed category, is dated its fixed number of hours before module load, and has id `k + 1` in decimal |
| Articles.MockArticles | src/hooks/useNews.ts:5-150 | exactly twelve samples; entry `k` is sample `k` |
| Articles.MockIdsDistinct | src/hooks/useNews.ts:5-150 | the twelve sample ids are pairwise distinct |
| Articles.GeneratedArticle | src/hooks/useNews.ts:157-176 | item `i` of page `p` has id `generated-{p}-{i}`, the category at running position `(p-1)*pageSize+i` mod 7, and is at least 12 hours old |
| Articles.GenerateMoreArticles | src/hooks/useNews.ts:153-178 | a generated page has exactly `pageSize` items, item `i` being the generated article at position `i` |
| Articles.GeneratedIdsDetermineItem | src/hooks/useNews.ts:163 | two generated articles with the same id come from the same page and position |
| Articles.GeneratedPageIdsDistinct | src/hooks/useNews.ts:157-163 | the ids on one generated page are pairwise distinct |
| Articles.GeneratedCategoriesCycle | src/hooks/useNews.ts:158-159 | consecutive generated items take the next category of the fixed seven in cyclic order |
| Articles.OfCategory | src/hooks/useNews.ts:236 | the category filter keeps exactly the articles of that category and is never longer |
| Articles.OfCategoryConcat | src/hooks/useNews.ts:236 | the filter keeps order and multiplicity: it distributes over concatenation, and keeps a single article exactly when it has the category |
| Articles.Take | src/hooks/useNews.ts:235 | `slice(0, n)`: the prefix of length `min(n, |s|)` |
| NewsFeed.PrefixSelectsFeed | src/hooks/useNews.ts:281-284 | a page key starts with a feed's name exactly when it is a key of that feed |
| NewsFeed.CacheKey | src/hooks/useNews.ts:209 | the key `{category}-{page}`; its properties are stated by `CacheKeyInjective` (no two pages of any feeds share a key) and `PrefixSelectsFeed` (a key starts with its own feed's name) |
| NewsFeed.CacheKeyInjective | src/hooks/useNews.ts:209 | different (feed, page) pairs never share a cache key |
| NewsFeed.FreshHit | src/hooks/useNews.ts:209-212 | a cached page is used iff its key is present, its age is under 300000 ms and the fetch is not a refresh; it yields the stored page |
| NewsFeed.WithoutPrefix | src/hooks/useNews.ts:281-285 | exactly the entries whose keys do not start with the prefix survive, unchanged |
| NewsFeed.ResponseCache.Set | src/hooks/useNews.ts:246 | the entry under the key is replaced and nothing else changes |
| NewsFeed.ResponseCache.DeleteWithPrefix | src/hooks/useNews.ts:281-285 | the key-by-key deletion loop leaves exactly `WithoutPrefix` of the old entries |
| NewsFeed.FirstPage | src/hooks/useNews.ts:232-236 | a first page holds at most `pageSize` samples; for one category it is the first `pageSize` samples of that category, in order; for all categories the leading samples |
| NewsFeed.Retag | src/hooks/useNews.ts:240-242 | a one-category feed relabels every article with its category and changes nothing else; the all-categories feed keeps the page |
| NewsFeed.SynthesizePage | src/hooks/useNews.ts:230-243 | the page a missed fetch produces: samples for a plain first page, the relabelled generator otherwise; its bounds, category and distinct ids are stated by `SynthesizedPageShape` |
| NewsFeed.GeneratedPageShape | src/hooks/useNews.ts:238-242 | a generated page delivered to a feed has exactly `pageSize` articles, with distinct ids, all of the feed's category when it has one |
| NewsFeed.SynthesizedPageShape | src/hooks/useNews.ts:230-243 | every synthesized page is at most `pageSize` long and of the feed's category; beyond a plain first page it is full with distinct ids |
| NewsFeed.ServeCached | src/hooks/useNews.ts:212-218 | a fresh hit changes only the list: page 1 shows the cached page, later pages append it after the old list |
| NewsFeed.StartMiss | src/hooks/useNews.ts:221-224 | the synchronous start of a miss keeps the list, page and pages-left flag, clears the error, and shows the spinner for page 1 |
| NewsFeed.FinishMiss | src/hooks/useNews.ts:246-265 | the continuation: a completed fetch stores the page under its key, keeps every other entry, and replaces (page 1 or refresh) or appends the list; a thrown value keeps list and cache and reports every error but an abort; the feed ends only on a completed page 5 or later; idle afterwards |
| NewsFeed.FetchNews | src/hooks/useNews.ts:202-266 | a hit only replaces (page 1) or extends the list. A miss ends idle on the same page. A completed miss stores the page under its key and replaces (page 1 or refresh) or appends, clearing the error. A failed miss keeps list, cache and `hasMore` and reports only non-abort errors. `hasMore` turns false exactly when a missed fetch of page ≥ 5 completes |
| NewsFeed.StoredPageIsServed | src/hooks/useNews.ts:209-246 | a page stored by a completed fetch is what a plain fetch of the same key gets during the next five minutes |
| NewsFeed.LoadMoreStep | src/hooks/useNews.ts:268-274 | nothing happens while loading or out of pages; otherwise the page number goes up by one and that page is fetched |
| NewsFeed.RefreshStep | src/hooks/useNews.ts:276-287 | ends on page 1 with pages left and idle; the feed's cached pages are dropped; a completed refresh shows and stores a generated page 1; a failed one keeps the list and reports every error but an abort |
| NewsFeed.ResetStep | src/hooks/useNews.ts:289-294 | empty list, page 1, pages left, no error; loading flags untouched |
| NewsFeed.ShowCategoryStep | src/hooks/useNews.ts:296-300 | after a category change the feed is on page 1 with pages left. Switching back within five minutes shows the cached first page with no error. Otherwise the fetch ends idle; when it completes it shows and stores the category's first page of samples with no error; when it fails the reset list stays empty, the cache is untouched and every error but an abort is reported |
| NewsFeed.PrefetchStep | src/hooks/useNews.ts:311-327 | with the check and the delayed write taken as one step (see "Left out"), existing entries are never altered; an entry is added iff the feed is idle with pages left below page 5 and the next key is absent, and it is then the generated next page |
| NewsFeed.RefreshInvalidatesOnlyOwnFeed | src/hooks/useNews.ts:276-287 | after a refresh every other feed's cached pages are exactly as before, and of the refreshed feed only a completed page 1 is left |
| NewsFeed.StepKeepsSettled | src/hooks/useNews.ts:202-327 | every user-visible step keeps the feed idle and out of pages only at page 5 or later |
| NewsFeed.EventsKeepSettled | src/hooks/useNews.ts:202-327 | the same for any sequence of load-more, refresh, category-change and prefetch events |
| NewsFeed.InitialFeedSettled | src/hooks/useNews.ts:193-198 | the initial state is settled |
| NewsFeed.PrefetchedFifthPageAllowsSixth | src/hooks/useNews.ts:311-327 | a prefetched page 5 is served as a hit, which keeps `hasMore`, so a sixth page is fetched and only then does the feed end |
| NewsFeed.PrefetchedPageKeepsForeignCategory | src/hooks/useNews.ts:319-323 | a prefetched page is stored without relabelling, so a one-category feed served it from the cache shows an article of another category |
| NewsFeed.Feed.constructor | src/hooks/useNews.ts:191-198 | a new feed: empty list, idle, no error, pages left, on the initial page; it holds the samples dated at module load |
| NewsFeed.Feed.BeginFetch | src/hooks/useNews.ts:209-224 | the synchronous part of a fetch: serves a fresh hit (`ServeCached`) or starts a miss (`StartMiss`), reporting which |
| NewsFeed.Feed.CompleteFetch | src/hooks/useNews.ts:226-265 | the part after the delay is `FinishMiss` on the synthesized page: store and show, or record the error; idle afterwards |
| NewsFeed.Feed.Fetch | src/hooks/useNews.ts:202-266 | the new state and cache are `FetchNews` of the old ones |
| NewsFeed.Feed.LoadMore | src/hooks/useNews.ts:268-274 | the two cases of `LoadMoreStep`: unchanged while loading or out of pages, otherwise `FetchNews` of the next page with the page number advanced |
| NewsFeed.Feed.NextPage | src/hooks/useNews.ts:270-272 | records the next page number and fetches that page |
| NewsFeed.Feed.Refresh | src/hooks/useNews.ts:276-287 | the new state and cache are `RefreshStep` of the old ones |
| NewsFeed.Feed.Reset | src/hooks/useNews.ts:289-294 | the new state is `ResetStep` of the old one; the cache is untouched |
| NewsFeed.Feed.ShowCategory | src/hooks/useNews.ts:296-300 | switches the category and performs `ShowCategoryStep` |
| NewsFeed.Feed.Prefetch | src/hooks/useNews.ts:311-327 | the cache becomes `PrefetchStep` of the old one |
| Personalized.PerCategory | src/hooks/useNews.ts:355 | the share per interest is `ceil(pageSize / n)`: `per * n >= pageSize` and `per * n < pageSize + n` |
| Personalized.Personalize | src/hooks/useNews.ts:361 | the article relabelled with the interest; its id becomes `{id}-{category}-{page}`; nothing else changes |
| Personalized.ContributionSource | src/hooks/useNews.ts:358 | even positions draw from the samples; odd ones from the generated page numbered `page + idx`, of `per` articles; either source repeats no id when the samples repeat none |
| Personalized.ContributionItem | src/hooks/useNews.ts:358-361 | each contributed article carries the interest's category |
| Personalized.Contribution | src/hooks/useNews.ts:357-362 | an interest contributes `per` articles, or all samples when there are fewer, all of its category |
| Personalized.ContributionIsSlice | src/hooks/useNews.ts:358-361 | a contribution is its source cut to `per` entries (`filter(i < per)`), each relabelled and re-identified |
| Personalized.PoolUpToSize | src/hooks/useNews.ts:355-363 | the pool's length is the sum of the contributions' lengths |
| Personalized.PoolUpToLengthFull | src/hooks/useNews.ts:355-360 | when no interest needs more than the samples, the pool holds exactly `n * per` articles |
| Personalized.Pool | src/hooks/useNews.ts:354-363 | the pool's length is `PoolLength` of the interest count, page size and sample count |
| Personalized.Permute | src/hooks/useNews.ts:366-367 | the shuffled pool: position `i` holds the pool's element at `order[i]` |
| Personalized.PermutePreservesMultiset | src/hooks/useNews.ts:366-367 | the shuffle is a permutation: it has the same elements with the same multiplicities as the pool |
| Personalized.PageDrawsFromPool | src/hooks/useNews.ts:366-368 | a personalized page is a sub-multiset of the pool: no article appears more often than the pool holds it |
| Personalized.PersonalizedPage | src/hooks/useNews.ts:366-368 | the shuffled pool cut to `pageSize`; `PersonalizedPageShape`, `PageDrawsFromPool` and `PersonalizedIdsDistinct` state its size, provenance, categories and distinct ids |
| Personalized.PoolCategories | src/hooks/useNews.ts:357-363 | every pooled article carries one of the interests |
| Personalized.PersonalizedPageShape | src/hooks/useNews.ts:355-368 | a personalized page holds at most `pageSize` articles, all from the pool and each of one of the interests, and exactly `pageSize` when the interests are not empty and each needs no more than the samples |
| Personalized.SuffixDeterminesCategory | src/hooks/useNews.ts:361 | an id ends with the `-{category}-{page}` suffix of at most one category, since category names contain no dash |
| Personalized.ContributionIds | src/hooks/useNews.ts:358-361 | each contributed id is its source article's id followed by `-{category}-{page}` |
| Personalized.ContributionTagged | src/hooks/useNews.ts:357-362 | a contribution repeats no id when the samples repeat none, and each of its ids ends with its interest's suffix |
| Personalized.JoinContribution | src/hooks/useNews.ts:357-363 | appending one interest's tagged contribution to articles of the earlier, distinct interests repeats no id |
| Personalized.PoolIdsDistinct | src/hooks/useNews.ts:354-363 | with distinct interests and distinct sample ids, the pool repeats no id, and each article carries one of the interests and its suffix |
| Personalized.PersonalizedIdsDistinct | src/hooks/useNews.ts:354-368 | with distinct interests and distinct sample ids, a personalized page never shows two articles with the same id |
| Personalized.PersonalizedFeed.constructor | src/hooks/useNews.ts:342-345 | empty list, idle, page 1, pages left |
| Personalized.PersonalizedFeed.FetchPersonalized | src/hooks/useNews.ts:347-382 | page 1 replaces the list with the personalized page, later pages append it; `hasMore` drops iff the page is 5 or later; idle afterwards |
| Personalized.PersonalizedFeed.GatherPool | src/hooks/useNews.ts:354-363 | the loop over the interests builds exactly `Pool` |
| Personalized.PersonalizedFeed.LoadMore | src/hooks/useNews.ts:384-390 | unchanged while loading or out of pages; otherwise the page advances by one, its personalized page is appended, and the feed is idle afterwards |
| Personalized.PersonalizedFeed.NextPage | src/hooks/useNews.ts:386-388 | the page advances by one and its personalized page is appended |
| Personalized.PersonalizedFeed.Refresh | src/hooks/useNews.ts:392-396 | page 1 with pages left, showing the personalized page 1 |
| Personalized.PersonalizedFeed.ChangeInterests | src/hooks/useNews.ts:398-403 | with interests, back to page 1 showing its personalized page (`hasMore` kept); with none, only the interests change |
| Favorites.KeepRecent | src/hooks/useFavorites.ts:14-17 | keeps exactly the entries added strictly after the cutoff, each as often as before |
| Favorites.KeepRecentConcat | src/hooks/useFavorites.ts:14-17 | the expiry filter keeps order: it distributes over concatenation, and keeps a single entry exactly when it is younger than the cutoff |
| Favorites.LoadFavorites | src/hooks/useFavorites.ts:8-23 | nothing or unparsable storage gives the empty list; otherwise `KeepRecent` of the stored list with the cutoff thirty days before now: the younger entries, in stored order |
| Favorites.IsFavorite | src/hooks/useFavorites.ts:60-62 | true iff some entry carries the id |
| Favorites.ToFavorite | src/hooks/useFavorites.ts:40-48 | the saved entry keeps the article's id, title, description, image, link and source name, stamped with the time of adding |
| Favorites.AddFavorite | src/hooks/useFavorites.ts:34-54 | unchanged when the id is present; otherwise the new entry first, then the old list cut so the total is at most 100 |
| Favorites.RemoveFavorite | src/hooks/useFavorites.ts:56-58 | drops every entry with the id and keeps the rest, with their multiplicities |
| Favorites.RemoveFavoriteConcat | src/hooks/useFavorites.ts:56-58 | removal keeps order: it distributes over concatenation, and keeps a single entry exactly when its id differs |
| Favorites.ToggleFavorite | src/hooks/useFavorites.ts:64-70 | is `RemoveFavorite` when the id is a favourite and `AddFavorite` otherwise; flips whether the article is a favourite and never makes another id a favourite |
| Favorites.ClearAllFavorites | src/hooks/useFavorites.ts:72-74 | the cleared list satisfies the list invariant and holds no favourite |
| Favorites.FavoritesCount | src/hooks/useFavorites.ts:76 | the count is 0 exactly when no article is a favourite, and at most 100 on a valid list |
| Favorites.KeepRecentUnique | src/hooks/useFavorites.ts:14-17 | the expiry filter keeps ids unique |
| Favorites.RemoveUnique | src/hooks/useFavorites.ts:56-58 | removal keeps ids unique |
| Favorites.AddUnique | src/hooks/useFavorites.ts:36-52 | adding keeps ids unique |
| Favorites.LoadKeepsUnique | src/hooks/useFavorites.ts:8-23 | loading a list with unique ids yields unique ids |
| Favorites.ActionsKeepValid | src/hooks/useFavorites.ts:34-74 | any sequence of add, remove, toggle and clear keeps ids unique and at most 100 entries |
| Favorites.CountAfterUpdates | src/hooks/useFavorites.ts:72-76 | the count is 0 after clearing, grows by one (up to 100) on a new add, and drops by one on removing a present id |
| Favorites.RemoveOneOfUnique | src/hooks/useFavorites.ts:56-58 | removing a present id from an id-unique list removes exactly one entry |
| Preferences.LoadPreferences | src/hooks/useUserPreferences.ts:12-22 | no stored record, or an unparsable one, gives the defaults; each stored field overrides its default and each missing one keeps it |
| Preferences.SetInterests | src/hooks/useUserPreferences.ts:33-35 | replaces the interests and keeps dark mode |
| Preferences.Without | src/hooks/useUserPreferences.ts:41 | no occurrence of the category is left; every other category stays present or absent as before |
| Preferences.WithoutConcat | src/hooks/useUserPreferences.ts:41 | the filter keeps order: it distributes over concatenation, and keeps a single category exactly when it differs |
| Preferences.ToggleInterest | src/hooks/useUserPreferences.ts:37-45 | a followed category is filtered out with `Without`, which keeps the others in order; a new one is appended; membership flips; dark mode kept |
| Preferences.HasInterest | src/hooks/useUserPreferences.ts:47-49 | true iff the category occurs in the interests |
| Preferences.ResetPreferences | src/hooks/useUserPreferences.ts:51-53 | exactly the defaults |
| Preferences.WithoutAppended | src/hooks/useUserPreferences.ts:40-43 | removing a just-appended absent category gives the list back |
| Preferences.ToggleTwiceRestores | src/hooks/useUserPreferences.ts:40-43 | toggling an absent category twice restores the preferences |
| Preferences.ToggleTwiceMovesToEnd | src/hooks/useUserPreferences.ts:40-43 | toggling a followed category twice moves it to the end, once |
| Preferences.ToggleKeepsDistinct | src/hooks/useUserPreferences.ts:37-45 | toggling keeps a duplicate-free interest list duplicate-free |
| Preferences.WithoutDistinct | src/hooks/useUserPreferences.ts:41 | the filter keeps a duplicate-free list duplicate-free |
| NewsCard.TimeAgoBucket | src/components/NewsCard.tsx:38-48 | exactly one bucket per age: under a minute (also future dates) "now", then minutes, hours, yesterday, 2–6 days, else a date; each count is the floor of the age in its unit |
| NewsCard.FormatTimeAgo | src/components/NewsCard.tsx:35-49 | the label for each age range: `Ahora`, `Hace {m} min`, `Hace {h} h`, `Ayer`, `Hace {d} días`, or the locale date |
| NewsCard.Label | src/components/NewsCard.tsx:43-48 | every text other than a date reads back through `ParseLabel` as its bucket (a round trip); a date bucket shows the locale date |
| NewsCard.LabelDeterminesBucket | src/components/NewsCard.tsx:43-47 | no two buckets other than the date share a text |
| NewsCard.MinutesLabelParses | src/components/NewsCard.tsx:44 | `Hace {m} min` reads back as `m` minutes |
| NewsCard.HoursLabelParses | src/components/NewsCard.tsx:45 | `Hace {h} h` reads back as `h` hours |
| NewsCard.DaysLabelParses | src/components/NewsCard.tsx:47 | `Hace {d} días` reads back as `d` days |
| NewsCard.CategoryColor | src/components/NewsCard.tsx:93 | a known category's colour, `bg-slate-500` for any other identifier |
| NewsCard.CategoryLabel | src/components/NewsCard.tsx:94 | a known category's Spanish label, the identifier itself otherwise |
| NewsCard.KnownCategoriesLabelled | src/components/NewsCard.tsx:15-33 | every category has a colour and a label, and distinct categories get distinct labels |
| NewsCard.AnimationDelay | src/components/NewsCard.tsx:97 | `min(index * 50, 300)`: never above 300, never above `index * 50`, and equal to one of them |
| NewsCard.AnimationDelayMonotone | src/components/NewsCard.tsx:97 | the delay never decreases with the index |
| ServiceWorker.Contains | public/sw.js:69 | `includes`: true iff the text occurs at some position |
| ServiceWorker.Intercepted | public/sw.js:58-66 | a request is handled only if it is a GET and not a `chrome-extension:` URL; `StrategyFor` states it |
| ServiceWorker.IsApi | public/sw.js:69 | the path contains `/api/` or the host contains `newsapi`; `StrategyFor` states it in terms of occurrences |
| ServiceWorker.StrategyFor | public/sw.js:58-69 | non-GET and `chrome-extension:` requests are not intercepted; network-first iff the path contains `/api/` or the host contains `newsapi` |
| ServiceWorker.MatchIn | public/sw.js:85 | `caches.match`: a hit is an entry of some cache, and a miss means no cache holds the URL |
| ServiceWorker.Open | public/sw.js:77 | `caches.open` creates the cache if missing and changes no other cache |
| ServiceWorker.Put | public/sw.js:77-79 | `cache.put` stores the response under the URL in that cache; other URLs and caches are unchanged |
| ServiceWorker.Delete | public/sw.js:42 | `caches.delete` removes the cache's name and contents and nothing else |
| ServiceWorker.FetchStep | public/sw.js:54-142 | the reply and cache writes for each route: passthrough; network-first storing only ok answers, else cached or the 503 JSON answer; cache-first serving the cached copy and refreshing it only on an ok answer; else the live answer stored when ok; else the cached shell for navigations and a rejection otherwise |
| ServiceWorker.FetchStepWritesOnlyCurrent | public/sw.js:54-142 | a request never creates or changes a cache other than `newspwa-v1` |
| ServiceWorker.ActivatedNames | public/sw.js:35-45 | after activation at most the current cache name is left |
| ServiceWorker.MatchAfterPut | public/sw.js:75-89 | after activation, the last response put under a URL is what `caches.match` finds |
| ServiceWorker.OfflineApiServesLastGoodAnswer | public/sw.js:71-98 | an ok API answer is served again to the same request once the network fails |
| ServiceWorker.OfflineNavigationServesShell | public/sw.js:131-136 | a failed navigation with nothing cached for it gets the cached `/index.html` |
| ServiceWorker.OnlyCurrent | public/sw.js:38-39 | the names kept by activation are exactly those equal to the current name |
| ServiceWorker.DeleteStale | public/sw.js:37-43 | deleting every name other than `newspwa-v1` one at a time; `DeleteStalePrefix`, `ActivatedNames` and `Worker.Activate` state what it leaves |
| ServiceWorker.DeleteStalePrefix | public/sw.js:35-45 | deleting the stale names one by one keeps the order of the rest and the contents of every cache left |
| ServiceWorker.AddShell | public/sw.js:17-19 | `cache.addAll` with every answer ok: each shell asset is stored with its answer, every other entry is kept, and nothing else is added |
| ServiceWorker.Worker.Install | public/sw.js:12-24 | the current cache exists afterwards and no other cache appears; the name list is that of `caches.open`; when every answer is ok each shell asset is stored with its answer and the cache's other entries are kept, else the cache is only opened; other caches unchanged |
| ServiceWorker.Worker.Activate | public/sw.js:31-51 | the deletion loop leaves only the current cache, its contents unchanged |
| ServiceWorker.Worker.HandleFetch | public/sw.js:54-142 | the reply and new storage are `FetchStep` of the old storage |

## Left out

- Rendering, timers and cancellation are not modelled. The 800 ms, 600 ms and 2000 ms delays and the `AbortController` disappear: each fetch, personalized fetch and prefetch is one atomic step, with `later` standing for the clock after the delay. The abort signal is never handed to the delayed work, so the code has no stale-commit guard and the model claims none.
- Thrown errors are an `Outcome` input. Only the check `err instanceof Error && err.name !== 'AbortError'` is modelled.
- `localStorage` and JSON are not modelled. Loading takes what storage yields as a datatype: absent, unparsable, or parsed fields. Writing back is left out.
- The service worker's `sync`, `push`, `notificationclick` and `message` handlers, `skipWaiting` and `clients.claim` are left out.
- The worker's cache writes that the source starts without awaiting are applied in the same step as the reply. The background revalidation's answer is an input of that step.
- NewsFeed.PrefetchStep merges the prefetch's `cache.has` check with its write, which the source makes 2000 ms later with no second check. So the model does not capture this overwrite: a `loadMore` that misses on the same key within those 2 s stores a relabelled page, and the timer then replaces it with the un-relabelled generated page and a newer timestamp.
- `cache.addAll` is modelled as all-or-nothing.
- URLs are reduced to protocol, host, path and query. Responses are reduced to status, content type and body.
- `toLocaleDateString` is not modelled. Its text is the `localeDate` parameter.
- NewsCard.CategoryColor and NewsCard.CategoryLabel treat the colour and label tables as plain maps. JavaScript would also find inherited object properties such as `constructor` there, and the model ignores that.
- The sample articles are a value computed from `loadedAt`. The feed objects hold them, and the pure functions take them as `samples`.
- Personalized.PersonalizedFeed.FetchPersonalized has no failure path, because its source has no `catch`. `Math.random` is replaced by the `order` permutation parameter. The comparator-based shuffle is modelled as an arbitrary permutation, not as a particular distribution over orders.
- Articles.GenerateMoreArticles requires page ≥ 1, which every caller meets. Page 0 would give negative positions.
- Personalized.PersonalizedIdsDistinct requires distinct interests. `setInterests` accepts a list with repeats, and a repeated category at two even positions would show the same sample id twice.
- The model follows the code's own behaviour where it may surprise:
  - The worker skips only `chrome-extension:` URLs.
  - A refresh synthesizes page 1 with the generator.
  - A prefetched page is stored without the category relabelling.
  - A cache hit never clears `hasMore`, so a feed whose page 5 was prefetched goes on to page 6.
  - Changing interests does not reset `hasMore`.
  - `toggleFavorite` always flips `isFavorite`, because the new entry goes in front and truncation drops from the tail.
