/** The personalized feed: each page mixes articles for every followed
    category, shuffles them and keeps the first `pageSize`. The shuffle is an
    arbitrary permutation of positions supplied by the caller. The sample
    articles reach the functions below as `samples`; the feed object holds
    `MockArticles(loadedAt)` there. */
module Personalized {
  import opened NewsTypes
  import opened Decimal
  import opened Articles
  import NewsFeed

  /** How many articles each interest contributes before truncation:
      `pageSize / n` rounded up. */
  function PerCategory(pageSize: nat, n: nat): (per: nat)
    requires n > 0
    ensures per * n >= pageSize
    ensures per * n < pageSize + n
  {
    (pageSize + n - 1) / n
  }

  /** What `Personalize` appends to an id for interest `c` on page
      `pageNum`. */
  function IdSuffix(c: Category, pageNum: nat): string {
    "-" + CategoryName(c) + "-" + NatToString(pageNum)
  }

  /** An article as contributed for interest `c` to page `pageNum`: relabelled
      with `c`, its id suffixed with the category and the page. */
  function Personalize(a: Article, c: Category, pageNum: nat): (r: Article)
    ensures r.category == c
    ensures r.id == a.id + "-" + CategoryName(c) + "-" + NatToString(pageNum)
    ensures r == a.(category := c, id := r.id)
  {
    a.(category := c, id := a.id + IdSuffix(c, pageNum))
  }

  /** How many articles the interest at position `idx` contributes when
      there are `m` samples: at even positions the samples cut to `per`, at
      odd ones a generated page of `per`. */
  function ContributionLength(idx: nat, per: nat, m: nat): nat {
    if idx % 2 == 0 && per > m then m else per
  }

  /** Where the interest at position `idx` draws from: the samples at even
      positions, the generated page numbered `pageNum + idx` (of `per`
      articles) at odd ones. */
  function ContributionSource(samples: seq<Article>, idx: nat, pageNum: nat, per: nat, now: int): (r: seq<Article>)
    requires pageNum >= 1
    ensures idx % 2 == 0 ==> r == samples
    ensures idx % 2 == 1 ==> r == GenerateMoreArticles(pageNum + idx, per, now) && |r| == per
    ensures IdsDistinct(samples) ==> IdsDistinct(r)
  {
    if idx % 2 == 0 then samples
    else
      GeneratedPageIdsDistinct(pageNum + idx, per, now);
      GenerateMoreArticles(pageNum + idx, per, now)
  }

  /** Article `i` of the contribution of interest `c` at position `idx`:
      entry `i` of its source, relabelled and re-identified. */
  function ContributionItem(samples: seq<Article>, c: Category, idx: nat, i: nat, pageNum: nat,
                            per: nat, now: int): (a: Article)
    requires pageNum >= 1 && i < ContributionLength(idx, per, |samples|)
    ensures a.category == c
  {
    Personalize(ContributionSource(samples, idx, pageNum, per, now)[i], c, pageNum)
  }

  /** What the interest at position `idx` contributes. */
  function Contribution(samples: seq<Article>, c: Category, idx: nat, pageNum: nat, per: nat,
                        now: int): (r: seq<Article>)
    requires pageNum >= 1
    ensures |r| == ContributionLength(idx, per, |samples|)
    ensures forall a :: a in r ==> a.category == c
  {
    var n := ContributionLength(idx, per, |samples|);
    seq(n, i requires 0 <= i < n => ContributionItem(samples, c, idx, i, pageNum, per, now))
  }

  /** A contribution is its source cut to `per` entries, each relabelled
      with `c` and re-identified for `pageNum`. */
  lemma ContributionIsSlice(samples: seq<Article>, c: Category, idx: nat, pageNum: nat, per: nat, now: int)
    requires pageNum >= 1
    ensures var t := Take(ContributionSource(samples, idx, pageNum, per, now), per);
      var r := Contribution(samples, c, idx, pageNum, per, now);
      && |r| == |t|
      && forall i :: 0 <= i < |r| ==> r[i] == Personalize(t[i], c, pageNum)
  {
    var base := ContributionSource(samples, idx, pageNum, per, now);
    var r := Contribution(samples, c, idx, pageNum, per, now);
    var t := Take(base, per);
    assert |t| == |r|;
    forall i | 0 <= i < |r| ensures r[i] == Personalize(t[i], c, pageNum) {
      assert t[i] == base[i];
      assert r[i] == ContributionItem(samples, c, idx, i, pageNum, per, now);
    }
  }

  /** The contributions of the first `k` interests, in order. */
  function PoolUpTo(samples: seq<Article>, interests: seq<Category>, k: nat, pageNum: nat, per: nat,
                    now: int): seq<Article>
    requires k <= |interests| && pageNum >= 1
  {
    if k == 0 then []
    else PoolUpTo(samples, interests, k - 1, pageNum, per, now)
         + Contribution(samples, interests[k - 1], k - 1, pageNum, per, now)
  }

  /** One more interest appends its contribution. */
  lemma PoolUpToStep(samples: seq<Article>, interests: seq<Category>, k: nat, pageNum: nat, per: nat, now: int)
    requires k < |interests| && pageNum >= 1
    ensures PoolUpTo(samples, interests, k + 1, pageNum, per, now)
         == PoolUpTo(samples, interests, k, pageNum, per, now)
            + Contribution(samples, interests[k], k, pageNum, per, now)
  {
  }

  /** The size of the first `k` contributions. */
  function PoolUpToLength(k: nat, per: nat, m: nat): nat {
    if k == 0 then 0 else PoolUpToLength(k - 1, per, m) + ContributionLength(k - 1, per, m)
  }

  /** The size of the pool for `n` interests, pages of `pageSize` and `m`
      samples. */
  function PoolLength(n: nat, pageSize: nat, m: nat): nat {
    if n == 0 then 0 else PoolUpToLength(n, PerCategory(pageSize, n), m)
  }

  lemma {:induction false} PoolUpToSize(samples: seq<Article>, interests: seq<Category>, k: nat, pageNum: nat,
                                        per: nat, now: int)
    requires k <= |interests| && pageNum >= 1
    ensures |PoolUpTo(samples, interests, k, pageNum, per, now)| == PoolUpToLength(k, per, |samples|)
  {
    if k > 0 {
      PoolUpToSize(samples, interests, k - 1, pageNum, per, now);
    }
  }

  /** When no interest needs more articles than there are samples, each
      contributes exactly `per`. */
  lemma {:induction false} PoolUpToLengthFull(k: nat, per: nat, m: nat)
    requires per <= m
    ensures PoolUpToLength(k, per, m) == k * per
  {
    if k > 0 {
      PoolUpToLengthFull(k - 1, per, m);
      assert (k - 1) * per + per == k * per;
    }
  }

  /** Every interest's contribution, before shuffling. */
  function Pool(samples: seq<Article>, interests: seq<Category>, pageNum: nat, pageSize: nat,
                now: int): (r: seq<Article>)
    requires pageNum >= 1
    ensures |r| == PoolLength(|interests|, pageSize, |samples|)
  {
    if |interests| == 0 then []
    else
      var per := PerCategory(pageSize, |interests|);
      PoolUpToSize(samples, interests, |interests|, pageNum, per, now);
      PoolUpTo(samples, interests, |interests|, pageNum, per, now)
  }

  /** `order` lists each position below `n` exactly once. */
  ghost predicate IsPermutation(order: seq<nat>, n: nat) {
    |order| == n && (forall i :: 0 <= i < n ==> order[i] < n) && Distinct(order)
  }

  /** `s` rearranged: position `i` takes the element at `order[i]`. */
  function Permute(s: seq<Article>, order: seq<nat>): (r: seq<Article>)
    requires forall i :: 0 <= i < |order| ==> order[i] < |s|
    ensures |r| == |order|
    ensures forall i :: 0 <= i < |r| ==> r[i] == s[order[i]]
  {
    seq(|order|, i requires 0 <= i < |order| => s[order[i]])
  }

  /** Taking out the element at `k` takes one occurrence out of the
      multiset. */
  lemma RemoveAtMultiset(s: seq<Article>, k: nat)
    requires k < |s|
    ensures multiset(s) == multiset(s[..k] + s[k + 1..]) + multiset{s[k]}
  {
    assert s == s[..k] + [s[k]] + s[k + 1..];
  }

  /** Positions renumbered for a sequence from which the element at `k` has
      been taken out: every position after `k` moves down by one. */
  ghost function Renumber(order: seq<nat>, k: nat): (r: seq<nat>)
    ensures |r| == |order|
    ensures forall i :: 0 <= i < |r| ==> r[i] == if order[i] > k then order[i] - 1 else order[i]
  {
    seq(|order|, i requires 0 <= i < |order| => if order[i] > k then order[i] - 1 else order[i])
  }

  /** Without its last position, a permutation renumbered around the element
      that position takes is a permutation of the rest, picking the same
      elements. */
  lemma RenumberStep(s: seq<Article>, order: seq<nat>)
    requires IsPermutation(order, |s|) && |s| > 0
    ensures var m := |s| - 1;
      var rest := s[..order[m]] + s[order[m] + 1..];
      var r := Renumber(order[..m], order[m]);
      IsPermutation(r, |rest|) && Permute(s, order)[..m] == Permute(rest, r)
  {
    var m := |s| - 1;
    var k := order[m];
    var rest := s[..k] + s[k + 1..];
    var r := Renumber(order[..m], k);
    forall i | 0 <= i < m ensures r[i] < |rest| && rest[r[i]] == s[order[i]] {
      assert order[i] != k;
    }
    forall i, j | 0 <= i < j < m ensures r[i] != r[j] {
      assert order[i] != order[j] && order[i] != k && order[j] != k;
    }
  }

  /** Rearranging by a permutation keeps every element as often as before.
      Induction on `|s|`: the element the last position takes is removed
      from `s`, and the other positions are renumbered around it. */
  lemma {:induction false} PermutePreservesMultiset(s: seq<Article>, order: seq<nat>)
    requires IsPermutation(order, |s|)
    ensures multiset(Permute(s, order)) == multiset(s)
    decreases |s|
  {
    if |s| > 0 {
      var m := |s| - 1;
      var k := order[m];
      RenumberStep(s, order);
      PermutePreservesMultiset(s[..k] + s[k + 1..], Renumber(order[..m], k));
      var p := Permute(s, order);
      assert p == p[..m] + [s[k]];
      RemoveAtMultiset(s, k);
    }
  }

  /** The page shown: the shuffled pool, cut to `pageSize`. */
  function PersonalizedPage(samples: seq<Article>, interests: seq<Category>, pageNum: nat, pageSize: nat,
                            now: int, order: seq<nat>): seq<Article>
    requires pageNum >= 1
    requires IsPermutation(order, PoolLength(|interests|, pageSize, |samples|))
  {
    Take(Permute(Pool(samples, interests, pageNum, pageSize, now), order), pageSize)
  }

  lemma {:induction false} PoolCategories(samples: seq<Article>, interests: seq<Category>, k: nat, pageNum: nat,
                                          per: nat, now: int)
    requires k <= |interests| && pageNum >= 1
    ensures forall a :: a in PoolUpTo(samples, interests, k, pageNum, per, now) ==> a.category in interests
  {
    if k > 0 {
      var prev := PoolUpTo(samples, interests, k - 1, pageNum, per, now);
      var c := Contribution(samples, interests[k - 1], k - 1, pageNum, per, now);
      PoolCategories(samples, interests, k - 1, pageNum, per, now);
      assert PoolUpTo(samples, interests, k, pageNum, per, now) == prev + c;
      forall a: Article | a in prev + c ensures a.category in interests {
        if a !in prev {
          assert a in c;
        }
      }
    }
  }

  /** The shuffle only rearranges the pool, and the cut only drops from its
      end: a page is a sub-multiset of the pool. */
  lemma PageDrawsFromPool(samples: seq<Article>, interests: seq<Category>, pageNum: nat, pageSize: nat,
                          now: int, order: seq<nat>)
    requires pageNum >= 1
    requires IsPermutation(order, PoolLength(|interests|, pageSize, |samples|))
    ensures multiset(PersonalizedPage(samples, interests, pageNum, pageSize, now, order))
            <= multiset(Pool(samples, interests, pageNum, pageSize, now))
  {
    var pool := Pool(samples, interests, pageNum, pageSize, now);
    var shuffled := Permute(pool, order);
    var p := Take(shuffled, pageSize);
    PermutePreservesMultiset(pool, order);
    assert shuffled == p + shuffled[|p|..];
  }

  /** A personalized page holds at most `pageSize` articles, all drawn from
      the pool and each labelled with one of the interests; it is full
      whenever the interests are not empty and each needs no more articles
      than there are samples. */
  lemma PersonalizedPageShape(samples: seq<Article>, interests: seq<Category>, pageNum: nat, pageSize: nat,
                              now: int, order: seq<nat>)
    requires pageNum >= 1
    requires IsPermutation(order, PoolLength(|interests|, pageSize, |samples|))
    ensures var p := PersonalizedPage(samples, interests, pageNum, pageSize, now, order);
      && |p| <= pageSize
      && (forall a :: a in p ==> a in Pool(samples, interests, pageNum, pageSize, now))
      && (forall a :: a in p ==> a.category in interests)
      && (|interests| > 0 && PerCategory(pageSize, |interests|) <= |samples| ==> |p| == pageSize)
  {
    var pool := Pool(samples, interests, pageNum, pageSize, now);
    var p := PersonalizedPage(samples, interests, pageNum, pageSize, now, order);
    var shuffled := Permute(pool, order);
    forall a | a in p ensures a in pool {
      assert a in shuffled;
      var i :| 0 <= i < |shuffled| && shuffled[i] == a;
    }
    if |interests| > 0 {
      var per := PerCategory(pageSize, |interests|);
      PoolCategories(samples, interests, |interests|, pageNum, per, now);
      if per <= |samples| {
        PoolUpToLengthFull(|interests|, per, |samples|);
      }
    }
  }

  /** The article's id ends with the suffix of its own category. */
  ghost predicate Tagged(a: Article, pageNum: nat) {
    EndsWith(a.id, IdSuffix(a.category, pageNum))
  }

  lemma CategoryNameDashFree(c: Category)
    ensures '-' !in CategoryName(c)
  {
  }

  /** Where `"-" + name + "-" + u` ends a text, the first dash and the name
      sit right before the last `|u| + 1` characters. */
  lemma NameBeforeTail(id: string, name: string, u: string)
    requires EndsWith(id, "-" + name + "-" + u)
    ensures |id| >= |u| + |name| + 2
    ensures id[|id| - |u| - |name| - 2] == '-'
    ensures id[|id| - |u| - |name| - 1..|id| - |u| - 1] == name
  {
    var s := "-" + name + "-" + u;
    var w := id[|id| - |s|..];
    assert w == s;
    assert w[0] == '-';
    assert w[1..|name| + 1] == s[1..|name| + 1] == name;
  }

  /** A dash-free name placed so leaves no dash in its stretch of `id`. */
  lemma NoDashInName(id: string, name: string, u: string)
    requires EndsWith(id, "-" + name + "-" + u) && '-' !in name
    ensures |id| >= |u| + |name| + 2
    ensures forall q :: |id| - |u| - |name| - 1 <= q < |id| - |u| - 1 ==> id[q] != '-'
  {
    NameBeforeTail(id, name, u);
    var b := |id| - |u| - |name| - 1;
    forall q | b <= q < |id| - |u| - 1 ensures id[q] != '-' {
      assert id[q] == id[b..|id| - |u| - 1][q - b];
    }
  }

  /** Two dash-free names that both sit between two dashes before the same
      tail at the end of a text are the same name. */
  lemma DashFreeNamesAgree(id: string, m: string, n: string, u: string)
    requires EndsWith(id, "-" + m + "-" + u) && EndsWith(id, "-" + n + "-" + u)
    requires '-' !in m && '-' !in n
    ensures m == n
  {
    NameBeforeTail(id, m, u);
    NameBeforeTail(id, n, u);
    NoDashInName(id, m, u);
    NoDashInName(id, n, u);
    assert |m| == |n|;
  }

  lemma CategoryNameInjective(c: Category, d: Category)
    requires CategoryName(c) == CategoryName(d)
    ensures c == d
  {
    NewsFeed.InitialsIdentifyFeed(NewsFeed.Only(c));
    NewsFeed.InitialsIdentifyFeed(NewsFeed.Only(d));
  }

  /** An id ends with the suffix of at most one category: category names
      contain no dash, so the last-but-one dash fixes where the name starts. */
  lemma SuffixDeterminesCategory(id: string, c: Category, d: Category, pageNum: nat)
    requires EndsWith(id, IdSuffix(c, pageNum)) && EndsWith(id, IdSuffix(d, pageNum))
    ensures c == d
  {
    CategoryNameDashFree(c);
    CategoryNameDashFree(d);
    DashFreeNamesAgree(id, CategoryName(c), CategoryName(d), NatToString(pageNum));
    CategoryNameInjective(c, d);
  }

  /** Ids formed by appending one suffix to pairwise distinct ids are
      pairwise distinct, and each ends with that suffix. */
  lemma SuffixedIdsDistinct(src: seq<Article>, r: seq<Article>, sfx: string)
    requires |r| <= |src| && IdsDistinct(src)
    requires forall i :: 0 <= i < |r| ==> r[i].id == src[i].id + sfx
    ensures IdsDistinct(r)
    ensures forall a :: a in r ==> EndsWith(a.id, sfx)
  {
    forall i, j | 0 <= i < j < |r| ensures r[i].id != r[j].id {
      assert src[i].id == (src[i].id + sfx)[..|src[i].id|];
      assert src[j].id == (src[j].id + sfx)[..|src[j].id|];
    }
    forall a | a in r ensures EndsWith(a.id, sfx) {
      var i :| 0 <= i < |r| && r[i] == a;
      assert (src[i].id + sfx)[|src[i].id|..] == sfx;
    }
  }

  /** Each contributed article's id is its source article's id followed by
      the interest's suffix. */
  lemma ContributionIds(samples: seq<Article>, c: Category, idx: nat, pageNum: nat, per: nat, now: int)
    requires pageNum >= 1
    ensures var src := ContributionSource(samples, idx, pageNum, per, now);
      var r := Contribution(samples, c, idx, pageNum, per, now);
      && |r| <= |src|
      && forall i :: 0 <= i < |r| ==> r[i].id == src[i].id + IdSuffix(c, pageNum)
  {
    var src := ContributionSource(samples, idx, pageNum, per, now);
    var r := Contribution(samples, c, idx, pageNum, per, now);
    ContributionIsSlice(samples, c, idx, pageNum, per, now);
    var t := Take(src, per);
    forall i | 0 <= i < |r| ensures r[i].id == src[i].id + IdSuffix(c, pageNum) {
      assert t[i] == src[i];
    }
  }

  /** A contribution repeats no id when the samples do not, and each of its
      articles is tagged with the interest. */
  lemma ContributionTagged(samples: seq<Article>, c: Category, idx: nat, pageNum: nat, per: nat, now: int)
    requires pageNum >= 1 && IdsDistinct(samples)
    ensures var r := Contribution(samples, c, idx, pageNum, per, now);
      && IdsDistinct(r)
      && forall a :: a in r ==> a.category == c && Tagged(a, pageNum)
  {
    ContributionIds(samples, c, idx, pageNum, per, now);
    SuffixedIdsDistinct(ContributionSource(samples, idx, pageNum, per, now),
                        Contribution(samples, c, idx, pageNum, per, now), IdSuffix(c, pageNum));
  }

  /** `pool` holds articles of the first `k` interests only, each tagged for
      page `pageNum`, and repeats no id. */
  ghost predicate TaggedUpTo(pool: seq<Article>, interests: seq<Category>, k: nat, pageNum: nat)
    requires k <= |interests|
  {
    && IdsDistinct(pool)
    && forall a :: a in pool ==> Tagged(a, pageNum) && a.category in interests[..k]
  }

  /** Appending the tagged contribution of interest `interests[k - 1]` to
      tagged articles of the earlier interests keeps ids distinct: an equal
      id would need equal category suffixes, and distinct interests have
      different ones. */
  lemma JoinContribution(prev: seq<Article>, next: seq<Article>, interests: seq<Category>, k: nat, pageNum: nat)
    requires 0 < k <= |interests| && Distinct(interests)
    requires TaggedUpTo(prev, interests, k - 1, pageNum) && IdsDistinct(next)
    requires forall b :: b in next ==> b.category == interests[k - 1] && Tagged(b, pageNum)
    ensures TaggedUpTo(prev + next, interests, k, pageNum)
  {
    var pool := prev + next;
    forall i, j | 0 <= i < j < |pool| ensures pool[i].id != pool[j].id {
      if j < |prev| {
        assert pool[i] == prev[i] && pool[j] == prev[j];
      } else if i >= |prev| {
        assert pool[i] == next[i - |prev|] && pool[j] == next[j - |prev|];
      } else {
        var a := prev[i];
        var b := next[j - |prev|];
        assert pool[i] == a && pool[j] == b;
        assert a in prev && b in next;
        var m :| 0 <= m < k - 1 && interests[..k - 1][m] == a.category;
        assert interests[m] != interests[k - 1];
        if a.id == b.id {
          SuffixDeterminesCategory(a.id, a.category, b.category, pageNum);
        }
      }
    }
    forall a | a in pool ensures a.category in interests[..k] {
      if a in prev {
        var m :| 0 <= m < k - 1 && interests[..k - 1][m] == a.category;
        assert interests[..k][m] == a.category;
      } else {
        assert interests[..k][k - 1] == a.category;
      }
    }
  }

  /** With distinct interests and distinct sample ids, the first `k`
      contributions repeat no id: within one contribution the source ids
      differ, across two the category suffixes do. */
  lemma {:induction false} PoolIdsDistinct(samples: seq<Article>, interests: seq<Category>, k: nat, pageNum: nat,
                                           per: nat, now: int)
    requires k <= |interests| && pageNum >= 1
    requires Distinct(interests) && IdsDistinct(samples)
    ensures TaggedUpTo(PoolUpTo(samples, interests, k, pageNum, per, now), interests, k, pageNum)
  {
    if k > 0 {
      var prev := PoolUpTo(samples, interests, k - 1, pageNum, per, now);
      var next := Contribution(samples, interests[k - 1], k - 1, pageNum, per, now);
      PoolIdsDistinct(samples, interests, k - 1, pageNum, per, now);
      ContributionTagged(samples, interests[k - 1], k - 1, pageNum, per, now);
      JoinContribution(prev, next, interests, k, pageNum);
      assert PoolUpTo(samples, interests, k, pageNum, per, now) == prev + next;
    }
  }

  /** With distinct interests and distinct sample ids (which the feed's
      samples have), a personalized page never shows two articles with the
      same id. */
  lemma PersonalizedIdsDistinct(samples: seq<Article>, interests: seq<Category>, pageNum: nat, pageSize: nat,
                                now: int, order: seq<nat>)
    requires pageNum >= 1
    requires IsPermutation(order, PoolLength(|interests|, pageSize, |samples|))
    requires Distinct(interests) && IdsDistinct(samples)
    ensures IdsDistinct(PersonalizedPage(samples, interests, pageNum, pageSize, now, order))
  {
    var pool := Pool(samples, interests, pageNum, pageSize, now);
    if |interests| > 0 {
      PoolIdsDistinct(samples, interests, |interests|, pageNum, PerCategory(pageSize, |interests|), now);
    }
    assert IdsDistinct(pool);
    var shuffled := Permute(pool, order);
    forall i, j | 0 <= i < j < |shuffled| ensures shuffled[i].id != shuffled[j].id {
      assert order[i] != order[j];
      if order[i] > order[j] {
        assert pool[order[j]].id != pool[order[i]].id;
      }
    }
    var p := Take(shuffled, pageSize);
    forall i, j | 0 <= i < j < |p| ensures p[i].id != p[j].id {
      assert p[i] == shuffled[i] && p[j] == shuffled[j];
    }
  }

  /** The personalized feed object. */
  class PersonalizedFeed {
    var interests: seq<Category>
    const pageSize: nat
    /** The sample articles, dated when the module was loaded. */
    const samples: seq<Article>

    var articles: seq<Article>
    var loading: bool
    var page: nat
    var hasMore: bool

    /** Pages are numbered from 1. */
    ghost predicate Valid()
      reads this
    {
      page >= 1
    }

    constructor(interests: seq<Category>, pageSize: nat, loadedAt: int)
      ensures Valid()
      ensures this.interests == interests && this.pageSize == pageSize && samples == MockArticles(loadedAt)
      ensures articles == [] && !loading && page == 1 && hasMore
    {
      this.interests := interests;
      this.pageSize := pageSize;
      samples := MockArticles(loadedAt);
      articles := [];
      loading := false;
      page := 1;
      hasMore := true;
    }

    /** `fetchPersonalized(pageNum)` as one step: gather every interest's
        contribution, shuffle by `order`, keep `pageSize`; page 1 replaces
        the list, later pages extend it, and page 5 or later ends the feed.
        `later` is the clock after the simulated delay, when the generator
        runs. */
    method FetchPersonalized(pageNum: nat, later: int, order: seq<nat>)
      requires pageNum >= 1
      requires IsPermutation(order, PoolLength(|interests|, pageSize, |samples|))
      modifies this
      ensures interests == old(interests) && page == old(page) && !loading
      ensures var p := PersonalizedPage(samples, interests, pageNum, pageSize, later, order);
        articles == if pageNum == 1 then p else old(articles) + p
      ensures hasMore == (old(hasMore) && pageNum < NewsFeed.MaxPages)
    {
      loading := true;
      var all := GatherPool(pageNum, later);
      var shuffled := Permute(all, order);
      var pageArticles := Take(shuffled, pageSize);
      if pageNum == 1 {
        articles := pageArticles;
      } else {
        articles := articles + pageArticles;
      }
      if pageNum >= NewsFeed.MaxPages {
        hasMore := false;
      }
      loading := false;
    }

    /** Every interest's contribution to page `pageNum`, gathered in order. */
    method GatherPool(pageNum: nat, later: int) returns (all: seq<Article>)
      requires pageNum >= 1
      ensures all == Pool(samples, interests, pageNum, pageSize, later)
    {
      all := [];
      if |interests| == 0 {
        return;
      }
      var per := PerCategory(pageSize, |interests|);
      var idx := 0;
      while idx < |interests|
        invariant 0 <= idx <= |interests|
        invariant all == PoolUpTo(samples, interests, idx, pageNum, per, later)
      {
        PoolUpToStep(samples, interests, idx, pageNum, per, later);
        all := all + Contribution(samples, interests[idx], idx, pageNum, per, later);
        idx := idx + 1;
      }
    }

    /** `loadMore`: when idle with pages left, move to the next page and
        fetch it. */
    method LoadMore(later: int, order: seq<nat>)
      requires Valid()
      requires !loading && hasMore ==> IsPermutation(order, PoolLength(|interests|, pageSize, |samples|))
      modifies this
      ensures Valid() && interests == old(interests)
      ensures old(loading) || !old(hasMore) ==>
        articles == old(articles) && page == old(page) && hasMore == old(hasMore) && loading == old(loading)
      ensures !old(loading) && old(hasMore) ==>
        && page == old(page) + 1 && !loading
        && articles == old(articles + PersonalizedPage(samples, interests, page + 1, pageSize, later, order))
        && hasMore == (old(page) + 1 < NewsFeed.MaxPages)
    {
      if !loading && hasMore {
        NextPage(later, order);
      }
    }

    /** The body of `loadMore` once its guard holds. */
    method NextPage(later: int, order: seq<nat>)
      requires Valid()
      requires IsPermutation(order, PoolLength(|interests|, pageSize, |samples|))
      modifies this
      ensures Valid() && interests == old(interests) && !loading
      ensures page == old(page) + 1
      ensures articles == old(articles + PersonalizedPage(samples, interests, page + 1, pageSize, later, order))
      ensures hasMore == (old(hasMore) && old(page) + 1 < NewsFeed.MaxPages)
    {
      var nextPage := page + 1;
      FetchPersonalized(nextPage, later, order);
      page := nextPage;
    }

    /** `refresh`: page 1 with pages left, then fetch page 1. */
    method Refresh(later: int, order: seq<nat>)
      requires Valid()
      requires IsPermutation(order, PoolLength(|interests|, pageSize, |samples|))
      modifies this
      ensures Valid()
      ensures page == 1 && hasMore && !loading && interests == old(interests)
      ensures articles == PersonalizedPage(samples, interests, 1, pageSize, later, order)
    {
      page := 1;
      hasMore := true;
      FetchPersonalized(1, later, order);
    }

    /** The effect on a change of interests: with at least one interest, go
        back to page 1 and fetch it; `hasMore` is left as it was. */
    method ChangeInterests(newInterests: seq<Category>, later: int, order: seq<nat>)
      requires Valid()
      requires |newInterests| > 0 ==> IsPermutation(order, PoolLength(|newInterests|, pageSize, |samples|))
      modifies this
      ensures Valid()
      ensures interests == newInterests
      ensures |newInterests| == 0 ==>
        articles == old(articles) && page == old(page) && hasMore == old(hasMore) && loading == old(loading)
      ensures |newInterests| > 0 ==>
        && page == 1 && hasMore == old(hasMore) && !loading
        && articles == PersonalizedPage(samples, newInterests, 1, pageSize, later, order)
    {
      interests := newInterests;
      if |newInterests| > 0 {
        page := 1;
        FetchPersonalized(1, later, order);
      }
    }
  }
}
