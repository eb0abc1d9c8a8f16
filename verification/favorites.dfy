/** The favourites list: a bounded, id-unique, most-recent-first list of
    saved articles. Each update takes the previous list and returns the next
    one; writing it to durable storage is not modelled. */
module Favorites {
  import opened NewsTypes

  const MaxFavorites: nat := 100
  const ThirtyDaysMs: int := 30 * 24 * 60 * 60 * 1000

  /** What durable storage yields for the favourites key at start-up: nothing
      (or an empty string), something that does not parse as a list, or a
      parsed list. */
  datatype Saved = Absent | Corrupt | Entries(items: seq<FavoriteItem>)

  /** Entries saved strictly after `cutoff`, in their stored order. */
  function KeepRecent(items: seq<FavoriteItem>, cutoff: int): (r: seq<FavoriteItem>)
    ensures |r| <= |items|
    ensures forall f {:trigger f in r} :: f in r <==> f in items && f.addedAt > cutoff
    ensures forall f {:trigger multiset(r)[f]} :: multiset(r)[f] == if f.addedAt > cutoff then multiset(items)[f] else 0
  {
    if items == [] then []
    else
      assert items == [items[0]] + items[1..];
      (if items[0].addedAt > cutoff then [items[0]] else []) + KeepRecent(items[1..], cutoff)
  }

  /** The list the hook starts with: stored entries younger than thirty days
      at `now`, or the empty list when nothing usable is stored. */
  function LoadFavorites(saved: Saved, now: int): (r: seq<FavoriteItem>)
    ensures !saved.Entries? ==> r == []
    ensures saved.Entries? ==>
      forall f :: f in r <==> f in saved.items && f.addedAt > now - ThirtyDaysMs
    ensures saved.Entries? ==> r == KeepRecent(saved.items, now - ThirtyDaysMs)
  {
    match saved
    case Entries(items) => KeepRecent(items, now - ThirtyDaysMs)
    case _ => []
  }

  /** Whether some entry carries `id`. */
  function IsFavorite(favs: seq<FavoriteItem>, id: string): (b: bool)
    ensures b <==> exists i :: 0 <= i < |favs| && favs[i].id == id
  {
    if favs == [] then false
    else favs[0].id == id || (assert forall i :: 0 <= i < |favs[1..]| ==> favs[1..][i] == favs[i + 1];
                              IsFavorite(favs[1..], id))
  }

  /** The entry recorded for an article favourited at time `now`. */
  function ToFavorite(article: Article, now: int): (r: FavoriteItem)
    ensures r.id == article.id && r.addedAt == now
    ensures r.title == article.title && r.description == article.description
    ensures r.imageUrl == article.imageUrl && r.url == article.url && r.source == article.source.name
  {
    FavoriteItem(article.id, article.title, article.description, article.imageUrl,
                 article.url, article.source.name, now)
  }

  /** Adds an article in front, unless its id is already there; keeps only the
      first `MaxFavorites` entries, so the oldest fall off the end. */
  function AddFavorite(prev: seq<FavoriteItem>, article: Article, now: int): (r: seq<FavoriteItem>)
    ensures IsFavorite(prev, article.id) ==> r == prev
    ensures !IsFavorite(prev, article.id) ==>
      && |r| == (if |prev| < MaxFavorites then |prev| + 1 else MaxFavorites)
      && r[0] == ToFavorite(article, now)
      && r[1..] == prev[..|r| - 1]
  {
    if IsFavorite(prev, article.id) then prev
    else
      var updated := [ToFavorite(article, now)] + prev;
      updated[..if |updated| < MaxFavorites then |updated| else MaxFavorites]
  }

  /** Every entry whose id differs from `id`, in their original order. */
  function RemoveFavorite(prev: seq<FavoriteItem>, id: string): (r: seq<FavoriteItem>)
    ensures |r| <= |prev|
    ensures !IsFavorite(r, id)
    ensures forall f {:trigger f in r} :: f in r <==> f in prev && f.id != id
    ensures !IsFavorite(prev, id) ==> r == prev
    ensures forall f {:trigger multiset(r)[f]} :: multiset(r)[f] == if f.id == id then 0 else multiset(prev)[f]
  {
    if prev == [] then []
    else
      assert prev == [prev[0]] + prev[1..];
      (if prev[0].id == id then [] else [prev[0]]) + RemoveFavorite(prev[1..], id)
  }

  /** Removes the article if it is a favourite, adds it otherwise. */
  function ToggleFavorite(prev: seq<FavoriteItem>, article: Article, now: int): (r: seq<FavoriteItem>)
    ensures IsFavorite(r, article.id) <==> !IsFavorite(prev, article.id)
    ensures forall id :: id != article.id ==> (IsFavorite(r, id) ==> IsFavorite(prev, id))
    ensures IsFavorite(prev, article.id) ==> r == RemoveFavorite(prev, article.id)
    ensures !IsFavorite(prev, article.id) ==> r == AddFavorite(prev, article, now)
  {
    if IsFavorite(prev, article.id) then
      var r := RemoveFavorite(prev, article.id);
      forall id | id != article.id && IsFavorite(r, id) ensures IsFavorite(prev, id) {
        var i :| 0 <= i < |r| && r[i].id == id;
        assert r[i] in r;
      }
      r
    else
      var r := AddFavorite(prev, article, now);
      assert r[0].id == article.id;
      forall id | id != article.id && IsFavorite(r, id) ensures IsFavorite(prev, id) {
        var i :| 0 <= i < |r| && r[i].id == id;
        assert r[1..][i - 1] == prev[i - 1];
      }
      r
  }

  /** The expiry filter keeps the surviving entries in their stored order:
      it distributes over concatenation, and a single entry stays exactly
      when it was added after the cutoff. */
  lemma {:induction false} KeepRecentConcat(a: seq<FavoriteItem>, b: seq<FavoriteItem>, x: FavoriteItem, cutoff: int)
    ensures KeepRecent(a + b, cutoff) == KeepRecent(a, cutoff) + KeepRecent(b, cutoff)
    ensures KeepRecent([x], cutoff) == if x.addedAt > cutoff then [x] else []
  {
    if a == [] {
      assert a + b == b;
    } else {
      assert (a + b)[1..] == a[1..] + b;
      KeepRecentConcat(a[1..], b, x, cutoff);
    }
    assert [x][1..] == [];
  }

  /** Removal keeps the other entries in their order: it distributes over
      concatenation, and a single entry stays exactly when its id differs. */
  lemma {:induction false} RemoveFavoriteConcat(a: seq<FavoriteItem>, b: seq<FavoriteItem>, x: FavoriteItem, id: string)
    ensures RemoveFavorite(a + b, id) == RemoveFavorite(a, id) + RemoveFavorite(b, id)
    ensures RemoveFavorite([x], id) == if x.id == id then [] else [x]
  {
    if a == [] {
      assert a + b == b;
    } else {
      assert (a + b)[1..] == a[1..] + b;
      RemoveFavoriteConcat(a[1..], b, x, id);
    }
    assert [x][1..] == [];
  }

  function ClearAllFavorites(): (r: seq<FavoriteItem>)
    ensures Valid(r)
    ensures forall id :: !IsFavorite(r, id)
  {
    []
  }

  function FavoritesCount(favs: seq<FavoriteItem>): (r: nat)
    ensures r == 0 <==> forall id :: !IsFavorite(favs, id)
    ensures Valid(favs) ==> r <= MaxFavorites
  {
    assert favs != [] ==> IsFavorite(favs, favs[0].id);
    |favs|
  }

  /** No two entries share an id. */
  ghost predicate UniqueIds(favs: seq<FavoriteItem>) {
    forall i, j :: 0 <= i < j < |favs| ==> favs[i].id != favs[j].id
  }

  /** The invariant every update keeps: unique ids, at most 100 entries. */
  ghost predicate Valid(favs: seq<FavoriteItem>) {
    UniqueIds(favs) && |favs| <= MaxFavorites
  }

  /** In a list with unique ids, no later entry shares the head's id. */
  lemma HeadIdFresh(items: seq<FavoriteItem>)
    requires UniqueIds(items) && items != []
    ensures forall f :: f in items[1..] ==> f.id != items[0].id
  {
    forall f | f in items[1..] ensures f.id != items[0].id {
      var k :| 0 <= k < |items[1..]| && items[1..][k] == f;
      assert items[k + 1] == f;
    }
  }

  /** An entry whose id is new, put in front of a unique list, keeps it
      unique. */
  lemma ConsUnique(x: FavoriteItem, rest: seq<FavoriteItem>)
    requires UniqueIds(rest)
    requires forall f :: f in rest ==> f.id != x.id
    ensures UniqueIds([x] + rest)
  {
    var r := [x] + rest;
    forall i, j | 0 <= i < j < |r| ensures r[i].id != r[j].id {
      assert r[j] == rest[j - 1];
      if i == 0 {
        assert rest[j - 1] in rest;
      } else {
        assert r[i] == rest[i - 1];
      }
    }
  }

  lemma {:induction false} KeepRecentUnique(items: seq<FavoriteItem>, cutoff: int)
    requires UniqueIds(items)
    ensures UniqueIds(KeepRecent(items, cutoff))
  {
    if items != [] {
      var tail := items[1..];
      var rest := KeepRecent(tail, cutoff);
      KeepRecentUnique(tail, cutoff);
      if items[0].addedAt > cutoff {
        HeadIdFresh(items);
        ConsUnique(items[0], rest);
        assert KeepRecent(items, cutoff) == [items[0]] + rest;
      } else {
        assert KeepRecent(items, cutoff) == rest;
      }
    }
  }

  lemma {:induction false} RemoveUnique(prev: seq<FavoriteItem>, id: string)
    requires UniqueIds(prev)
    ensures UniqueIds(RemoveFavorite(prev, id))
  {
    if prev != [] {
      var tail := prev[1..];
      var rest := RemoveFavorite(tail, id);
      RemoveUnique(tail, id);
      if prev[0].id != id {
        HeadIdFresh(prev);
        ConsUnique(prev[0], rest);
        assert RemoveFavorite(prev, id) == [prev[0]] + rest;
      } else {
        assert RemoveFavorite(prev, id) == rest;
      }
    }
  }

  lemma AddUnique(prev: seq<FavoriteItem>, article: Article, now: int)
    requires UniqueIds(prev)
    ensures UniqueIds(AddFavorite(prev, article, now))
  {
    var r := AddFavorite(prev, article, now);
    if !IsFavorite(prev, article.id) {
      forall i, j | 0 <= i < j < |r| ensures r[i].id != r[j].id {
        assert r[j] == r[1..][j - 1] == prev[j - 1];
        if i > 0 {
          assert r[i] == r[1..][i - 1] == prev[i - 1];
        }
      }
    }
  }

  /** Loading keeps ids unique when the stored list had unique ids. */
  lemma LoadKeepsUnique(saved: Saved, now: int)
    requires saved.Entries? ==> UniqueIds(saved.items)
    ensures UniqueIds(LoadFavorites(saved, now))
  {
    if saved.Entries? {
      KeepRecentUnique(saved.items, now - ThirtyDaysMs);
    }
  }

  /** The user actions on the list. */
  datatype Action = Add(article: Article, at: int) | Remove(id: string)
                  | Toggle(article: Article, at: int) | Clear

  function Apply(favs: seq<FavoriteItem>, a: Action): seq<FavoriteItem>
  {
    match a
    case Add(article, at) => AddFavorite(favs, article, at)
    case Remove(id) => RemoveFavorite(favs, id)
    case Toggle(article, at) => ToggleFavorite(favs, article, at)
    case Clear => ClearAllFavorites()
  }

  function ApplyAll(favs: seq<FavoriteItem>, actions: seq<Action>): seq<FavoriteItem>
    decreases |actions|
  {
    if actions == [] then favs else ApplyAll(Apply(favs, actions[0]), actions[1..])
  }

  /** Any sequence of adds, removes, toggles and clears keeps ids unique and
      the list within 100 entries. */
  lemma {:induction false} ActionsKeepValid(favs: seq<FavoriteItem>, actions: seq<Action>)
    requires Valid(favs)
    ensures Valid(ApplyAll(favs, actions))
    decreases |actions|
  {
    if actions != [] {
      var next := Apply(favs, actions[0]);
      match actions[0] {
        case Add(article, at) => AddUnique(favs, article, at);
        case Remove(id) => RemoveUnique(favs, id);
        case Toggle(article, at) =>
          if IsFavorite(favs, article.id) { RemoveUnique(favs, article.id); }
          else { AddUnique(favs, article, at); }
        case Clear =>
      }
      ActionsKeepValid(next, actions[1..]);
    }
  }

  /** How the count moves: clearing empties it, adding a new id adds one up to
      the bound, and removing a present id from an id-unique list takes
      exactly one away. */
  lemma {:induction false} CountAfterUpdates(favs: seq<FavoriteItem>, article: Article, now: int)
    requires UniqueIds(favs)
    ensures FavoritesCount(ClearAllFavorites()) == 0
    ensures !IsFavorite(favs, article.id) ==>
      FavoritesCount(AddFavorite(favs, article, now))
        == if |favs| < MaxFavorites then FavoritesCount(favs) + 1 else MaxFavorites
    ensures IsFavorite(favs, article.id) ==>
      FavoritesCount(RemoveFavorite(favs, article.id)) == FavoritesCount(favs) - 1
  {
    if IsFavorite(favs, article.id) {
      RemoveOneOfUnique(favs, article.id);
    }
  }

  lemma {:induction false} RemoveOneOfUnique(favs: seq<FavoriteItem>, id: string)
    requires UniqueIds(favs) && IsFavorite(favs, id)
    ensures |RemoveFavorite(favs, id)| == |favs| - 1
  {
    if favs[0].id == id {
      assert !IsFavorite(favs[1..], id);
    } else {
      var i :| 0 <= i < |favs| && favs[i].id == id;
      assert favs[1..][i - 1].id == id;
      RemoveOneOfUnique(favs[1..], id);
    }
  }
}
