/** The records the news client passes around: articles, favourites and the
    user's preferences. Timestamps are milliseconds since the epoch (the
    source keeps ISO strings and converts them with `Date`). */
module NewsTypes {

  datatype Option<T> = None | Some(value: T)

  /** No element occurs twice. */
  ghost predicate Distinct<T>(s: seq<T>) {
    forall i, j :: 0 <= i < j < |s| ==> s[i] != s[j]
  }

  /** Milliseconds per minute, hour and day. */
  const MsPerMinute: int := 60000
  const MsPerHour: int := 3600000
  const MsPerDay: int := 86400000

  predicate StartsWith(s: string, prefix: string) {
    |prefix| <= |s| && s[..|prefix|] == prefix
  }

  predicate EndsWith(s: string, suffix: string) {
    |suffix| <= |s| && s[|s| - |suffix|..] == suffix
  }

  /** The seven news categories. */
  datatype Category = General | Business | Entertainment | Health | Science | Sports | Technology

  /** The category's identifier as it appears in keys and article records. */
  function CategoryName(c: Category): string
  {
    match c
    case General => "general"
    case Business => "business"
    case Entertainment => "entertainment"
    case Health => "health"
    case Science => "science"
    case Sports => "sports"
    case Technology => "technology"
  }

  /** Every category in the generator's fixed order. */
  const AllCategories: seq<Category> :=
    [General, Business, Entertainment, Health, Science, Sports, Technology]

  datatype Source = Source(name: string, url: string)

  datatype Article = Article(
    id: string,
    title: string,
    description: string,
    content: string,
    url: string,
    imageUrl: string,
    publishedAt: int,
    source: Source,
    category: Category,
    author: Option<string>)

  /** No two articles share an id. */
  ghost predicate IdsDistinct(s: seq<Article>) {
    forall i, j :: 0 <= i < j < |s| ==> s[i].id != s[j].id
  }

  datatype FavoriteItem = FavoriteItem(
    id: string,
    title: string,
    description: string,
    imageUrl: string,
    url: string,
    source: string,
    addedAt: int)

  datatype UserPreferences = UserPreferences(interests: seq<Category>, darkMode: bool)
}
