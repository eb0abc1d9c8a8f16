/** User preferences: the ordered list of categories the user follows and the
    dark-mode flag. Each update returns a new record; persistence is not
    modelled. */
module Preferences {
  import opened NewsTypes

  const DefaultPreferences: UserPreferences :=
    UserPreferences([General, Technology, Science], false)

  /** What durable storage yields for the preferences key at start-up: nothing
      (or an empty string), something that does not parse, or a parsed
      object carrying some of the two fields. */
  datatype StoredPreferences =
    | Absent
    | Corrupt
    | Stored(interests: Option<seq<Category>>, darkMode: Option<bool>)

  /** The record the hook starts with: each stored field overrides its
      default, each missing one keeps the default. */
  function LoadPreferences(stored: StoredPreferences): (p: UserPreferences)
    ensures !stored.Stored? ==> p == DefaultPreferences
    ensures stored.Stored? && stored.interests.Some? ==> p.interests == stored.interests.value
    ensures stored.Stored? && stored.interests.None? ==> p.interests == DefaultPreferences.interests
    ensures stored.Stored? && stored.darkMode.Some? ==> p.darkMode == stored.darkMode.value
    ensures stored.Stored? && stored.darkMode.None? ==> p.darkMode == DefaultPreferences.darkMode
  {
    match stored
    case Stored(interests, darkMode) =>
      var withInterests := (match interests
        case Some(v) => DefaultPreferences.(interests := v)
        case None => DefaultPreferences);
      (match darkMode
       case Some(v) => withInterests.(darkMode := v)
       case None => withInterests)
    case _ => DefaultPreferences
  }

  function SetInterests(prev: UserPreferences, interests: seq<Category>): (p: UserPreferences)
    ensures p.interests == interests && p.darkMode == prev.darkMode
  {
    prev.(interests := interests)
  }

  /** The list without any occurrence of `c`, other entries in order. */
  function Without(s: seq<Category>, c: Category): (r: seq<Category>)
    ensures c !in r
    ensures forall d :: d != c ==> (d in r <==> d in s)
    ensures |r| <= |s|
    ensures c !in s ==> r == s
  {
    if s == [] then []
    else (if s[0] == c then [] else [s[0]]) + Without(s[1..], c)
  }

  /** Unfollowing keeps the other interests in their order and with their
      multiplicities: the filter distributes over concatenation, and a
      single interest stays exactly when it is not `c`. */
  lemma {:induction false} WithoutConcat(a: seq<Category>, b: seq<Category>, x: Category, c: Category)
    ensures Without(a + b, c) == Without(a, c) + Without(b, c)
    ensures Without([x], c) == if x == c then [] else [x]
  {
    if a == [] {
      assert a + b == b;
    } else {
      assert (a + b)[1..] == a[1..] + b;
      WithoutConcat(a[1..], b, x, c);
    }
    assert [x][1..] == [];
  }

  /** Unfollows a followed category (all its occurrences) or follows a new
      one at the end of the list. */
  function ToggleInterest(prev: UserPreferences, c: Category): (p: UserPreferences)
    ensures p.darkMode == prev.darkMode
    ensures c in prev.interests ==> p.interests == Without(prev.interests, c)
    ensures c !in prev.interests ==> p.interests == prev.interests + [c]
    ensures c in p.interests <==> c !in prev.interests
  {
    if c in prev.interests then prev.(interests := Without(prev.interests, c))
    else prev.(interests := prev.interests + [c])
  }

  function HasInterest(prefs: UserPreferences, c: Category): (b: bool)
    ensures b <==> exists i :: 0 <= i < |prefs.interests| && prefs.interests[i] == c
  {
    c in prefs.interests
  }

  function ResetPreferences(): (p: UserPreferences)
    ensures p == DefaultPreferences
  {
    DefaultPreferences
  }

  lemma {:induction false} WithoutAppended(s: seq<Category>, c: Category)
    requires c !in s
    ensures Without(s + [c], c) == s
  {
    if s == [] {
      assert Without([c], c) == [] + Without([], c);
    } else {
      assert (s + [c])[1..] == s[1..] + [c];
      WithoutAppended(s[1..], c);
      assert s == [s[0]] + s[1..];
    }
  }

  /** Following and then unfollowing a category restores the list. */
  lemma ToggleTwiceRestores(prev: UserPreferences, c: Category)
    requires c !in prev.interests
    ensures ToggleInterest(ToggleInterest(prev, c), c) == prev
  {
    WithoutAppended(prev.interests, c);
  }

  /** Unfollowing and then following again moves the category to the end,
      once. */
  lemma ToggleTwiceMovesToEnd(prev: UserPreferences, c: Category)
    requires c in prev.interests
    ensures ToggleInterest(ToggleInterest(prev, c), c).interests == Without(prev.interests, c) + [c]
  {
  }

  /** Toggling never introduces a duplicate into a duplicate-free list. */
  lemma {:induction false} ToggleKeepsDistinct(prev: UserPreferences, c: Category)
    requires Distinct(prev.interests)
    ensures Distinct(ToggleInterest(prev, c).interests)
  {
    if c in prev.interests {
      WithoutDistinct(prev.interests, c);
      assert ToggleInterest(prev, c).interests == Without(prev.interests, c);
    } else {
      var s := prev.interests + [c];
      forall i, j | 0 <= i < j < |s| ensures s[i] != s[j] {
        if j == |s| - 1 { assert s[i] in prev.interests; }
      }
    }
  }

  lemma {:induction false} WithoutDistinct(s: seq<Category>, c: Category)
    requires Distinct(s)
    ensures Distinct(Without(s, c))
  {
    if s != [] {
      WithoutDistinct(s[1..], c);
      var rest := Without(s[1..], c);
      if s[0] != c {
        var r := [s[0]] + rest;
        assert s[0] !in s[1..] by {
          assert forall k :: 0 <= k < |s[1..]| ==> s[1..][k] == s[k + 1];
        }
        forall i, j | 0 <= i < j < |r| ensures r[i] != r[j] {
          if i == 0 {
            assert rest[j - 1] in rest && rest[j - 1] != c;
            assert r[j] == rest[j - 1] && rest[j - 1] in s[1..];
          } else {
            assert r[i] == rest[i - 1] && r[j] == rest[j - 1];
          }
        }
      }
    }
  }
}
