/**
 * The preferences slice: favourite cities and coins, toggled in place with
 * `indexOf` followed by `push` or `splice`, plus the theme and refresh interval.
 */
module PreferencesSlice {

  /** `s.indexOf(x)`: the first position of `x`, or -1. */
  function IndexOf(s: seq<string>, x: string): (i: int)
    ensures -1 <= i < |s|
    ensures i == -1 <==> x !in s
    ensures 0 <= i ==> s[i] == x && x !in s[..i]
  {
    if s == [] then -1
    else if s[0] == x then 0
    else
      var j := IndexOf(s[1..], x);
      assert j >= 0 ==> s[..j + 1] == [s[0]] + s[1..][..j];
      if j == -1 then -1 else j + 1
  }

  /** The list after a toggle: push an absent value, splice out the first occurrence of a present one. */
  function Toggled(s: seq<string>, x: string): (r: seq<string>)
    ensures x !in s ==> r == s + [x]
    ensures x in s ==> |r| == |s| - 1 && multiset(r) == multiset(s) - multiset{x}
    // the first occurrence is the one removed, and the others keep their order
    ensures x in s ==>
      exists i :: 0 <= i < |s| && s[i] == x && x !in s[..i] && r == s[..i] + s[i + 1..]
  {
    var i := IndexOf(s, x);
    if i == -1 then s + [x]
    else
      assert s == s[..i] + [x] + s[i + 1..];
      s[..i] + s[i + 1..]
  }

  predicate NoDuplicates(s: seq<string>) {
    forall i, j :: 0 <= i < j < |s| ==> s[i] != s[j]
  }

  /**
   * On a list without duplicates a toggle flips the membership of its value,
   * leaves every other value where membership is concerned, and keeps the list
   * free of duplicates.
   */
  lemma ToggleFlipsMembership(s: seq<string>, x: string)
    requires NoDuplicates(s)
    ensures x in Toggled(s, x) <==> x !in s
    ensures forall y :: y != x ==> (y in Toggled(s, x) <==> y in s)
    ensures NoDuplicates(Toggled(s, x))
  {
    var r := Toggled(s, x);
    if x in s {
      var i := IndexOf(s, x);
      assert r == s[..i] + s[i + 1..];
      // position a of r holds position a of s before i, and position a + 1 from i on
      forall a | 0 <= a < |r| ensures r[a] == s[if a < i then a else a + 1] {
      }
      forall a, b | 0 <= a < b < |r| ensures r[a] != r[b] {
        assert r[a] == s[if a < i then a else a + 1];
        assert r[b] == s[if b < i then b else b + 1];
      }
      forall a | 0 <= a < |r| ensures r[a] != x {
        assert r[a] == s[if a < i then a else a + 1];
      }
      forall y | y != x && y in s ensures y in r {
        var k :| 0 <= k < |s| && s[k] == y;
        assert r[if k < i then k else k - 1] == y;
      }
    } else {
      assert r == s + [x];
    }
  }

  /** Toggling an absent value twice gives back the original list. */
  lemma ToggleTwiceRestores(s: seq<string>, x: string)
    requires x !in s
    ensures Toggled(Toggled(s, x), x) == s
  {
  }

  class Preferences {
    var favoriteCities: seq<string>
    var favoriteCoins: seq<string>
    var theme: string
    /** In seconds. */
    var refreshInterval: int

    constructor()
      ensures favoriteCities == [] && favoriteCoins == [] && theme == "light" && refreshInterval == 60
    {
      favoriteCities := [];
      favoriteCoins := [];
      theme := "light";
      refreshInterval := 60;
    }

    /** `toggleFavoriteCity`. */
    method ToggleFavoriteCity(city: string)
      modifies this
      ensures favoriteCities == Toggled(old(favoriteCities), city)
      ensures favoriteCoins == old(favoriteCoins) && theme == old(theme)
      ensures refreshInterval == old(refreshInterval)
    {
      var index := IndexOf(favoriteCities, city);
      if index == -1 {
        favoriteCities := favoriteCities + [city];
      } else {
        favoriteCities := favoriteCities[..index] + favoriteCities[index + 1..];
      }
    }

    /** `toggleFavoriteCoin`. */
    method ToggleFavoriteCoin(coin: string)
      modifies this
      ensures favoriteCoins == Toggled(old(favoriteCoins), coin)
      ensures favoriteCities == old(favoriteCities) && theme == old(theme)
      ensures refreshInterval == old(refreshInterval)
    {
      var index := IndexOf(favoriteCoins, coin);
      if index == -1 {
        favoriteCoins := favoriteCoins + [coin];
      } else {
        favoriteCoins := favoriteCoins[..index] + favoriteCoins[index + 1..];
      }
    }

    /** `setTheme`. */
    method SetTheme(theme: string)
      modifies this
      ensures this.theme == theme
      ensures favoriteCities == old(favoriteCities) && favoriteCoins == old(favoriteCoins)
      ensures refreshInterval == old(refreshInterval)
    {
      this.theme := theme;
    }

    /** `setRefreshInterval`. */
    method SetRefreshInterval(seconds: int)
      modifies this
      ensures refreshInterval == seconds
      ensures favoriteCities == old(favoriteCities) && favoriteCoins == old(favoriteCoins)
      ensures theme == old(theme)
    {
      refreshInterval := seconds;
    }
  }
}
