// toggleFavorite of scripts/main.js: the list of favourite product ids, with an
// id removed (first occurrence) when present and appended when absent.

module Favorites {

  /** The first position at or after k holding `id`, or -1. */
  function FirstIndexFrom(s: seq<int>, id: int, k: nat): (r: int)
    requires k <= |s|
    ensures r == -1 || k <= r < |s|
    ensures r == -1 <==> forall j :: k <= j < |s| ==> s[j] != id
    ensures r >= 0 ==> s[r] == id && forall j :: k <= j < r ==> s[j] != id
    decreases |s| - k
  {
    if k == |s| then -1
    else if s[k] == id then k
    else FirstIndexFrom(s, id, k + 1)
  }

  /** `favorites.indexOf(id)`: the first position holding `id`, or -1. */
  function FirstIndex(s: seq<int>, id: int): (r: int)
    ensures -1 <= r < |s|
    ensures r == -1 <==> forall j :: 0 <= j < |s| ==> s[j] != id
    ensures r >= 0 ==> s[r] == id && forall j :: 0 <= j < r ==> s[j] != id
  {
    FirstIndexFrom(s, id, 0)
  }

  /** `r` is `s` with position i taken out. */
  predicate WithoutAt(s: seq<int>, i: int, r: seq<int>) {
    0 <= i < |s| && |r| == |s| - 1
    && (forall k :: 0 <= k < i ==> r[k] == s[k])
    && (forall k :: i <= k < |r| ==> r[k] == s[k + 1])
  }

  /** The list after toggleFavorite(id): without the first occurrence of `id`
      when there is one, otherwise with `id` at the end. */
  function Toggled(s: seq<int>, id: int): (r: seq<int>)
    ensures var i := FirstIndex(s, id); i > -1 ==> WithoutAt(s, i, r)
    ensures var i := FirstIndex(s, id);
      i == -1 ==> |r| == |s| + 1 && r[|s|] == id && forall k :: 0 <= k < |s| ==> r[k] == s[k]
  {
    var i := FirstIndex(s, id);
    if i > -1 then
      SliceOutIsWithoutAt(s, i);
      s[..i] + s[i + 1..]
    else s + [id]
  }

  /** Concatenating the slices around position i takes that position out. */
  lemma SliceOutIsWithoutAt(s: seq<int>, i: int)
    requires 0 <= i < |s|
    ensures WithoutAt(s, i, s[..i] + s[i + 1..])
  {
    var r := s[..i] + s[i + 1..];
    assert forall k :: 0 <= k < i ==> r[k] == s[..i][k];
    assert forall k :: i <= k < |r| ==> r[k] == s[i + 1..][k - i];
  }

  /** No id occurs twice. */
  predicate NoDuplicates(s: seq<int>) {
    forall i, j :: 0 <= i < j < |s| ==> s[i] != s[j]
  }

  /** The linear scan of `indexOf`. */
  method IndexOf(s: seq<int>, id: int) returns (index: int)
    ensures index == FirstIndex(s, id)
  {
    index := 0;
    while index < |s|
      invariant 0 <= index <= |s|
      invariant forall j :: 0 <= j < index ==> s[j] != id
    {
      if s[index] == id {
        return;
      }
      index := index + 1;
    }
    index := -1;
  }

  /** The favourites list as toggleFavorite reads and rewrites it. */
  class FavoriteList {
    var favorites: seq<int>

    constructor(saved: seq<int>)
      ensures favorites == saved
    {
      favorites := saved;
    }

    /** toggleFavorite(productId): splice out the first occurrence, or push. */
    method ToggleFavorite(productId: int)
      modifies this
      ensures favorites == Toggled(old(favorites), productId)
      ensures NoDuplicates(old(favorites)) ==> NoDuplicates(favorites)
    {
      ToggleKeepsNoDuplicates(favorites, productId);
      var index := IndexOf(favorites, productId);
      if index > -1 {
        favorites := favorites[..index] + favorites[index + 1..];
      } else {
        favorites := favorites + [productId];
      }
    }
  }

  /** A present id loses exactly its first occurrence: the ids before it and
      after it stay, in their order, and there is one fewer of it. */
  lemma ToggleRemovesFirst(s: seq<int>, id: int)
    requires id in s
    ensures var i := FirstIndex(s, id);
      0 <= i && Toggled(s, id) == s[..i] + s[i + 1..]
      && (forall j :: 0 <= j < i ==> s[j] != id)
      && multiset(Toggled(s, id)) == multiset(s) - multiset{id}
  {
    var i := FirstIndex(s, id);
    var a, b := s[..i], s[i + 1..];
    assert s == (a + [id]) + b;
    assert multiset(s) == multiset(a) + multiset{id} + multiset(b);
  }

  /** An absent id is appended at the end. */
  lemma ToggleAppends(s: seq<int>, id: int)
    requires id !in s
    ensures Toggled(s, id) == s + [id]
  {
  }

  /** Toggling an absent id twice gives the original list back. */
  lemma ToggleTwiceAbsent(s: seq<int>, id: int)
    requires id !in s
    ensures Toggled(Toggled(s, id), id) == s
  {
    var t := Toggled(s, id);
    assert forall j :: 0 <= j < |s| ==> t[j] == s[j] && s[j] != id;
    assert FirstIndex(t, id) == |s|;
  }

  /** Taking one position out of a list without duplicates loses that id only. */
  lemma WithoutAtMembers(s: seq<int>, i: int, r: seq<int>, x: int)
    requires NoDuplicates(s) && WithoutAt(s, i, r)
    ensures NoDuplicates(r)
    ensures x in r <==> x in s && x != s[i]
  {
    forall a, b | 0 <= a < b < |r|
      ensures r[a] != r[b]
    {
      var a' := if a < i then a else a + 1;
      var b' := if b < i then b else b + 1;
      assert r[a] == s[a'] && r[b] == s[b'] && a' < b';
    }
    if x in r {
      var k :| 0 <= k < |r| && r[k] == x;
      var k' := if k < i then k else k + 1;
      assert s[k'] == x && k' != i;
    }
    if x in s && x != s[i] {
      var k :| 0 <= k < |s| && s[k] == x;
      assert r[if k < i then k else k - 1] == x;
    }
  }

  /** Appending an id the list lacks keeps it free of duplicates. */
  lemma AppendFresh(s: seq<int>, x: int)
    requires NoDuplicates(s) && x !in s
    ensures NoDuplicates(s + [x])
  {
    var r := s + [x];
    forall a, b | 0 <= a < b < |r|
      ensures r[a] != r[b]
    {
      assert r[a] == s[a];
    }
  }

  /** Toggling never introduces a duplicate into a list without duplicates. */
  lemma ToggleKeepsNoDuplicates(s: seq<int>, id: int)
    ensures NoDuplicates(s) ==> NoDuplicates(Toggled(s, id))
  {
    if NoDuplicates(s) {
      var i := FirstIndex(s, id);
      if i > -1 {
        WithoutAtMembers(s, i, Toggled(s, id), id);
      } else {
        AppendFresh(s, id);
      }
    }
  }

  /** On a list without duplicates, a toggle flips the id's membership and
      leaves every other id's membership as it was. */
  lemma ToggleFlipsMembership(s: seq<int>, id: int, other: int)
    requires NoDuplicates(s)
    ensures id in Toggled(s, id) <==> id !in s
    ensures other != id ==> (other in Toggled(s, id) <==> other in s)
  {
    var i := FirstIndex(s, id);
    var r := Toggled(s, id);
    if i > -1 {
      WithoutAtMembers(s, i, r, id);
      WithoutAtMembers(s, i, r, other);
    } else {
      assert r == s + [id];
    }
  }
}
