/** The favorites feature of the player page: a list of song file names kept in
    local storage under the key "musicFavorites", toggled for the current song. */
module Favorites {

  /** The storage key under which the favorites list is kept. */
  const FavoritesKey: string := "musicFavorites"

  /** A track of the playlist; only its file name matters to the favorites. */
  datatype Song = Song(name: string)

  /** No name occurs twice in the list. */
  predicate NoDup(s: seq<string>) {
    forall i, j :: 0 <= i < j < |s| ==> s[i] != s[j]
  }

  /** The position `Array.prototype.indexOf` reports: the first occurrence of
      `x` in `s`, or -1 when there is none. */
  function FirstIndex(s: seq<string>, x: string): (r: int)
    ensures -1 <= r < |s|
    ensures r == -1 <==> x !in s
    ensures r >= 0 ==> s[r] == x && x !in s[..r]
  {
    if s == [] then -1
    else if s[0] == x then 0
    else
      var k := FirstIndex(s[1..], x);
      if k == -1 then -1
      else
        assert s[..k + 1] == [s[0]] + s[1..][..k];
        k + 1
  }

  /** The list after one toggle of `name`: appended when absent, otherwise the
      occurrence found by `indexOf` is cut out with `splice`. */
  function Toggled(favs: seq<string>, name: string): (r: seq<string>)
    ensures name !in favs ==> r == favs + [name]
    ensures name in favs ==> |r| == |favs| - 1
    ensures name in favs ==> multiset(r) == multiset(favs) - multiset{name}
  {
    var i := FirstIndex(favs, name);
    if i == -1 then favs + [name]
    else
      assert favs == favs[..i] + [favs[i]] + favs[i + 1..];
      favs[..i] + favs[i + 1..]
  }

  /** Removing a present name keeps every other entry, in order: the entries
      before the first occurrence stay put and the later ones shift down by one. */
  lemma ToggleRemovesFirstOccurrence(favs: seq<string>, name: string)
    requires name in favs
    ensures var i := FirstIndex(favs, name);
      0 <= i < |favs| && favs[i] == name && name !in favs[..i] &&
      (forall k :: 0 <= k < i ==> Toggled(favs, name)[k] == favs[k]) &&
      (forall k :: i <= k < |favs| - 1 ==> Toggled(favs, name)[k] == favs[k + 1])
  {
    var i := FirstIndex(favs, name);
    assert Toggled(favs, name) == favs[..i] + favs[i + 1..];
  }

  /** Without duplicates, a toggle flips membership of the toggled name. */
  lemma ToggleFlipsMembership(favs: seq<string>, name: string)
    requires NoDup(favs)
    ensures (name in Toggled(favs, name)) <==> (name !in favs)
  {
    if name in favs {
      var i := FirstIndex(favs, name);
      var r := Toggled(favs, name);
      forall k | 0 <= k < |r| ensures r[k] != name {
        if k < i {
          assert r[k] == favs[k];
        } else {
          assert r[k] == favs[k + 1];
        }
      }
    }
  }

  /** A name that occurs at two positions is still a favorite after one
      toggle: the flip of membership needs the list to be free of duplicates. */
  lemma DuplicateSurvivesToggle(favs: seq<string>, name: string, i: nat, j: nat)
    requires i < j < |favs| && favs[i] == name && favs[j] == name
    ensures name in Toggled(favs, name)
  {
    var f := FirstIndex(favs, name);
    assert f <= i;
    ToggleRemovesFirstOccurrence(favs, name);
    assert Toggled(favs, name)[j - 1] == name;
  }

  /** Cutting one entry out of a duplicate-free list leaves it duplicate-free. */
  lemma RemovePreservesNoDup(s: seq<string>, i: nat)
    requires NoDup(s) && i < |s|
    ensures NoDup(s[..i] + s[i + 1..])
  {
    var r := s[..i] + s[i + 1..];
    forall a, b | 0 <= a < b < |r| ensures r[a] != r[b] {
      var a' := if a < i then a else a + 1;
      var b' := if b < i then b else b + 1;
      assert r[a] == s[a'] && r[b] == s[b'] && a' < b';
    }
  }

  /** Appending a name that is absent keeps a list duplicate-free. */
  lemma AppendPreservesNoDup(s: seq<string>, x: string)
    requires NoDup(s) && x !in s
    ensures NoDup(s + [x])
  {
    var r := s + [x];
    forall a, b | 0 <= a < b < |r| ensures r[a] != r[b] {
      assert r[a] == s[a];
    }
  }

  /** Toggles keep a duplicate-free list duplicate-free. */
  lemma TogglePreservesNoDup(favs: seq<string>, name: string)
    requires NoDup(favs)
    ensures NoDup(Toggled(favs, name))
  {
    if name in favs {
      var i := FirstIndex(favs, name);
      assert Toggled(favs, name) == favs[..i] + favs[i + 1..];
      RemovePreservesNoDup(favs, i);
    } else {
      AppendPreservesNoDup(favs, name);
    }
  }

  /** Toggling an absent name twice gives back the original list exactly. */
  lemma ToggleTwiceAbsentRestores(favs: seq<string>, name: string)
    requires name !in favs
    ensures Toggled(Toggled(favs, name), name) == favs
  {
    var once := favs + [name];
    assert once[..|favs|] == favs;
  }

  /** Toggling a present name of a duplicate-free list twice keeps the same
      members but moves the name to the end. */
  lemma ToggleTwicePresentMovesToEnd(favs: seq<string>, name: string)
    requires NoDup(favs) && name in favs
    ensures Toggled(Toggled(favs, name), name) == Toggled(favs, name) + [name]
    ensures forall y :: y in Toggled(Toggled(favs, name), name) <==> y in favs
  {
    var once := Toggled(favs, name);
    ToggleFlipsMembership(favs, name);
    assert name !in once;
    var twice := once + [name];
    forall y ensures y in twice <==> y in favs {
      calc {
        y in twice;
        y in multiset(twice);
        y in multiset(once) + multiset{name};
        y in multiset(favs) - multiset{name} + multiset{name};
        { assert name in multiset(favs); }
        y in multiset(favs);
        y in favs;
      }
    }
  }

  /** The part of the page state the favorites feature works on: local
      storage, as a map from keys to parsed JSON arrays of file names. */
  class FavoritesFeature {
    var store: map<string, seq<string>>

    constructor (initial: map<string, seq<string>>)
      ensures store == initial
    {
      store := initial;
    }

    /** What `getFavorites` parses: the stored list, or `[]` when nothing is stored. */
    function Favorites(): (favs: seq<string>)
      reads this
      ensures FavoritesKey in store ==> favs == store[FavoritesKey]
      ensures FavoritesKey !in store ==> favs == []
    {
      if FavoritesKey in store then store[FavoritesKey] else []
    }

    /** `getFavorites`: reads the list from storage. */
    method GetFavorites() returns (favs: seq<string>)
      ensures FavoritesKey in store ==> favs == store[FavoritesKey]
      ensures FavoritesKey !in store ==> favs == []
    {
      if FavoritesKey in store {
        favs := store[FavoritesKey];
      } else {
        favs := [];
      }
    }

    /** `saveFavorites`: writes the list back under its key, leaving other keys alone. */
    method SaveFavorites(favs: seq<string>)
      modifies this
      ensures store == old(store)[FavoritesKey := favs]
      ensures Favorites() == favs
    {
      store := store[FavoritesKey := favs];
    }

    /** `isFavorite`: whether the stored list includes `fileName`. */
    method IsFavorite(fileName: string) returns (b: bool)
      ensures b <==> fileName in Favorites()
    {
      var favs := GetFavorites();
      var i := 0;
      b := false;
      while i < |favs|
        invariant 0 <= i <= |favs|
        invariant b <==> fileName in favs[..i]
      {
        assert favs[..i + 1] == favs[..i] + [favs[i]];
        if favs[i] == fileName {
          b := true;
        }
        i := i + 1;
      }
      assert favs[..i] == favs;
    }

    /** `toggleFavorite`: does nothing unless `currentIndex` names a song of
        the playlist; otherwise toggles that song's name and saves the list. */
    method ToggleFavorite(songs: seq<Song>, currentIndex: int)
      modifies this
      ensures currentIndex == -1 || !(0 <= currentIndex < |songs|) ==> store == old(store)
      ensures 0 <= currentIndex < |songs| ==>
        store == old(store)[FavoritesKey := Toggled(old(Favorites()), songs[currentIndex].name)]
      ensures 0 <= currentIndex < |songs| ==>
        Favorites() == Toggled(old(Favorites()), songs[currentIndex].name)
    {
      if currentIndex == -1 || !(0 <= currentIndex < |songs|) {
        return;
      }
      var fileName := songs[currentIndex].name;
      var favorites := GetFavorites();
      var index := IndexOf(favorites, fileName);
      if index == -1 {
        favorites := favorites + [fileName];
      } else {
        favorites := favorites[..index] + favorites[index + 1..];
      }
      SaveFavorites(favorites);
    }
  }

  /** `Array.prototype.indexOf` as the loop it performs. */
  method IndexOf(s: seq<string>, x: string) returns (i: int)
    ensures i == FirstIndex(s, x)
  {
    i := 0;
    while i < |s|
      invariant 0 <= i <= |s|
      invariant x !in s[..i]
    {
      if s[i] == x {
        return;
      }
      assert s[..i + 1] == s[..i] + [s[i]];
      i := i + 1;
    }
    assert s[..i] == s;
    i := -1;
  }
}
