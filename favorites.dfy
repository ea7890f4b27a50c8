/** The favourite-challenge list kept in browser storage. Storage is an
    abstract list of ids; outside a browser (no `window`) every operation
    sees an empty list and writes nothing. */
module Favorites {
  import opened Lists

  /** `push` unless already present. */
  function Added(favorites: seq<string>, id: string): (r: seq<string>)
    ensures id in r
    ensures id in favorites ==> r == favorites
    ensures id !in favorites ==> r == favorites + [id]
  {
    if id in favorites then favorites else favorites + [id]
  }

  /** `splice(indexOf(id), 1)` when the id is present: the first copy goes
      and the rest keep their order. */
  function Removed(favorites: seq<string>, id: string): (r: seq<string>)
    ensures id !in favorites ==> r == favorites
    ensures multiset(r) == multiset(favorites) - multiset{id}
    ensures id in favorites ==>
              exists i :: 0 <= i < |favorites| && favorites[i] == id && id !in favorites[..i] &&
                          r == favorites[..i] + favorites[i + 1..]
  {
    var i := IndexOf(favorites, id);
    if i == -1 then favorites
    else
      assert favorites == favorites[..i] + [id] + favorites[i + 1..];
      favorites[..i] + favorites[i + 1..]
  }

  /** Adding twice is adding once. */
  lemma AddIdempotent(favorites: seq<string>, id: string)
    ensures Added(Added(favorites, id), id) == Added(favorites, id)
  {
  }

  /** Adding never creates a duplicate. */
  lemma AddKeepsNoDuplicates(favorites: seq<string>, id: string)
    requires NoDuplicates(favorites)
    ensures NoDuplicates(Added(favorites, id))
  {
  }

  /** Removing the first copy from a duplicate-free list leaves no copy. */
  lemma RemoveFromNoDuplicates(favorites: seq<string>, id: string)
    requires NoDuplicates(favorites)
    ensures id !in Removed(favorites, id)
    ensures NoDuplicates(Removed(favorites, id))
  {
    var i := IndexOf(favorites, id);
    if i != -1 {
      var r := Removed(favorites, id);
      assert r == favorites[..i] + favorites[i + 1..];
      forall k | 0 <= k < |r|
        ensures r[k] != id
      {
        if k < i { assert r[k] == favorites[k]; } else { assert r[k] == favorites[k + 1]; }
      }
    }
  }

  /** Removing an id just added to a list without it gives the list back. */
  lemma AddThenRemoveRestores(favorites: seq<string>, id: string)
    requires id !in favorites
    ensures Removed(Added(favorites, id), id) == favorites
  {
    var s := favorites + [id];
    assert s[|favorites|] == id;
    assert s[..|favorites|] == favorites;
    assert IndexOf(s, id) == |favorites|;
    assert s[|favorites| + 1..] == [];
  }

  /** The storage behind the helpers. */
  class FavoritesStorage {
    /** Whether a `window` exists. */
    const hasWindow: bool
    /** The parsed `challenge_favorites` entry; an unset entry reads as []. */
    var stored: seq<string>

    constructor (hasWindow: bool, stored: seq<string>)
      ensures this.hasWindow == hasWindow && this.stored == stored
    {
      this.hasWindow := hasWindow;
      this.stored := stored;
    }

    /** `getFavoritesFromStorage`. */
    method GetFavorites() returns (r: seq<string>)
      ensures hasWindow ==> r == stored
      ensures !hasWindow ==> r == []
    {
      if !hasWindow {
        return [];
      }
      r := stored;
    }

    /** `isFavoriteInStorage`. */
    method IsFavorite(id: string) returns (b: bool)
      ensures b <==> hasWindow && id in stored
    {
      var favorites := GetFavorites();
      b := id in favorites;
    }

    /** `addFavoriteToStorage`: append and write back when absent. */
    method AddFavorite(id: string)
      modifies this
      ensures hasWindow ==> stored == Added(old(stored), id)
      ensures !hasWindow ==> stored == old(stored)
    {
      if !hasWindow {
        return;
      }
      var favorites := GetFavorites();
      if id !in favorites {
        favorites := favorites + [id];
        stored := favorites;
      }
    }

    /** `removeFavoriteFromStorage`: splice out the first copy and write
        back when present. */
    method RemoveFavorite(id: string)
      modifies this
      ensures hasWindow ==> stored == Removed(old(stored), id)
      ensures !hasWindow ==> stored == old(stored)
    {
      if !hasWindow {
        return;
      }
      var favorites := GetFavorites();
      var index := IndexOf(favorites, id);
      if index != -1 {
        favorites := favorites[..index] + favorites[index + 1..];
        stored := favorites;
      }
    }
  }

  /** After an add in a browser, the id is a favourite. */
  method AddThenIsFavorite(storage: FavoritesStorage, id: string) returns (b: bool)
    requires storage.hasWindow
    modifies storage
    ensures b
  {
    storage.AddFavorite(id);
    b := storage.IsFavorite(id);
  }
}
