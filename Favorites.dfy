/**
 * The favorites store (src/hooks/useFavorites.ts): a list of `Item`s kept
 * in the browser's local storage under one fixed key and rewritten whole by
 * every mutation.
 *
 * Local storage holds strings. JSON is modelled as an ideal round trip: an
 * `Entry` is either `Json(items)` -- a string that `JSON.parse` reads back as
 * the array `items`, as `JSON.stringify(items)` writes it -- or `Text(raw)`,
 * any other string. The JSON text of an item array is always `Json(items)`,
 * never `Text(raw)`; the datatype does not enforce this convention.
 */
module Favorites {
  import opened Wrappers
  import opened Search

  datatype Entry = Json(items: seq<Item>) | Text(raw: string)

  /** Reading the stored list failed: the text under the key is not the JSON
      of an item list, so `JSON.parse` throws or yields no array. */
  datatype ReadError = Unparsable

  /** `localStorageKey`: the one key the store uses. */
  const LocalStorageKey: string := "favorites"

  /** What `localStorage.getItem(key)` returns: the entry, or `null`. */
  function Lookup(entries: map<string, Entry>, key: string): Option<Entry> {
    if key in entries then Some(entries[key]) else None
  }

  /** The browser's `localStorage`, a map from keys to stored strings. */
  class Storage {
    var entries: map<string, Entry>

    constructor (initial: map<string, Entry>)
      ensures entries == initial
    {
      entries := initial;
    }

    method GetItem(key: string) returns (v: Option<Entry>)
      ensures v == Lookup(entries, key)
    {
      v := if key in entries then Some(entries[key]) else None;
    }

    method SetItem(key: string, value: Entry)
      modifies this
      ensures entries == old(entries)[key := value]
    {
      entries := entries[key := value];
    }
  }

  /** `favorites ? JSON.parse(favorites) : []`: nothing stored and the
      empty string (the only falsy string) read as the empty list. */
  function ParseFavorites(stored: Option<Entry>): (r: Result<seq<Item>, ReadError>)
    ensures stored.None? || stored == Some(Text("")) ==> r == Success([])
    ensures stored.Some? && stored.value.Json? ==> r == Success(stored.value.items)
    ensures r.Failure? <==> stored.Some? && stored.value.Text? && stored.value.raw != ""
  {
    match stored
    case None => Success([])
    case Some(Text(raw)) => if raw == "" then Success([]) else Failure(Unparsable)
    case Some(Json(items)) => Success(items)
  }

  /** The list `getFavorites` resolves to for the given storage contents. */
  function FavoritesIn(entries: map<string, Entry>): Result<seq<Item>, ReadError> {
    ParseFavorites(Lookup(entries, LocalStorageKey))
  }

  /** `favorites.filter(favorite => favorite.identifier !== id)`. */
  function WithoutId(favorites: seq<Item>, id: int): (r: seq<Item>)
    ensures |r| <= |favorites|
    ensures forall i :: 0 <= i < |r| ==> r[i].identifier != id
  {
    if favorites == [] then []
    else if favorites[0].identifier != id then [favorites[0]] + WithoutId(favorites[1..], id)
    else WithoutId(favorites[1..], id)
  }

  /** `a` is `b` with some elements left out, the rest in their order. */
  predicate IsSubsequence(a: seq<Item>, b: seq<Item>) {
    a == [] || (b != [] && ((a[0] == b[0] && IsSubsequence(a[1..], b[1..])) || IsSubsequence(a, b[1..])))
  }

  lemma {:induction false} WithoutIdIsSubsequence(favorites: seq<Item>, id: int)
    ensures IsSubsequence(WithoutId(favorites, id), favorites)
  {
    if favorites != [] {
      WithoutIdIsSubsequence(favorites[1..], id);
      var rest := WithoutId(favorites[1..], id);
      if favorites[0].identifier != id {
        assert ([favorites[0]] + rest)[1..] == rest;
      }
    }
  }

  /** Every item with another identifier is kept, as often as it occurred;
      every item with this identifier is gone. */
  lemma {:induction false} WithoutIdCounts(favorites: seq<Item>, id: int)
    ensures forall x :: multiset(WithoutId(favorites, id))[x] == if x.identifier == id then 0 else multiset(favorites)[x]
  {
    if favorites != [] {
      WithoutIdCounts(favorites[1..], id);
      assert favorites == [favorites[0]] + favorites[1..];
    }
  }

  /** Filtering a list none of whose items has the identifier changes nothing. */
  lemma {:induction false} WithoutAbsentId(favorites: seq<Item>, id: int)
    requires forall i :: 0 <= i < |favorites| ==> favorites[i].identifier != id
    ensures WithoutId(favorites, id) == favorites
  {
    if favorites != [] {
      WithoutAbsentId(favorites[1..], id);
    }
  }

  /** Filtering distributes over concatenation, so the relative order of the
      kept items is that of the input. */
  lemma {:induction false} WithoutIdAppend(a: seq<Item>, b: seq<Item>, id: int)
    ensures WithoutId(a + b, id) == WithoutId(a, id) + WithoutId(b, id)
  {
    if a != [] {
      WithoutIdAppend(a[1..], b, id);
      assert (a + b)[0] == a[0] && (a + b)[1..] == a[1..] + b;
    } else {
      assert a + b == b;
    }
  }

  lemma WithoutIdIdempotent(favorites: seq<Item>, id: int)
    ensures WithoutId(WithoutId(favorites, id), id) == WithoutId(favorites, id)
  {
    WithoutAbsentId(WithoutId(favorites, id), id);
  }

  /** Removing two identifiers gives the same list in either order. */
  lemma {:induction false} WithoutIdCommutes(favorites: seq<Item>, id1: int, id2: int)
    ensures WithoutId(WithoutId(favorites, id1), id2) == WithoutId(WithoutId(favorites, id2), id1)
  {
    if favorites != [] {
      WithoutIdCommutes(favorites[1..], id1, id2);
    }
  }

  /** The storage contents after `saveFavorite(newFavorite)`: the stored list
      with the item appended, written back under the one key; or, when the
      stored list cannot be read, the contents as they were. */
  function AfterSave(entries: map<string, Entry>, newFavorite: Item): (r: map<string, Entry>)
    ensures forall k :: k != LocalStorageKey ==> Lookup(r, k) == Lookup(entries, k)
  {
    match FavoritesIn(entries)
    case Success(favorites) => entries[LocalStorageKey := Json(favorites + [newFavorite])]
    case Failure(_) => entries
  }

  /** The storage contents after `removeFavorite(id)`. */
  function AfterRemove(entries: map<string, Entry>, id: int): (r: map<string, Entry>)
    ensures forall k :: k != LocalStorageKey ==> Lookup(r, k) == Lookup(entries, k)
  {
    match FavoritesIn(entries)
    case Success(favorites) => entries[LocalStorageKey := Json(WithoutId(favorites, id))]
    case Failure(_) => entries
  }

  /** When the stored list cannot be read, neither mutation writes anything. */
  lemma FailedReadWritesNothing(entries: map<string, Entry>, newFavorite: Item, id: int)
    requires FavoritesIn(entries).Failure?
    ensures AfterSave(entries, newFavorite) == entries
    ensures AfterRemove(entries, id) == entries
  {
  }

  /** Reading after a save yields the previous list with the item at the end.
      Nothing is deduplicated: the list grows by one even when an item with
      the same identifier is already there. */
  lemma SaveThenRead(entries: map<string, Entry>, newFavorite: Item)
    requires FavoritesIn(entries).Success?
    ensures FavoritesIn(AfterSave(entries, newFavorite)) == Success(FavoritesIn(entries).value + [newFavorite])
    ensures |FavoritesIn(AfterSave(entries, newFavorite)).value| == |FavoritesIn(entries).value| + 1
    ensures newFavorite in FavoritesIn(AfterSave(entries, newFavorite)).value
  {
  }

  /** Reading after a removal yields the filtered list: no item has the
      identifier any more, and the list is a subsequence of the old one. */
  lemma RemoveThenRead(entries: map<string, Entry>, id: int)
    requires FavoritesIn(entries).Success?
    ensures FavoritesIn(AfterRemove(entries, id)) == Success(WithoutId(FavoritesIn(entries).value, id))
    ensures forall x :: x in FavoritesIn(AfterRemove(entries, id)).value ==> x.identifier != id
    ensures IsSubsequence(FavoritesIn(AfterRemove(entries, id)).value, FavoritesIn(entries).value)
  {
    WithoutIdIsSubsequence(FavoritesIn(entries).value, id);
  }

  /** Removing the same identifier twice leaves the storage as removing it once. */
  lemma RemoveIdempotent(entries: map<string, Entry>, id: int)
    ensures AfterRemove(AfterRemove(entries, id), id) == AfterRemove(entries, id)
  {
    if FavoritesIn(entries).Success? {
      WithoutIdIdempotent(FavoritesIn(entries).value, id);
    }
  }

  /** Removing an identifier no stored item has leaves the list that is read
      back unchanged (the key is still written: an absent or empty entry
      becomes the JSON of the empty list). */
  lemma RemoveAbsent(entries: map<string, Entry>, id: int)
    requires FavoritesIn(entries).Success?
    requires forall x :: x in FavoritesIn(entries).value ==> x.identifier != id
    ensures FavoritesIn(AfterRemove(entries, id)) == FavoritesIn(entries)
  {
    WithoutAbsentId(FavoritesIn(entries).value, id);
  }

  /** Saving an item and then removing its identifier reads back as removing
      the identifier alone; saving one with another identifier and then
      removing keeps the new item at the end. */
  lemma SaveThenRemove(entries: map<string, Entry>, newFavorite: Item, id: int)
    requires FavoritesIn(entries).Success?
    ensures newFavorite.identifier == id ==>
      FavoritesIn(AfterRemove(AfterSave(entries, newFavorite), id)) == FavoritesIn(AfterRemove(entries, id))
    ensures newFavorite.identifier != id ==>
      FavoritesIn(AfterRemove(AfterSave(entries, newFavorite), id)) == Success(WithoutId(FavoritesIn(entries).value, id) + [newFavorite])
  {
    var favorites := FavoritesIn(entries).value;
    assert FavoritesIn(AfterSave(entries, newFavorite)) == Success(favorites + [newFavorite]);
    WithoutIdAppend(favorites, [newFavorite], id);
    assert WithoutId([newFavorite], id) == if newFavorite.identifier == id then [] else [newFavorite];
    assert WithoutId(favorites, id) + [] == WithoutId(favorites, id);
  }

  /** `getFavorites`. */
  method GetFavorites(storage: Storage) returns (r: Result<seq<Item>, ReadError>)
    ensures r == FavoritesIn(storage.entries)
    ensures LocalStorageKey !in storage.entries ==> r == Success([])
  {
    var stored := storage.GetItem(LocalStorageKey);
    r := ParseFavorites(stored);
  }

  /**
   * `saveFavorite`: a read-modify-write of the whole list. When the read
   * fails, the callback that writes never runs and the returned promise
   * never settles (`resolved` is false).
   */
  method SaveFavorite(storage: Storage, newFavorite: Item) returns (resolved: bool)
    modifies storage
    ensures storage.entries == AfterSave(old(storage.entries), newFavorite)
    ensures resolved <==> FavoritesIn(old(storage.entries)).Success?
  {
    var favorites := GetFavorites(storage);
    if favorites.Failure? {
      return false;
    }
    storage.SetItem(LocalStorageKey, Json(favorites.value + [newFavorite]));
    resolved := true;
  }

  /** `removeFavorite`: a read-modify-write that drops every item with the
      identifier. */
  method RemoveFavorite(storage: Storage, id: int) returns (resolved: bool)
    modifies storage
    ensures storage.entries == AfterRemove(old(storage.entries), id)
    ensures resolved <==> FavoritesIn(old(storage.entries)).Success?
  {
    var favorites := GetFavorites(storage);
    if favorites.Failure? {
      return false;
    }
    storage.SetItem(LocalStorageKey, Json(WithoutId(favorites.value, id)));
    resolved := true;
  }
}
