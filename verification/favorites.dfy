/** `FavoritesManager`: an ordered list of coin ids kept under the single
    UserDefaults key "favorite_crypto_ids". The key-value store is injected as
    explicit state instead of the process-wide singleton. */
module Favorites {
  import opened Wrappers
  import opened Sequences

  /** The UserDefaults slot: `None` until the key has been written once. */
  datatype Store = Store(slot: Option<seq<string>>)

  /** A store whose key has never been written. */
  const Fresh: Store := Store(None)

  /** The stored ids, or the empty list when nothing is stored. */
  function GetFavorites(s: Store): (r: seq<string>)
    ensures s.slot.None? ==> r == []
    ensures s.slot.Some? ==> r == s.slot.value
  {
    s.slot.GetOr([])
  }

  /** The invariant `add` and `remove` keep: no id is listed twice. */
  ghost predicate Valid(s: Store) {
    NoDup(GetFavorites(s))
  }

  function IsFavorite(s: Store, id: string): (b: bool)
    ensures b <==> id in GetFavorites(s)
  {
    Contains(GetFavorites(s), id)
  }

  /** Appends an absent id; writes nothing when the id is already listed. */
  function Add(s: Store, id: string): (s': Store)
    ensures id in GetFavorites(s) ==> s' == s
    ensures id !in GetFavorites(s) ==> s'.slot == Some(GetFavorites(s) + [id])
    ensures IsFavorite(s', id)
  {
    var favs := GetFavorites(s);
    if !Contains(favs, id) then Store(Some(favs + [id])) else s
  }

  /** Deletes the first occurrence of the id; writes nothing when it is absent. */
  function Remove(s: Store, id: string): (s': Store)
    ensures id !in GetFavorites(s) ==> s' == s
    ensures id in GetFavorites(s) ==> s'.slot == Some(RemoveFirst(GetFavorites(s), id))
  {
    var favs := GetFavorites(s);
    match FirstIndex(favs, id)
    case None => s
    case Some(i) =>
      RemoveAtFirstIndex(favs, id, i);
      Store(Some(RemoveAt(favs, i)))
  }

  /** Removes a listed id, appends an unlisted one. */
  function Toggle(s: Store, id: string): (s': Store)
    ensures id in GetFavorites(s) ==> GetFavorites(s') == RemoveFirst(GetFavorites(s), id)
    ensures id !in GetFavorites(s) ==> GetFavorites(s') == GetFavorites(s) + [id]
  {
    if IsFavorite(s, id) then Remove(s, id) else Add(s, id)
  }

  /** Nothing stored means no favourites at all. */
  lemma FreshStoreIsEmpty(id: string)
    ensures GetFavorites(Fresh) == []
    ensures !IsFavorite(Fresh, id)
  {
  }

  /** Adding twice is adding once. */
  lemma AddIdempotent(s: Store, id: string)
    ensures Add(Add(s, id), id) == Add(s, id)
  {
  }

  /** Removing an id from a valid store removes it completely, so a second
      remove writes nothing. */
  lemma RemoveIdempotent(s: Store, id: string)
    requires Valid(s)
    ensures !IsFavorite(Remove(s, id), id)
    ensures Remove(Remove(s, id), id) == Remove(s, id)
  {
    if id in GetFavorites(s) {
      RemoveFirstNoDup(GetFavorites(s), id);
    }
  }

  lemma AddPreservesValid(s: Store, id: string)
    requires Valid(s)
    ensures Valid(Add(s, id))
  {
    if id !in GetFavorites(s) {
      AppendNoDup(GetFavorites(s), id);
    }
  }

  lemma RemovePreservesValid(s: Store, id: string)
    requires Valid(s)
    ensures Valid(Remove(s, id))
  {
    if id in GetFavorites(s) {
      RemoveFirstNoDup(GetFavorites(s), id);
    }
  }

  lemma TogglePreservesValid(s: Store, id: string)
    requires Valid(s)
    ensures Valid(Toggle(s, id))
  {
    if IsFavorite(s, id) {
      RemovePreservesValid(s, id);
    } else {
      AddPreservesValid(s, id);
    }
  }

  /** On a valid store, toggling flips the id's membership. */
  lemma ToggleFlips(s: Store, id: string)
    requires Valid(s)
    ensures IsFavorite(Toggle(s, id), id) == !IsFavorite(s, id)
  {
    if IsFavorite(s, id) {
      RemoveIdempotent(s, id);
    }
  }

  /** Toggling one id never changes whether any other id is a favourite. */
  lemma ToggleKeepsOthers(s: Store, id: string, other: string)
    requires other != id
    ensures IsFavorite(Toggle(s, id), other) == IsFavorite(s, other)
  {
    if IsFavorite(s, id) {
      RemoveFirstKeepsOthers(GetFavorites(s), id, other);
    }
  }

  /** Toggling an absent id twice restores the exact list. */
  lemma ToggleTwiceRestoresAbsent(s: Store, id: string)
    requires !IsFavorite(s, id)
    ensures GetFavorites(Toggle(Toggle(s, id), id)) == GetFavorites(s)
  {
    var favs := GetFavorites(s);
    var i := |favs|;
    var added := favs + [id];
    assert added[..i] == favs;
    RemoveAtFirstIndex(added, id, i);
    assert RemoveAt(added, i) == favs;
  }

  /** Toggling a listed id twice does not restore the list: the id moves from
      its position to the end. */
  lemma ToggleTwiceMovesPresent(s: Store, id: string, i: nat)
    requires Valid(s)
    requires i < |GetFavorites(s)| && GetFavorites(s)[i] == id
    ensures GetFavorites(Toggle(Toggle(s, id), id)) == RemoveAt(GetFavorites(s), i) + [id]
  {
    var favs := GetFavorites(s);
    assert id !in favs[..i] by {
      forall k | 0 <= k < i ensures favs[..i][k] != id {
        assert favs[k] != favs[i];
      }
    }
    RemoveAtFirstIndex(favs, id, i);
    RemoveFirstNoDup(favs, id);
  }

  /** Without the invariant the flip fails: when the id is listed twice, one
      toggle removes only the first copy and the id stays a favourite. */
  lemma ToggleWithDuplicateKeepsFavorite(s: Store, id: string, i: nat, j: nat)
    requires i < j < |GetFavorites(s)|
    requires GetFavorites(s)[i] == id && GetFavorites(s)[j] == id
    ensures IsFavorite(Toggle(s, id), id)
  {
    var favs := GetFavorites(s);
    var k := FirstIndex(favs, id).value;
    assert k <= i;
    RemoveAtFirstIndex(favs, id, k);
    assert RemoveAt(favs, k)[j - 1] == id;
  }
}
