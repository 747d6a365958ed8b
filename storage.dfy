/** The persistent favorites store (utility/storage.ts): the whole list lives, serialised,
    under one key of the device's key-value store. The key-value store is a map from key to
    stored text; the text is the encoding of a movie list (encoding and decoding are taken to
    round-trip), text that does not parse, or text that parses to something that is not a
    list of movies. Whether a read or a write of the device store succeeds is a parameter of
    each operation. */
module Storage {
  import opened Types
  import opened FavoritesList

  const FavoritesKey := "@movie_favorites"

  /** The text stored under a key: a movie list's encoding; text that does not parse (or is
      empty); or text that parses to a value that is not an array (`null`, an object, a
      number, a string, a boolean), on which `some` and `filter` always throw. */
  datatype Stored = Encoded(movies: seq<Movie>) | Corrupt | NotAList

  type KeyValueStore = map<string, Stored>

  /** What getFavorites yields for a store: the decoded list; the empty list when the read
      fails, the key is absent or its text does not parse; None when the text parses to a
      value that is not an array, which getFavorites hands on unchecked. */
  function ReadFavorites(store: KeyValueStore, readOk: bool): (favs: Option<seq<Movie>>)
    ensures !readOk || FavoritesKey !in store || store[FavoritesKey].Corrupt? ==> favs == Some([])
    ensures readOk && FavoritesKey in store && store[FavoritesKey].Encoded? ==> favs == Some(store[FavoritesKey].movies)
    ensures favs.None? <==> readOk && FavoritesKey in store && store[FavoritesKey].NotAList?
  {
    if readOk && FavoritesKey in store then
      match store[FavoritesKey]
      case Encoded(movies) => Some(movies)
      case Corrupt => Some([])
      case NotAList => None
    else
      Some([])
  }

  /** Every key other than the favorites key holds what it held before. */
  predicate OtherKeysUnchanged(before: KeyValueStore, after: KeyValueStore) {
    after - {FavoritesKey} == before - {FavoritesKey}
  }

  class FavoritesStorage {
    var store: KeyValueStore

    constructor (initial: KeyValueStore)
      ensures store == initial
    {
      store := initial;
    }

    /** What a successful read would return now. */
    function Persisted(): Option<seq<Movie>>
      reads this
    {
      ReadFavorites(store, true)
    }

    /** getFavorites: reading never fails outward; a failed read, an absent key and text
        that does not parse all read as [], and a parsed value that is not an array is returned
        as it is (None). */
    method GetFavorites(readOk: bool) returns (favs: Option<seq<Movie>>)
      ensures favs == ReadFavorites(store, readOk)
    {
      favs := ReadFavorites(store, readOk);
    }

    /** saveFavorites: overwrites the whole list under the one key; reports whether the write
        went through, and a successful save reads back as the list saved. */
    method SaveFavorites(favs: seq<Movie>, writeOk: bool) returns (ok: bool)
      modifies this
      ensures ok == writeOk
      ensures store == if writeOk then old(store)[FavoritesKey := Encoded(favs)] else old(store)
      ensures ok ==> Persisted() == Some(favs)
      ensures OtherKeysUnchanged(old(store), store)
    {
      if writeOk {
        store := store[FavoritesKey := Encoded(favs)];
      }
      ok := writeOk;
    }

    /** addFavorite: read, then write the movie in front of the stored list unless its id is
        already stored (then succeed without writing). A failed read counts as an empty list,
        so the write then replaces whatever was stored with the movie alone. A value that is
        not an array makes `some` throw: the catch reports false and nothing is written. */
    method AddFavorite(movie: Movie, readOk: bool, writeOk: bool) returns (ok: bool)
      modifies this
      ensures var read := ReadFavorites(old(store), readOk);
        && ok == (read.Some? && (HasId(read.value, movie.id) || writeOk))
        && store == if read.Some? && !HasId(read.value, movie.id) && writeOk
                    then old(store)[FavoritesKey := Encoded(AddedTo(read.value, movie))]
                    else old(store)
      ensures ok && readOk ==> old(Persisted()).Some? && Persisted() == Some(AddedTo(old(Persisted()).value, movie))
      ensures OtherKeysUnchanged(old(store), store)
    {
      var read := GetFavorites(readOk);
      if read.None? {
        return false;
      }
      var favs := read.value;
      var present := HasId(favs, movie.id);
      if !present {
        var updated := [movie] + favs;
        ok := SaveFavorites(updated, writeOk);
        return;
      }
      ok := true;
    }

    /** removeFavorite: read, drop every entry with the id, write the rest back. A value that
        is not an array makes `filter` throw: the catch reports false and nothing is written. */
    method RemoveFavorite(movieId: int, readOk: bool, writeOk: bool) returns (ok: bool)
      modifies this
      ensures var read := ReadFavorites(old(store), readOk);
        && ok == (read.Some? && writeOk)
        && store == if ok
                    then old(store)[FavoritesKey := Encoded(WithoutId(read.value, movieId))]
                    else old(store)
      ensures ok && readOk ==> old(Persisted()).Some? && Persisted() == Some(WithoutId(old(Persisted()).value, movieId))
      ensures OtherKeysUnchanged(old(store), store)
    {
      var read := GetFavorites(readOk);
      if read.None? {
        return false;
      }
      var updated := WithoutId(read.value, movieId);
      ok := SaveFavorites(updated, writeOk);
    }

    /** isFavorite: membership by id in what was read; a failed read answers false, and so
        does a value that is not an array (`some` throws and the catch answers false). */
    method IsFavorite(movieId: int, readOk: bool) returns (found: bool)
      ensures found <==> readOk && Persisted().Some? && exists m :: m in Persisted().value && m.id == movieId
    {
      var read := GetFavorites(readOk);
      if read.None? {
        return false;
      }
      found := HasId(read.value, movieId);
    }

    /** clearFavorites: removes the key, so the next read yields []. */
    method ClearFavorites(writeOk: bool) returns (ok: bool)
      modifies this
      ensures ok == writeOk
      ensures store == if writeOk then old(store) - {FavoritesKey} else old(store)
      ensures ok ==> FavoritesKey !in store && Persisted() == Some([])
      ensures OtherKeysUnchanged(old(store), store)
    {
      if writeOk {
        store := store - {FavoritesKey};
      }
      ok := writeOk;
    }
  }
}
