/** The favorites container (store/favoritesStore.ts): an in-memory mirror of the persisted
    favorites list. Mutations are applied to the mirror first and then persisted; when the
    persistent store reports failure the mirror is put back to the list it held before the call.
    Each action runs to completion here (no overlapping actions). */
module Favorites {
  import opened Types
  import opened FavoritesList
  import opened Storage

  class FavoritesStore {
    var favorites: seq<Movie>
    var loading: bool
    var initialized: bool
    const storage: FavoritesStorage

    constructor (storage: FavoritesStorage)
      ensures favorites == [] && !loading && !initialized && this.storage == storage
    {
      favorites := [];
      loading := false;
      initialized := false;
      this.storage := storage;
    }

    /** The mirror equals what a successful read of the persistent store returns. */
    ghost predicate InSync()
      reads this, storage
    {
      storage.Persisted() == Some(favorites)
    }

    /** loadFavorites: the mirror becomes the list the store reads (the empty list when the
        read fails), loading ends and the container counts as initialized. A stored value that
        is not an array loads as the empty list here (see the README). */
    method LoadFavorites(readOk: bool)
      modifies this
      ensures var read := ReadFavorites(storage.store, readOk);
        favorites == if read.Some? then read.value else []
      ensures !loading && initialized
      ensures readOk && storage.Persisted().Some? ==> InSync()
    {
      loading := true;
      var read := storage.GetFavorites(readOk);
      favorites := if read.Some? then read.value else [];
      loading, initialized := false, true;
    }

    /** addFavorite: an id already in the mirror succeeds at once, touching neither the mirror
        nor the persistent store; otherwise the movie is put in front of the mirror, the
        persistent store is asked to add it, and a refusal restores the mirror and reports false. */
    method AddFavorite(movie: Movie, readOk: bool, writeOk: bool) returns (ok: bool)
      modifies this, storage
      ensures HasId(old(favorites), movie.id) ==>
                ok && favorites == old(favorites) && storage.store == old(storage.store)
      ensures !HasId(old(favorites), movie.id) ==>
                var read := ReadFavorites(old(storage.store), readOk);
                && ok == (read.Some? && (HasId(read.value, movie.id) || writeOk))
                && favorites == (if ok then [movie] + old(favorites) else old(favorites))
                && storage.store == if read.Some? && !HasId(read.value, movie.id) && writeOk
                                    then old(storage.store)[FavoritesKey := Encoded([movie] + read.value)]
                                    else old(storage.store)
      ensures ok ==> favorites == AddedTo(old(favorites), movie)
      ensures UniqueIds(old(favorites)) ==> UniqueIds(favorites)
      ensures old(InSync()) && readOk ==> InSync()
      ensures loading == old(loading) && initialized == old(initialized)
    {
      var snapshot := favorites;
      if HasId(snapshot, movie.id) {
        AddedToIdempotent(snapshot, movie);
        return true;
      }
      favorites := [movie] + snapshot;
      ok := storage.AddFavorite(movie, readOk, writeOk);
      if !ok {
        favorites := snapshot;
        return false;
      }
      if UniqueIds(snapshot) { AddedToKeepsUnique(snapshot, movie); }
    }

    /** removeFavorite: every entry with the id leaves the mirror, the persistent store is
        asked to remove it (even when the mirror had no such entry), and a refusal restores
        the mirror and reports false. */
    method RemoveFavorite(movieId: int, readOk: bool, writeOk: bool) returns (ok: bool)
      modifies this, storage
      ensures var read := ReadFavorites(old(storage.store), readOk);
        && ok == (read.Some? && writeOk)
        && storage.store == if ok
                            then old(storage.store)[FavoritesKey := Encoded(WithoutId(read.value, movieId))]
                            else old(storage.store)
      ensures favorites == if ok then WithoutId(old(favorites), movieId) else old(favorites)
      ensures UniqueIds(old(favorites)) ==> UniqueIds(favorites)
      ensures old(InSync()) && readOk ==> InSync()
      ensures loading == old(loading) && initialized == old(initialized)
    {
      var snapshot := favorites;
      favorites := WithoutId(snapshot, movieId);
      ok := storage.RemoveFavorite(movieId, readOk, writeOk);
      if !ok {
        favorites := snapshot;
        return false;
      }
      if UniqueIds(snapshot) { WithoutIdKeepsUnique(snapshot, movieId); }
    }

    /** isFavorite: membership by id in the mirror; the persistent store is not consulted. */
    function IsFavorite(movieId: int): (found: bool)
      reads this
      ensures found <==> exists i :: 0 <= i < |favorites| && favorites[i].id == movieId
    {
      HasId(favorites, movieId)
    }

    /** clearAllFavorites: the mirror is emptied, the persistent store is asked to drop the
        list, and a refusal restores the mirror and reports false. */
    method ClearAllFavorites(writeOk: bool) returns (ok: bool)
      modifies this, storage
      ensures ok == writeOk
      ensures favorites == if ok then [] else old(favorites)
      ensures storage.store == if writeOk then old(storage.store) - {FavoritesKey} else old(storage.store)
      ensures old(InSync()) ==> InSync()
      ensures loading == old(loading) && initialized == old(initialized)
    {
      var snapshot := favorites;
      favorites := [];
      ok := storage.ClearFavorites(writeOk);
      if !ok {
        favorites := snapshot;
        return false;
      }
    }
  }

  /** The removal scenario: with [{id 1}, {id 2}] stored and loaded, removing id 1 leaves
      [{id 2}] both in the mirror and in the persistent store. */
  method RemoveFromLoadedList(first: Movie, second: Movie) returns (mirror: seq<Movie>, persisted: Option<seq<Movie>>)
    requires first.id == 1 && second.id == 2
    ensures mirror == [second] && persisted == Some([second])
  {
    var storage := new FavoritesStorage(map[FavoritesKey := Encoded([first, second])]);
    var store := new FavoritesStore(storage);
    store.LoadFavorites(true);
    var ok := store.RemoveFavorite(1, true, true);
    assert [first, second] == [first] + [second];
    WithoutIdAppend([first], [second], 1);
    mirror, persisted := store.favorites, storage.Persisted();
  }

  /** Adding the same movie twice leaves exactly one entry with its id, whatever the
      persistent store answers. */
  method AddTwice(movie: Movie, writeOk1: bool, writeOk2: bool) returns (mirror: seq<Movie>)
    ensures UniqueIds(mirror)
    ensures writeOk1 || writeOk2 ==> mirror == [movie]
    ensures !writeOk1 && !writeOk2 ==> mirror == []
  {
    var storage := new FavoritesStorage(map[]);
    var store := new FavoritesStore(storage);
    store.LoadFavorites(true);
    var ok1 := store.AddFavorite(movie, true, writeOk1);
    var ok2 := store.AddFavorite(movie, true, writeOk2);
    mirror := store.favorites;
  }

  /** A stored value that parses but is not an array, met by a container that has not
      loaded: the persistent store's add reports false (its `some` throws) without writing,
      so the mirror is rolled back to its empty start. */
  method AddOverNonList(movie: Movie) returns (ok: bool, mirror: seq<Movie>, storeKept: bool)
    ensures !ok && mirror == [] && storeKept
  {
    var storage := new FavoritesStorage(map[FavoritesKey := NotAList]);
    var store := new FavoritesStore(storage);
    ok := store.AddFavorite(movie, true, true);
    mirror := store.favorites;
    storeKept := storage.store == map[FavoritesKey := NotAList];
  }
}
