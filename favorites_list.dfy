/** The list computations shared by the persistent favorites store (utility/storage.ts) and
    the favorites container (store/favoritesStore.ts): membership by id (`some`), removal
    by id (`filter`) and prepending a newly favorited movie. */
module FavoritesList {
  import opened Types

  /** `favorites.some(fav => fav.id === id)` */
  function HasId(favs: seq<Movie>, id: int): (found: bool)
    ensures found <==> exists i :: 0 <= i < |favs| && favs[i].id == id
  {
    if favs == [] then false
    else if favs[0].id == id then true
    else
      var rest := HasId(favs[1..], id);
      assert rest <==> exists i :: 1 <= i < |favs| && favs[i].id == id by {
        if rest {
          var i :| 0 <= i < |favs[1..]| && favs[1..][i].id == id;
          assert favs[i + 1].id == id;
        }
      }
      rest
  }

  /** `favorites.filter(fav => fav.id !== id)`: every entry with that id is gone, every other
      entry is kept. */
  function WithoutId(favs: seq<Movie>, id: int): (kept: seq<Movie>)
    ensures |kept| <= |favs|
    ensures forall m :: m in kept <==> m in favs && m.id != id
    ensures !HasId(kept, id)
  {
    if favs == [] then []
    else
      var rest := WithoutId(favs[1..], id);
      assert forall m :: m in favs <==> m == favs[0] || m in favs[1..];
      if favs[0].id == id then rest else [favs[0]] + rest
  }

  /** `[movie, ...favorites]` when no entry has the movie's id yet; the list itself otherwise. */
  function AddedTo(favs: seq<Movie>, movie: Movie): (updated: seq<Movie>)
    ensures HasId(updated, movie.id)
    ensures forall m :: m in favs ==> m in updated
    ensures forall m :: m in updated ==> m in favs || m == movie
    ensures |updated| <= |favs| + 1
    ensures HasId(favs, movie.id) ==> updated == favs
    ensures !HasId(favs, movie.id) ==> updated[0] == movie && updated[1..] == favs
  {
    if HasId(favs, movie.id) then favs
    else
      assert ([movie] + favs)[0].id == movie.id;
      [movie] + favs
  }

  /** No two entries share an id. */
  predicate UniqueIds(favs: seq<Movie>) {
    forall i, j :: 0 <= i < j < |favs| ==> favs[i].id != favs[j].id
  }

  /** Filtering is order-preserving: it distributes over concatenation, so the kept entries
      appear in the order they had. */
  lemma {:induction false} WithoutIdAppend(a: seq<Movie>, b: seq<Movie>, id: int)
    ensures WithoutId(a + b, id) == WithoutId(a, id) + WithoutId(b, id)
  {
    if a == [] {
      assert a + b == b;
    } else {
      assert (a + b)[1..] == a[1..] + b;
      WithoutIdAppend(a[1..], b, id);
    }
  }

  /** Removing an id nobody has changes nothing. */
  lemma {:induction false} WithoutAbsentId(favs: seq<Movie>, id: int)
    requires !HasId(favs, id)
    ensures WithoutId(favs, id) == favs
  {
    if favs != [] {
      assert !HasId(favs[1..], id);
      WithoutAbsentId(favs[1..], id);
      assert favs == [favs[0]] + favs[1..];
    }
  }

  /** Adding a movie that is already there, or adding the same movie twice, leaves one entry. */
  lemma AddedToIdempotent(favs: seq<Movie>, movie: Movie)
    ensures AddedTo(AddedTo(favs, movie), movie) == AddedTo(favs, movie)
  {
    assert HasId(AddedTo(favs, movie), movie.id);
  }

  /** Adding keeps ids unique. */
  lemma AddedToKeepsUnique(favs: seq<Movie>, movie: Movie)
    requires UniqueIds(favs)
    ensures UniqueIds(AddedTo(favs, movie))
  {
    if !HasId(favs, movie.id) {
      var updated := AddedTo(favs, movie);
      forall i, j | 0 <= i < j < |updated| ensures updated[i].id != updated[j].id {
        if i == 0 {
          assert updated[j] == favs[j - 1];
        } else {
          assert updated[i] == favs[i - 1] && updated[j] == favs[j - 1];
        }
      }
    }
  }

  /** Putting a movie in front of a list with unique ids that lacks its id keeps ids unique. */
  lemma PrependKeepsUnique(movie: Movie, rest: seq<Movie>)
    requires UniqueIds(rest) && !HasId(rest, movie.id)
    ensures UniqueIds([movie] + rest)
  {
    var kept := [movie] + rest;
    forall i, j | 0 <= i < j < |kept| ensures kept[i].id != kept[j].id {
      assert kept[j] == rest[j - 1];
      if i > 0 {
        assert kept[i] == rest[i - 1];
      }
    }
  }

  /** A filtered list has an id only when the list it came from has it. */
  lemma WithoutIdHasOnly(favs: seq<Movie>, id: int, other: int)
    requires !HasId(favs, other)
    ensures !HasId(WithoutId(favs, id), other)
  {
    var kept := WithoutId(favs, id);
    forall i | 0 <= i < |kept| ensures kept[i].id != other {
      assert kept[i] in favs;
    }
  }

  /** Removing keeps ids unique. */
  lemma {:induction false} WithoutIdKeepsUnique(favs: seq<Movie>, id: int)
    requires UniqueIds(favs)
    ensures UniqueIds(WithoutId(favs, id))
  {
    if favs != [] {
      var tail := favs[1..];
      assert UniqueIds(tail) by {
        forall i, j | 0 <= i < j < |tail| ensures tail[i].id != tail[j].id {
          assert tail[i] == favs[i + 1] && tail[j] == favs[j + 1];
        }
      }
      WithoutIdKeepsUnique(tail, id);
      if favs[0].id != id {
        assert !HasId(tail, favs[0].id) by {
          forall i | 0 <= i < |tail| ensures tail[i].id != favs[0].id {
            assert tail[i] == favs[i + 1];
          }
        }
        WithoutIdHasOnly(tail, id, favs[0].id);
        PrependKeepsUnique(favs[0], WithoutId(tail, id));
      }
    }
  }
}
