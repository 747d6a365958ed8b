/** The popular-movies container (store/moviesStore.ts): a paginated list with loading and
    refreshing flags. Each asynchronous action is split at its `await`: a Begin method holds
    the guard and the first update and says which page it asks the catalog for (None when it
    asks for nothing); a Complete method is the continuation, given the values the action
    captured before the `await` and the catalog's response. Completions may arrive in any
    order relative to other actions, as in the source, which cancels nothing. */
module Movies {
  import opened Types

  /** The container's fields at one moment. */
  datatype PageState = PageState(
    movies: seq<Movie>,
    page: int,
    totalPages: int,
    loading: bool,
    refreshing: bool,
    error: Option<string>,
    hasMore: bool)

  const InitialState := PageState([], 1, 1, false, false, None, true)

  class MoviesStore {
    var movies: seq<Movie>
    var page: int
    var totalPages: int
    var loading: bool
    var refreshing: bool
    var error: Option<string>
    var hasMore: bool

    function State(): PageState
      reads this
    {
      PageState(movies, page, totalPages, loading, refreshing, error, hasMore)
    }

    /** The loading and refreshing flags are never both set. */
    ghost predicate Valid()
      reads this
    {
      !(loading && refreshing)
    }

    constructor ()
      ensures Valid() && State() == InitialState
    {
      movies, page, totalPages := [], 1, 1;
      loading, refreshing, error, hasMore := false, false, None, true;
    }

    /** fetchMovies, up to the request: refused while a fetch or a refresh is in flight;
        otherwise marks loading, clears the error and asks for page 1. */
    method FetchMoviesBegin() returns (requested: Option<int>)
      requires Valid()
      modifies this
      ensures Valid()
      ensures old(loading || refreshing) ==> requested == None && State() == old(State())
      ensures !old(loading || refreshing) ==>
                requested == Some(1) && State() == old(State()).(loading := true, error := None)
    {
      if loading || refreshing {
        return None;
      }
      loading, error := true, None;
      requested := Some(1);
    }

    /** fetchMovies, after the response: a success replaces the list with page 1's results; a
        failure records the message and keeps the list and the paging fields. */
    method FetchMoviesComplete(response: ApiResponse<MovieListResponse>)
      modifies this
      ensures Valid()
      ensures response.Success? ==>
                State() == old(State()).(movies := response.data.results, page := 1,
                                         totalPages := response.data.totalPages,
                                         hasMore := response.data.page < response.data.totalPages,
                                         loading := false)
      ensures response.Failure? ==>
                State() == old(State()).(error := Some(response.error), loading := false)
    {
      if response.Success? {
        movies, page, totalPages := response.data.results, 1, response.data.totalPages;
        hasMore, loading := response.data.page < response.data.totalPages, false;
      } else {
        error, loading := Some(response.error), false;
      }
    }

    /** fetchMoreMovies, up to the request: refused while anything is in flight or when no
        more pages are expected; when the next page lies beyond the known total it only
        clears hasMore; otherwise marks loading, clears the error and asks for the next page,
        which never lies beyond the known total. */
    method FetchMoreMoviesBegin() returns (requested: Option<int>)
      requires Valid()
      modifies this
      ensures Valid()
      ensures old(loading || refreshing || !hasMore) ==> requested == None && State() == old(State())
      ensures !old(loading || refreshing || !hasMore) && old(page) + 1 > old(totalPages) ==>
                requested == None && State() == old(State()).(hasMore := false)
      ensures !old(loading || refreshing || !hasMore) && old(page) + 1 <= old(totalPages) ==>
                requested == Some(old(page) + 1) && State() == old(State()).(loading := true, error := None)
      ensures requested.Some? ==> requested.value <= totalPages
    {
      if loading || refreshing || !hasMore {
        return None;
      }
      var nextPage := page + 1;
      if nextPage > totalPages {
        hasMore := false;
        return None;
      }
      loading, error := true, None;
      requested := Some(nextPage);
    }

    /** fetchMoreMovies, after the response for `nextPage`: a success appends the results
        after the movies held now, in order, moves to `nextPage` and keeps the known total;
        a failure records the message and keeps everything else. */
    method FetchMoreMoviesComplete(nextPage: int, response: ApiResponse<MovieListResponse>)
      modifies this
      ensures Valid()
      ensures response.Success? ==>
                State() == old(State()).(movies := old(movies) + response.data.results, page := nextPage,
                                         hasMore := nextPage < response.data.totalPages,
                                         loading := false)
      ensures response.Failure? ==>
                State() == old(State()).(error := Some(response.error), loading := false)
    {
      if response.Success? {
        movies, page := movies + response.data.results, nextPage;
        hasMore, loading := nextPage < response.data.totalPages, false;
      } else {
        error, loading := Some(response.error), false;
      }
    }

    /** refreshMovies, up to the request: refused while anything is in flight; otherwise
        marks refreshing, clears the error and asks for page 1. */
    method RefreshMoviesBegin() returns (requested: Option<int>)
      requires Valid()
      modifies this
      ensures Valid()
      ensures old(loading || refreshing) ==> requested == None && State() == old(State())
      ensures !old(loading || refreshing) ==>
                requested == Some(1) && State() == old(State()).(refreshing := true, error := None)
    {
      if refreshing || loading {
        return None;
      }
      refreshing, error := true, None;
      requested := Some(1);
    }

    /** refreshMovies, after the response: a success replaces (never appends to) the list with
        page 1's results; a failure records the message and keeps the list. */
    method RefreshMoviesComplete(response: ApiResponse<MovieListResponse>)
      modifies this
      ensures Valid()
      ensures response.Success? ==>
                State() == old(State()).(movies := response.data.results, page := 1,
                                         totalPages := response.data.totalPages,
                                         hasMore := response.data.page < response.data.totalPages,
                                         refreshing := false)
      ensures response.Failure? ==>
                State() == old(State()).(error := Some(response.error), refreshing := false)
    {
      if response.Success? {
        movies, page, totalPages := response.data.results, 1, response.data.totalPages;
        hasMore, refreshing := response.data.page < response.data.totalPages, false;
      } else {
        error, refreshing := Some(response.error), false;
      }
    }

    /** reset: back to exactly the initial state. */
    method Reset()
      modifies this
      ensures Valid() && State() == InitialState
    {
      movies, page, totalPages := [], 1, 1;
      loading, refreshing, error, hasMore := false, false, None, true;
    }
  }

  /** The first-page scenario: a response for page 1 of 5 leaves the container on page 1 of
      5, expecting more, holding exactly that page's results. */
  method FirstPageOfFive(results: seq<Movie>) returns (state: PageState)
    ensures state == PageState(results, 1, 5, false, false, None, true)
  {
    var store := new MoviesStore();
    var requested := store.FetchMoviesBegin();
    store.FetchMoviesComplete(Success(MovieListResponse(1, results, 5, 5 * |results|)));
    state := store.State();
  }

  /** Pages are accumulated in request order: a first page and a second page leave exactly
      their concatenation, on page 2. */
  method TwoPages(first: MovieListResponse, second: MovieListResponse) returns (movies: seq<Movie>, page: int, requested: Option<int>)
    requires first.page < first.totalPages && 2 <= first.totalPages
    ensures requested == Some(2)
    ensures movies == first.results + second.results && page == 2
  {
    var store := new MoviesStore();
    var r1 := store.FetchMoviesBegin();
    store.FetchMoviesComplete(Success(first));
    requested := store.FetchMoreMoviesBegin();
    store.FetchMoreMoviesComplete(requested.value, Success(second));
    movies, page := store.movies, store.page;
  }

  /** Refresh replaces: after a fetch and a refresh the list is exactly the refreshed page,
      never the union. */
  method FetchThenRefresh(first: MovieListResponse, refreshed: MovieListResponse) returns (movies: seq<Movie>, page: int)
    ensures movies == refreshed.results && page == 1
  {
    var store := new MoviesStore();
    var r1 := store.FetchMoviesBegin();
    store.FetchMoviesComplete(Success(first));
    var r2 := store.RefreshMoviesBegin();
    store.RefreshMoviesComplete(Success(refreshed));
    movies, page := store.movies, store.page;
  }

  /** While the first page is in flight, neither a next-page fetch nor a refresh sends a
      request, and neither changes the state. */
  method RequestsWhileLoading() returns (more: Option<int>, refresh: Option<int>, stateKept: bool)
    ensures more == None && refresh == None && stateKept
  {
    var store := new MoviesStore();
    var first := store.FetchMoviesBegin();
    var before := store.State();
    more := store.FetchMoreMoviesBegin();
    refresh := store.RefreshMoviesBegin();
    stateKept := store.State() == before;
  }
}
