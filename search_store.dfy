/** The search container (store/searchStore.ts): the same paginated list as the popular
    movies, plus the query text and whether a search has been answered. searchMovies is
    split at its `await` like the popular container's actions; unlike them it has no
    in-flight guard. */
module Search {
  import opened Types
  import opened JsString

  /** The container's fields at one moment. */
  datatype SearchState = SearchState(
    query: string,
    movies: seq<Movie>,
    page: int,
    totalPages: int,
    loading: bool,
    error: Option<string>,
    hasMore: bool,
    hasSearched: bool)

  const InitialState := SearchState("", [], 1, 1, false, None, true, false)

  /** The arguments of one call to the catalog's searchMovies. */
  datatype SearchCall = SearchCall(query: string, page: int)

  class SearchStore {
    var query: string
    var movies: seq<Movie>
    var page: int
    var totalPages: int
    var loading: bool
    var error: Option<string>
    var hasMore: bool
    var hasSearched: bool

    function State(): SearchState
      reads this
    {
      SearchState(query, movies, page, totalPages, loading, error, hasMore, hasSearched)
    }

    /** Until a search has been answered the container shows nothing, on page 1 of 1. */
    ghost predicate Valid()
      reads this
    {
      !hasSearched ==> movies == [] && page == 1 && totalPages == 1
    }

    constructor ()
      ensures Valid() && State() == InitialState
    {
      query, movies, page, totalPages := "", [], 1, 1;
      loading, error, hasMore, hasSearched := false, None, true, false;
    }

    /** setQuery: records the text and nothing else. */
    method SetQuery(text: string)
      requires Valid()
      modifies this
      ensures Valid()
      ensures State() == old(State()).(query := text)
    {
      query := text;
    }

    /** searchMovies, up to the request. A blank text empties the results, forgets that a
        search happened and clears the error, asking the catalog nothing and leaving the
        loading flag as it was. Any other text marks loading, clears the error and asks for
        the trimmed text at the given page (page 1 when none is given). */
    method SearchMoviesBegin(text: string, requestedPage: int := 1) returns (call: Option<SearchCall>)
      requires Valid()
      modifies this
      ensures Valid()
      ensures IsBlank(text) ==>
                call == None &&
                State() == old(State()).(movies := [], page := 1, totalPages := 1, hasMore := false,
                                         hasSearched := false, error := None)
      ensures !IsBlank(text) ==>
                call == Some(SearchCall(Trim(text), requestedPage)) &&
                State() == old(State()).(loading := true, error := None)
    {
      var trimmed := Trim(text);
      if trimmed == [] {
        movies, page, totalPages := [], 1, 1;
        hasMore, hasSearched, error := false, false, None;
        return None;
      }
      loading, error := true, None;
      call := Some(SearchCall(trimmed, requestedPage));
    }

    /** searchMovies, after the response for `requestedPage`: a success on page 1 replaces the
        results and on any other page appends them after the results held now; the page and
        the total come from the response. Success or failure, the search counts as answered. */
    method SearchMoviesComplete(requestedPage: int, response: ApiResponse<MovieListResponse>)
      modifies this
      ensures Valid()
      ensures response.Success? ==>
                State() == old(State()).(
                  movies := if requestedPage == 1 then response.data.results
                            else old(movies) + response.data.results,
                  page := response.data.page, totalPages := response.data.totalPages,
                  hasMore := response.data.page < response.data.totalPages,
                  loading := false, hasSearched := true)
      ensures response.Failure? ==>
                State() == old(State()).(error := Some(response.error), loading := false, hasSearched := true)
    {
      if response.Success? {
        movies := if requestedPage == 1 then response.data.results else movies + response.data.results;
        page, totalPages := response.data.page, response.data.totalPages;
        hasMore, loading, hasSearched := response.data.page < response.data.totalPages, false, true;
      } else {
        error, loading, hasSearched := Some(response.error), false, true;
      }
    }

    /** loadMoreResults, up to the request: nothing while loading, when no more pages are
        expected or when the stored query is blank; when the next page lies beyond the known
        total it only clears hasMore; otherwise it is searchMovies for the stored query and
        the next page. Before any search has been answered it never asks the catalog. */
    method LoadMoreResultsBegin() returns (call: Option<SearchCall>)
      requires Valid()
      modifies this
      ensures Valid()
      ensures old(loading || !hasMore || IsBlank(query)) ==> call == None && State() == old(State())
      ensures !old(loading || !hasMore || IsBlank(query)) && old(page) + 1 > old(totalPages) ==>
                call == None && State() == old(State()).(hasMore := false)
      ensures !old(loading || !hasMore || IsBlank(query)) && old(page) + 1 <= old(totalPages) ==>
                call == Some(SearchCall(Trim(old(query)), old(page) + 1)) &&
                State() == old(State()).(loading := true, error := None)
      ensures !old(hasSearched) ==> call == None
    {
      if loading || !hasMore || IsBlank(query) {
        return None;
      }
      var nextPage := page + 1;
      if nextPage > totalPages {
        hasMore := false;
        return None;
      }
      call := SearchMoviesBegin(query, nextPage);
    }

    /** clearSearch: back to exactly the initial state, query included. */
    method ClearSearch()
      modifies this
      ensures Valid() && State() == InitialState
    {
      query, movies, page, totalPages := "", [], 1, 1;
      loading, error, hasMore, hasSearched := false, None, true, false;
    }
  }

  /** The blank-search scenario: searching for nothing but spaces shows no results, no
      total and no search, and asks the catalog nothing. */
  method SearchSpaces() returns (call: Option<SearchCall>, state: SearchState)
    ensures call == None && state.movies == [] && !state.hasSearched && !state.hasMore
  {
    var store := new SearchStore();
    assert AllWhitespace("   ");
    TrimSpec("   ");
    call := store.SearchMoviesBegin("   ");
    state := store.State();
  }

  /** Searching again while a search is in flight is not refused: a second request goes out. */
  method SearchWhileSearching(first: string, second: string) returns (call: Option<SearchCall>)
    requires !IsBlank(first) && !IsBlank(second)
    ensures call == Some(SearchCall(Trim(second), 1))
  {
    var store := new SearchStore();
    var c1 := store.SearchMoviesBegin(first);
    call := store.SearchMoviesBegin(second);
  }
}
