# Movie catalog client: state containers and gateway helpers

This project models, in Dafny, the client-side logic of a mobile app for browsing a movie
catalog and keeping a local list of favorites:

- the popular-movies list container: fetch the first page, fetch the next page, refresh, reset;
- the search-results list container: set the query, search, load more, clear;
- the favorites container: it updates its in-memory list first, persists the change, and
  rolls the list back when the write fails;
- the persistent favorites store: the whole list lives under the key `@movie_favorites`;
- the movie-detail container: the movie record plus the top ten cast members;
- the gateway: the client's error-message mapping, the interceptor that adds the API key, the
  image URLs, and the endpoints that wrap each call into a success/failure result.

Structure: one module per source file, plus two modules of helpers that several files share
(`JsString`, `FavoritesList`):

| module | file | models |
|---|---|---|
| `Types` | types.dfy | the records of api/types.ts (`Movie`, `MovieDetail`, `Cast`, `Credits`, `MovieListResponse`, `ApiResponse`) |
| `JsString` | js_string.dfy | JavaScript's `String.prototype.trim` and the blank test `!s.trim()` |
| `Client` | client.dfy | api/client.ts: `handleError`, the request interceptor, `getImageUrl` / `getPosterUrl` / `getBackdropUrl` |
| `Endpoints` | endpoints.dfy | api/endpoints.ts: the four fetchers, the blank-search short-circuit, `getProfileUrl` |
| `FavoritesList` | favorites_list.dfy | the list computations (`some`, `filter`, prepend) shared by utility/storage.ts and store/favoritesStore.ts |
| `Storage` | storage.dfy | utility/storage.ts as a class over a key-value map |
| `Favorites` | favorites_store.dfy | store/favoritesStore.ts as a class |
| `Movies` | movies_store.dfy | store/moviesStore.ts as a class |
| `Search` | search_store.dfy | store/searchStore.ts as a class |
| `Detail` | movie_detail_store.dfy | store/movieDetailStore.ts as a class |

How the asynchronous actions are modelled:

- Each container is a class whose fields are the container's state.
- In the list and detail containers, `State()` returns a snapshot of the fields as a
  datatype. Every action's postcondition gives the new snapshot as the old one with exactly
  the changed fields updated. The favorites container and the persistent store state their
  new fields and stored map directly.
- The list actions and `fetchMovieDetails` are split at their `await`. (`fetchMovieCredits`
  sets nothing before its `await`, so it is one method that calls the fetcher.) A `…Begin` method holds the guard
  and the first update, and returns the request it sends (`None` when it sends none). A
  `…Complete` method is the continuation. It receives the values the action captured before
  the `await`, plus the gateway's response.
- Completions take no precondition on what happened in between. The source cancels nothing,
  so a late response is applied to whatever state the container is in by then.
- The favorites actions run to completion in one method each.
- The gateway transport is a function parameter (`Endpoints.Transport`). Each storage read or
  write takes a success flag as a parameter (`readOk`, `writeOk`).

Invariants kept by every action:

- `Movies.MoviesStore.Valid`: the `loading` and `refreshing` flags are never both set. Two
  requests can still be outstanding at once, because `reset` clears the flags without
  cancelling anything.
- `Search.SearchStore.Valid`: until a search has been answered, the list is empty, on page 1
  of 1. As a result, `loadMoreResults` never sends a request before a search.
- `Detail.MovieDetailStore.Valid`: the cast holds at most ten members.
- `Favorites.FavoritesStore.InSync`: the in-memory list equals the persisted list. Each
  mutation keeps this whenever its read of the store succeeds, whether the write succeeds or
  is rolled back.

Behaviour of the code a reader may not expect:

- A blank search in the search container sets `totalPages` to 1, not 0
  (store/searchStore.ts:45). The zero totals belong to the endpoint's own short-circuit,
  which the container never reaches: it trims the query first, and trimming twice is
  trimming once.
- `hasMore` is not always bounded by `page < totalPages`. The initial state has
  `hasMore = true` on page 1 of 1. The next-page guard is what stops a request past the last
  page (`FetchMoreMoviesBegin` ensures any page it requests is at most `totalPages`).
- On a failed detail fetch, the completion itself does not clear `movie` and `cast`. They are
  empty only because the start of the fetch cleared them (`FailedRefetch`).
- `clearAllFavorites` removes the stored key rather than writing an empty list.
- When the persistent store's read fails inside `addFavorite`, the list it sees is `[]`. The
  write then replaces everything stored with the single movie (`Storage.FavoritesStorage.AddFavorite`).
- `getFavorites` returns whatever the stored text parses to, unchecked. If that is not an array
  (`null`, an object, a number, a string, a boolean), the `some` or `filter` call of the
  persistent store's `addFavorite`, `removeFavorite` and `isFavorite` throws. Each of them then
  answers false without writing (`Storage.Stored.NotAList`, `Favorites.AddOverNonList`).
  Only the `catch` of `loadFavorites` cannot be reached.

## Model

| member | source | states |
|---|---|---|
| `Client.HandleError` | api/client.ts:50-72 | 401, 404 and 429 each map to their own message, and each message comes only from that status. 500, 502 and 503 all map to the server-error message. Every other status maps to the generic message. No response maps to the network message; no request maps to the unexpected message. The result is always one of these seven texts. |
| `Client.WithApiKey` | api/client.ts:28-39 | The outgoing parameters are the caller's keys plus `api_key`. `api_key` always equals the client's key, overriding any caller value. Every other caller parameter is kept unchanged. |
| `Client.WithApiKeyIdempotent` | api/client.ts:30-33 | Applying the interceptor twice gives the same parameters as applying it once. |
| `Client.ImageUrl` | api/client.ts:79-82 | The URL is empty exactly when the path is null or empty. Otherwise it is the base URL, "/", the size token, then the path; the size defaults to w500. |
| `Client.ImageUrlInjective` | api/client.ts:79-82 | Two equal non-empty image URLs have the same size and the same path. |
| `Client.PosterUrl` | api/client.ts:84-86 | A poster URL is the w500 image URL. |
| `Client.BackdropUrl` | api/client.ts:88-90 | A backdrop URL is the w780 image URL. |
| `Client.PosterAndBackdropDiffer` | api/client.ts:84-90 | For a non-empty path, the poster URL and the backdrop URL differ. |
| `JsString.TrimSpec` | store/searchStore.ts:38-41 | `Trim` (trimming whitespace from both ends) gives an empty result exactly when the text is all whitespace. Otherwise the result starts and ends with non-whitespace and sits in the text with only whitespace before and after it. |
| `JsString.TrimStartDrops` | store/searchStore.ts:38 | Trimming the front leaves a suffix that starts with non-whitespace, and everything dropped is whitespace. |
| `JsString.TrimEndDrops` | store/searchStore.ts:38 | Trimming the back leaves a prefix that ends with non-whitespace, and everything dropped is whitespace. |
| `JsString.TrimIdempotent` | api/endpoints.ts:51-52 | Trimming an already trimmed text changes nothing. |
| `Endpoints.Wrap` | api/endpoints.ts:19-28 | A fetcher succeeds exactly when the client returned data, and then carries that data. A failure carries the interceptor's message for the rejection, which is one of the gateway messages. |
| `Endpoints.GetPopularMovies` | api/endpoints.ts:14-29 | One request for the given page (default 1). The data becomes a success; a rejection becomes a failure with the mapped message. |
| `Endpoints.SearchRequest` | api/endpoints.ts:51-54 | The search request carries exactly `query` and `page`. `page` is the given page, and `query` is the trimmed query text, so trimming it again changes nothing. |
| `Endpoints.SearchMovies` | api/endpoints.ts:34-65 | A blank query succeeds with page 1, no results and zero totals, whatever the transport would answer. Any other query sends the trimmed request for the given page (default 1) and wraps the answer. |
| `Endpoints.PretrimmedSearchUnchanged` | api/endpoints.ts:39-54 | Searching with a query trimmed beforehand is blank exactly when the raw query is, and sends the same request with the same result. |
| `Endpoints.GetMovieDetails` | api/endpoints.ts:70-83 | One request to the movie's detail path, with no parameters of its own, wrapped as success or failure. |
| `Endpoints.GetMovieCredits` | api/endpoints.ts:88-101 | One request to the movie's credits path, with no parameters of its own, wrapped as success or failure. |
| `Endpoints.ProfileUrl` | api/endpoints.ts:120-122 | A profile URL is built exactly like a poster URL (size w500). |
| `FavoritesList.HasId` | store/favoritesStore.ts:78-81 | True exactly when some entry has the id. |
| `FavoritesList.WithoutId` | utility/storage.ts:60 | No entry with the id remains. Every entry with another id is kept, and nothing else appears. |
| `FavoritesList.AddedTo` | utility/storage.ts:40-47 | The result contains the id. If the id is already present, the list is unchanged. If the id was absent, the movie is put in front of the unchanged list. No old entry is lost and nothing else is added. |
| `FavoritesList.WithoutIdAppend` | utility/storage.ts:60 | Removal distributes over concatenation, so the kept entries stay in their original order. |
| `FavoritesList.WithoutAbsentId` | store/favoritesStore.ts:63 | Removing an id that no entry has leaves the list unchanged. |
| `FavoritesList.AddedToIdempotent` | store/favoritesStore.ts:40-44 | Adding the same movie a second time changes nothing. |
| `FavoritesList.AddedToKeepsUnique` | store/favoritesStore.ts:40-45 | Adding keeps ids unique. |
| `FavoritesList.WithoutIdKeepsUnique` | store/favoritesStore.ts:63-64 | Removing keeps ids unique. |
| `Storage.ReadFavorites` | utility/storage.ts:11-19 | The stored list is returned. A failed read, an absent key or text that does not parse each read as []. Text that parses to something other than an array is handed on as it is (`None`), and only in that case. |
| `Storage.FavoritesStorage.GetFavorites` | utility/storage.ts:11-19 | Returns what `ReadFavorites` gives for the current store. |
| `Storage.FavoritesStorage.SaveFavorites` | utility/storage.ts:24-32 | Returns whether the write succeeded. On success the key holds the whole list, and reading it back gives that list. On failure nothing changes. No other key changes. |
| `Storage.FavoritesStorage.AddFavorite` | utility/storage.ts:37-52 | If what was read is not an array, returns false and writes nothing (the `catch`). If the id is already stored, returns true and writes nothing. Otherwise it writes the movie in front of what was read and returns the write's outcome. No other key changes. |
| `Storage.FavoritesStorage.RemoveFavorite` | utility/storage.ts:57-66 | If what was read is not an array, returns false and writes nothing (the `catch`). Otherwise it writes what was read with every entry of that id dropped, and returns the write's outcome. No other key changes. |
| `Storage.FavoritesStorage.IsFavorite` | utility/storage.ts:71-79 | Membership by id in the stored list. A failed read answers false, and so does a stored value that is not an array. |
| `Storage.FavoritesStorage.ClearFavorites` | utility/storage.ts:84-92 | On success the key is gone and the next read gives []. On failure nothing changes. No other key changes. |
| `Favorites.FavoritesStore.constructor` | store/favoritesStore.ts:19-22 | Starts with an empty list, not loading and not initialized. |
| `Favorites.FavoritesStore.LoadFavorites` | store/favoritesStore.ts:24-34 | The list becomes the list the store reads ([] on a failed read). Loading ends and the container is initialized. After a successful read of a stored list, the list is in sync with the store. |
| `Favorites.FavoritesStore.AddFavorite` | store/favoritesStore.ts:36-57 | An id already present returns true and touches nothing. Otherwise the movie is added to the front, and the store's add decides the result. On failure the list is exactly the pre-call list. Id uniqueness is preserved. Sync with the store is preserved when the store read succeeds. |
| `Favorites.FavoritesStore.RemoveFavorite` | store/favoritesStore.ts:59-76 | The store is always asked to remove, even for an absent id, and the result is its answer. On success every entry with the id is dropped; on failure the pre-call list is restored. Uniqueness is preserved. Sync is preserved when the store read succeeds. |
| `Favorites.FavoritesStore.IsFavorite` | store/favoritesStore.ts:78-81 | True exactly when some in-memory entry has the id. It reads only the in-memory list. |
| `Favorites.FavoritesStore.ClearAllFavorites` | store/favoritesStore.ts:83-99 | On success the list is empty and the key is removed. On failure the pre-call list is restored. Sync is preserved. |
| `Favorites.RemoveFromLoadedList` | store/favoritesStore.ts:59-76 | With [{id 1}, {id 2}] stored and loaded, removing id 1 leaves [{id 2}] both in memory and in the store. |
| `Favorites.AddOverNonList` | utility/storage.ts:37-51 | For a container that has not loaded, when the stored text parses to something other than an array, adding a movie answers false. The mirror is rolled back to its empty start and the store is not written. |
| `Favorites.AddTwice` | store/favoritesStore.ts:36-57 | Adding the same movie twice leaves at most one entry. That entry is there exactly when one of the writes succeeded. |
| `Movies.MoviesStore.constructor` | store/moviesStore.ts:22-29 | Initial state: no movies, page 1 of 1, no flags set, no error, `hasMore` true. |
| `Movies.MoviesStore.FetchMoviesBegin` | store/moviesStore.ts:31-37 | Does nothing while loading or refreshing. Otherwise it sets loading, clears the error and requests page 1. The `loading` and `refreshing` flags are never both set. |
| `Movies.MoviesStore.FetchMoviesComplete` | store/moviesStore.ts:39-52 | On success the movies are replaced by the page's results, on page 1, with `totalPages` from the response, `hasMore` = response page < total, and loading cleared. On failure the error is set and loading cleared; the list and paging fields are unchanged. |
| `Movies.MoviesStore.FetchMoreMoviesBegin` | store/moviesStore.ts:55-68 | Does nothing while loading or refreshing, or without `hasMore`. If page+1 exceeds `totalPages`, only `hasMore` is cleared and no request is made. Otherwise it sets loading, clears the error and requests page+1, which never exceeds `totalPages`. |
| `Movies.MoviesStore.FetchMoreMoviesComplete` | store/moviesStore.ts:70-82 | On success the results are appended after the current movies, `page` becomes the requested page, `totalPages` is kept and `hasMore` = next page < the response's total. On failure only the error and loading change. |
| `Movies.MoviesStore.RefreshMoviesBegin` | store/moviesStore.ts:85-91 | Does nothing while loading or refreshing. Otherwise it sets refreshing, clears the error and requests page 1. |
| `Movies.MoviesStore.RefreshMoviesComplete` | store/moviesStore.ts:93-106 | On success the movies are replaced (not appended) by the page's results, on page 1. On failure only the error and refreshing change. |
| `Movies.MoviesStore.Reset` | store/moviesStore.ts:109-119 | The state is exactly the initial state. |
| `Movies.FirstPageOfFive` | store/moviesStore.ts:31-52 | After fetching page 1 of 5, the container is on page 1 of 5, expects more, and holds exactly that page's results. |
| `Movies.TwoPages` | store/moviesStore.ts:55-82 | Fetching page 1 and then page 2 requests page 2 and leaves exactly the two pages' results in request order, on page 2. |
| `Movies.FetchThenRefresh` | store/moviesStore.ts:93-100 | After a fetch and then a refresh, the list is exactly the refreshed page, on page 1. |
| `Movies.RequestsWhileLoading` | store/moviesStore.ts:56-58 | While the first page is in flight, neither a next-page fetch nor a refresh sends a request or changes anything. |
| `Search.SearchStore.constructor` | store/searchStore.ts:23-31 | Initial state: empty query, no movies, page 1 of 1, not loading, no error, `hasMore` true, no search yet. |
| `Search.SearchStore.SetQuery` | store/searchStore.ts:33-35 | Only the query changes. |
| `Search.SearchStore.SearchMoviesBegin` | store/searchStore.ts:37-53 | A blank text: empty results, page 1 of 1, `hasMore` false, no search, no error, no request, and `loading` untouched. Any other text: loading set and error cleared, with no guard, and the trimmed text is requested at the given page (default 1). |
| `Search.SearchStore.SearchMoviesComplete` | store/searchStore.ts:55-72 | On success, requested page 1 replaces the results and any other page appends them. `page` and `totalPages` come from the response, and `hasMore` = response page < total. On failure the error is set and the results are kept. Either way loading clears and the search counts as answered. |
| `Search.SearchStore.LoadMoreResultsBegin` | store/searchStore.ts:75-87 | Does nothing while loading, without `hasMore`, or when the stored query is blank. If page+1 exceeds `totalPages`, only `hasMore` is cleared. Otherwise it behaves as `searchMovies(query, page+1)`. It never sends a request before a search has been answered. |
| `Search.SearchStore.ClearSearch` | store/searchStore.ts:89-100 | The state is exactly the initial state, query included. |
| `Search.SearchSpaces` | store/searchStore.ts:38-51 | Searching for spaces sends no request and leaves no results, no search and no more pages. |
| `Search.SearchWhileSearching` | store/searchStore.ts:53-55 | A second search while one is in flight still sends its request. |
| `Detail.TopCast` | store/movieDetailStore.ts:37 | The first min(10, n) cast members, in their original order. |
| `Detail.JoinError` | store/movieDetailStore.ts:41-43 | No error exactly when both calls succeeded. Otherwise the detail error whenever the detail call failed, else the credits error. |
| `Detail.MovieDetailStore.constructor` | store/movieDetailStore.ts:18-22 | Initial state: no movie, no cast, not loading, no error. |
| `Detail.MovieDetailStore.FetchMovieDetailsBegin` | store/movieDetailStore.ts:24-32 | Sets loading, with no movie, no cast and no error. Requests the given movie's details and its credits. |
| `Detail.MovieDetailStore.FetchMovieDetailsComplete` | store/movieDetailStore.ts:27-54 | Both calls succeeded: the movie and the top of the cast are stored. Either failed: only the error is set, by detail-first precedence. The join threw: only the generic message is set. Loading always clears, and the cast never exceeds ten. |
| `Detail.MovieDetailStore.FetchMovieCredits` | store/movieDetailStore.ts:57-63 | Asks for the given movie's credits. On success only the cast changes, to its top ten. On failure nothing changes. |
| `Detail.MovieDetailStore.Reset` | store/movieDetailStore.ts:65-72 | The state is exactly the initial state. |
| `Detail.FailedRefetch` | store/movieDetailStore.ts:25-53 | A fetch in which anything failed ends with no movie, no cast, loading cleared and an error, even after an earlier complete fetch. |
| `Detail.CreditsFailed` | store/movieDetailStore.ts:34-47 | When the detail call succeeds and the credits call fails, the credits message is shown with no movie and no cast. |

## Left out

- The HTTP transport (creating the axios instance, the base URL, the 10-second timeout, the
  headers, `get`) and reading the API key from the environment are foreign I/O. The transport
  is a function parameter of each fetcher.
- The endpoint path text: a movie id is kept as a number in `Endpoints.Path` and is not
  rendered into "/movie/{id}".
- `MovieService.getPosterUrl` and `getBackdropUrl` pass their argument unchanged to the client,
  so `Client.PosterUrl` and `Client.BackdropUrl` stand for them.
- The device key-value store and JSON encoding are foreign. The store is a map, and encoding
  is taken to round-trip. Every text that does not parse is one `Corrupt` value. Every text
  whose parsed value is not an array is one `NotAList` value. An array whose elements are not
  all movies is not represented: neither `[1]` nor one holding `null`, such as
  `[{"id":5},null]`. On the latter, `some` can stop at a match before it reaches the `null`,
  while `filter` always throws.
- Favorites.FavoritesStore.LoadFavorites: when the stored value is not an array, the source
  puts that value itself into `favorites`, and the container's later `some`/`filter` calls
  throw. The model has no such value and loads [] instead. The `catch` of `loadFavorites`
  (store/favoritesStore.ts:30-33) cannot be reached, because `getFavorites` swallows every
  error, so the model has no such branch.
- Overlapping favorites mutations: each favorites action runs to completion, so a rollback to
  a snapshot that another action made stale is not modelled. The list containers' actions are
  split at the `await`, so their interleavings are covered.
- The `Promise.all` join runs its two calls concurrently. The model receives its combined
  outcome as one value.
- The floating-point fields `vote_average` and `popularity`, console logging, and the zustand
  `create`/`set`/`get` plumbing (`set` is field assignment).
- The screens, navigation, icons and skeleton placeholders are not part of this model.
