/** The catalog service (api/endpoints.ts): each fetcher builds one request, hands it to the
    client's `get` (a parameter here: the transport is not modelled) and turns the outcome
    into a tagged ApiResponse. */
module Endpoints {
  import opened Types
  import opened JsString
  import opened Client

  /** The endpoint a request is sent to; the movie id is kept as a number rather than
      rendered into the path text. */
  datatype Path = PopularPath | SearchPath | DetailsPath(movieId: int) | CreditsPath(movieId: int)

  datatype Request = Get(path: Path, params: Params)

  /** The answer of the client's `get` to a request. */
  type Transport<T> = Request -> Outcome<T>

  /** The shared tail of every fetcher: data becomes a success, a rejection becomes a
      failure carrying the message the response interceptor produced. */
  function Wrap<T>(outcome: Outcome<T>): (r: ApiResponse<T>)
    ensures r.Success? <==> outcome.Received?
    ensures r.Success? ==> r.data == outcome.data
    ensures r.Failure? ==> r.error == HandleError(outcome.cause) && r.error in GatewayMessages
  {
    match outcome
    case Received(data) => Success(data)
    case Rejected(cause) => Failure(HandleError(cause))
  }

  function PopularRequest(page: int): Request {
    Get(PopularPath, map["page" := Number(page)])
  }

  /** getPopularMovies: one request for the given page (1 when the caller gives none). */
  function GetPopularMovies(get: Transport<MovieListResponse>, page: int := 1): (r: ApiResponse<MovieListResponse>)
    ensures get(PopularRequest(page)).Received? ==> r == Success(get(PopularRequest(page)).data)
    ensures get(PopularRequest(page)).Rejected? ==> r == Failure(HandleError(get(PopularRequest(page)).cause))
  {
    Wrap(get(PopularRequest(page)))
  }

  /** The request a non-blank search sends: the trimmed text and the page. */
  function SearchRequest(query: string, page: int): (req: Request)
    ensures req.path == SearchPath && req.params.Keys == {"query", "page"}
    ensures req.params["page"] == Number(page)
    ensures req.params["query"] == Text(Trim(query))
    ensures Trim(req.params["query"].s) == req.params["query"].s
  {
    var text := Trim(query);
    TrimIdempotent(query);
    Get(SearchPath, map["query" := Text(text), "page" := Number(page)])
  }

  /** The page a blank search answers with, without asking the service. */
  const EmptySearchPage := MovieListResponse(1, [], 0, 0)

  /** searchMovies: a blank query succeeds at once with an empty first page and zero
      totals, whatever the transport would have answered; any other query is sent
      trimmed, for the given page (1 when the caller gives none). */
  function SearchMovies(get: Transport<MovieListResponse>, query: string, page: int := 1): (r: ApiResponse<MovieListResponse>)
    ensures IsBlank(query) ==> r == Success(EmptySearchPage)
    ensures !IsBlank(query) && get(SearchRequest(query, page)).Received? ==>
              r == Success(get(SearchRequest(query, page)).data)
    ensures !IsBlank(query) && get(SearchRequest(query, page)).Rejected? ==>
              r == Failure(HandleError(get(SearchRequest(query, page)).cause))
  {
    if IsBlank(query) then Success(EmptySearchPage) else Wrap(get(SearchRequest(query, page)))
  }

  /** A caller that trims the query before searching (the search container does) sends
      exactly the request the raw query would have sent, and is blank exactly when the
      raw query is. */
  lemma PretrimmedSearchUnchanged(get: Transport<MovieListResponse>, query: string, page: int)
    ensures IsBlank(Trim(query)) == IsBlank(query)
    ensures SearchRequest(Trim(query), page) == SearchRequest(query, page)
    ensures SearchMovies(get, Trim(query), page) == SearchMovies(get, query, page)
  {
    var t := Trim(query);
    TrimIdempotent(query);
    assert Trim(t) == t;
    assert IsBlank(t) == IsBlank(query);
    assert SearchRequest(t, page) == SearchRequest(query, page);
  }

  /** getMovieDetails: one request to the movie's detail path, with no parameters of its own. */
  function GetMovieDetails(get: Transport<MovieDetail>, movieId: int): (r: ApiResponse<MovieDetail>)
    ensures get(Get(DetailsPath(movieId), map[])).Received? ==> r == Success(get(Get(DetailsPath(movieId), map[])).data)
    ensures get(Get(DetailsPath(movieId), map[])).Rejected? ==>
              r == Failure(HandleError(get(Get(DetailsPath(movieId), map[])).cause))
  {
    Wrap(get(Get(DetailsPath(movieId), map[])))
  }

  /** getMovieCredits: one request to the movie's credits path, with no parameters of its own. */
  function GetMovieCredits(get: Transport<Credits>, movieId: int): (r: ApiResponse<Credits>)
    ensures get(Get(CreditsPath(movieId), map[])).Received? ==> r == Success(get(Get(CreditsPath(movieId), map[])).data)
    ensures get(Get(CreditsPath(movieId), map[])).Rejected? ==>
              r == Failure(HandleError(get(Get(CreditsPath(movieId), map[])).cause))
  {
    Wrap(get(Get(CreditsPath(movieId), map[])))
  }

  /** getProfileUrl: a cast member's picture is built exactly like a poster. */
  function ProfileUrl(path: Option<string>): (url: string)
    ensures url == PosterUrl(path)
  {
    ImageUrl(path, W500)
  }
}
