/** The records exchanged with the movie catalog service (api/types.ts).
    Floating-point fields (vote average, popularity) are not modelled. */
module Types {

  datatype Option<+T> = None | Some(value: T)

  datatype Movie = Movie(
    id: int,
    title: string,
    posterPath: Option<string>,
    backdropPath: Option<string>,
    overview: string,
    releaseDate: string,
    voteCount: int,
    genreIds: seq<int>)

  datatype Genre = Genre(id: int, name: string)

  /** A movie together with the fields only the detail endpoint returns. */
  datatype MovieDetail = MovieDetail(
    movie: Movie,
    genres: seq<Genre>,
    runtime: int,
    status: string,
    tagline: string,
    budget: int,
    revenue: int)

  datatype Cast = Cast(id: int, name: string, character: string, profilePath: Option<string>, order: int)

  datatype Credits = Credits(id: int, cast: seq<Cast>)

  datatype MovieListResponse = MovieListResponse(page: int, results: seq<Movie>, totalPages: int, totalResults: int)

  /** The tagged result every gateway call returns to the state containers. */
  datatype ApiResponse<+T> = Success(data: T) | Failure(error: string)
}
