/** The detail container (store/movieDetailStore.ts): one movie's record and the first cast
    members, fetched together. fetchMovieDetails is split at its `await` into a start and a
    completion; the completion receives the outcome of joining the two gateway calls. */
module Detail {
  import opened Types
  import opened Endpoints

  /** How many cast members the container keeps. */
  const MaxCast := 10

  /** The message stored when joining the two calls throws. */
  const UnexpectedMessage := "An unexpected error occurred"

  datatype DetailState = DetailState(movie: Option<MovieDetail>, cast: seq<Cast>, loading: bool, error: Option<string>)

  const InitialState := DetailState(None, [], false, None)

  /** What awaiting both gateway calls produced: both responses, or an exception. */
  datatype JoinOutcome = Joined(details: ApiResponse<MovieDetail>, credits: ApiResponse<Credits>) | Threw

  /** `cast.slice(0, 10)`: the leading cast members, in the order the gateway gave them. */
  function TopCast(cast: seq<Cast>): (top: seq<Cast>)
    ensures |top| == if |cast| < MaxCast then |cast| else MaxCast
    ensures top == cast[..|top|]
  {
    if |cast| <= MaxCast then cast else cast[..MaxCast]
  }

  /** The error a joined pair of responses reports: none when both succeeded, the detail
      call's message whenever it failed, the credits call's message otherwise. */
  function JoinError(details: ApiResponse<MovieDetail>, credits: ApiResponse<Credits>): (error: Option<string>)
    ensures error.None? <==> details.Success? && credits.Success?
    ensures details.Failure? ==> error == Some(details.error)
    ensures details.Success? && credits.Failure? ==> error == Some(credits.error)
  {
    if details.Success? && credits.Success? then None
    else if details.Failure? then Some(details.error)
    else Some(credits.error)
  }

  class MovieDetailStore {
    var movie: Option<MovieDetail>
    var cast: seq<Cast>
    var loading: bool
    var error: Option<string>

    function State(): DetailState
      reads this
    {
      DetailState(movie, cast, loading, error)
    }

    /** The cast never holds more than ten members. */
    ghost predicate Valid()
      reads this
    {
      |cast| <= MaxCast
    }

    constructor ()
      ensures Valid() && State() == InitialState
    {
      movie, cast, loading, error := None, [], false, None;
    }

    /** fetchMovieDetails, up to the requests: loading, with no movie, no cast and no error;
        the movie's details and its credits are requested together. */
    method FetchMovieDetailsBegin(movieId: int) returns (details: Request, credits: Request)
      modifies this
      ensures Valid()
      ensures State() == DetailState(None, [], true, None)
      ensures details == Get(DetailsPath(movieId), map[]) && credits == Get(CreditsPath(movieId), map[])
    {
      movie, cast, loading, error := None, [], true, None;
      details, credits := Get(DetailsPath(movieId), map[]), Get(CreditsPath(movieId), map[]);
    }

    /** fetchMovieDetails, after both calls: when both succeeded the record and the top of
        the cast are stored; when either failed only the error (detail first) is stored; when
        joining threw only the generic message is stored. Loading ends in every case. */
    method FetchMovieDetailsComplete(outcome: JoinOutcome)
      requires Valid()
      modifies this
      ensures Valid()
      ensures outcome.Joined? && outcome.details.Success? && outcome.credits.Success? ==>
                State() == old(State()).(movie := Some(outcome.details.data),
                                         cast := TopCast(outcome.credits.data.cast), loading := false)
      ensures outcome.Joined? && !(outcome.details.Success? && outcome.credits.Success?) ==>
                State() == old(State()).(error := JoinError(outcome.details, outcome.credits), loading := false)
      ensures outcome.Threw? ==>
                State() == old(State()).(error := Some(UnexpectedMessage), loading := false)
    {
      match outcome
      case Joined(details, credits) =>
        if details.Success? && credits.Success? {
          movie, cast, loading := Some(details.data), TopCast(credits.data.cast), false;
        } else {
          error, loading := JoinError(details, credits), false;
        }
      case Threw =>
        error, loading := Some(UnexpectedMessage), false;
    }

    /** fetchMovieCredits: asks for the movie's credits; a success replaces only the cast
        with its top, a failure changes nothing. */
    method FetchMovieCredits(get: Transport<Credits>, movieId: int)
      requires Valid()
      modifies this
      ensures Valid()
      ensures var response := GetMovieCredits(get, movieId);
        && (response.Success? ==> State() == old(State()).(cast := TopCast(response.data.cast)))
        && (response.Failure? ==> State() == old(State()))
    {
      var response := GetMovieCredits(get, movieId);
      if response.Success? {
        cast := TopCast(response.data.cast);
      }
    }

    /** reset: back to exactly the initial state. */
    method Reset()
      modifies this
      ensures Valid() && State() == InitialState
    {
      movie, cast, loading, error := None, [], false, None;
    }
  }

  /** A completed fetch in which anything failed shows no movie and no cast, even when the
      previous fetch had filled both. */
  method FailedRefetch(previous: MovieDetail, credits: Credits, outcome: JoinOutcome) returns (state: DetailState)
    requires outcome.Threw? || outcome.details.Failure? || outcome.credits.Failure?
    ensures state.movie == None && state.cast == [] && !state.loading && state.error.Some?
    ensures outcome.Joined? ==> state.error == JoinError(outcome.details, outcome.credits)
  {
    var store := new MovieDetailStore();
    var d1, c1 := store.FetchMovieDetailsBegin(previous.movie.id);
    store.FetchMovieDetailsComplete(Joined(Success(previous), Success(credits)));
    var d2, c2 := store.FetchMovieDetailsBegin(previous.movie.id);
    store.FetchMovieDetailsComplete(outcome);
    state := store.State();
  }

  /** The failed-credits scenario: the detail call succeeds and the credits call fails, so
      the credits message is shown with no movie and no cast. */
  method CreditsFailed(details: MovieDetail, message: string) returns (state: DetailState)
    ensures state == DetailState(None, [], false, Some(message))
  {
    var store := new MovieDetailStore();
    var d, c := store.FetchMovieDetailsBegin(details.movie.id);
    store.FetchMovieDetailsComplete(Joined(Success(details), Failure(message)));
    state := store.State();
  }
}
