/** The HTTP client wrapper (api/client.ts): the translation of failed requests into
    user-facing messages, the request interceptor that adds the API key, and the
    image-URL builders. The transport itself is a parameter of the endpoints. */
module Client {
  import opened Types

  const ImageBaseUrl := "https://image.tmdb.org/t/p"

  /** How a request failed, as the response interceptor sees it: a response arrived with
      an HTTP status, the request went out and no response came back, or the request
      could not be made at all. */
  datatype RequestError = HttpStatus(status: int) | NoResponse | SetupFailure

  /** What the client's `get` produces: the response body, or a rejection. */
  datatype Outcome<+T> = Received(data: T) | Rejected(cause: RequestError)

  const InvalidApiKeyMessage := "Invalid API key. Please check your configuration."
  const NotFoundMessage := "Resource not found."
  const RateLimitedMessage := "Too many requests. Please try again later."
  const ServerErrorMessage := "Server error. Please try again later."
  const GenericErrorMessage := "An error occurred. Please try again."
  const NetworkErrorMessage := "Network error. Please check your internet connection."
  const UnexpectedErrorMessage := "An unexpected error occurred."

  /** The only texts the rest of the application ever receives as a gateway error. */
  const GatewayMessages: set<string> := {
    InvalidApiKeyMessage, NotFoundMessage, RateLimitedMessage, ServerErrorMessage,
    GenericErrorMessage, NetworkErrorMessage, UnexpectedErrorMessage
  }

  const ServerErrorStatuses: set<int> := {500, 502, 503}
  const RecognisedStatuses: set<int> := {401, 404, 429} + ServerErrorStatuses

  /** handleError: each failure maps to exactly one message, and each message names
      exactly one class of failure. */
  function HandleError(e: RequestError): (message: string)
    ensures message in GatewayMessages
    ensures message == InvalidApiKeyMessage <==> e == HttpStatus(401)
    ensures message == NotFoundMessage <==> e == HttpStatus(404)
    ensures message == RateLimitedMessage <==> e == HttpStatus(429)
    ensures message == ServerErrorMessage <==> e.HttpStatus? && e.status in ServerErrorStatuses
    ensures message == GenericErrorMessage <==> e.HttpStatus? && e.status !in RecognisedStatuses
    ensures message == NetworkErrorMessage <==> e == NoResponse
    ensures message == UnexpectedErrorMessage <==> e == SetupFailure
  {
    match e
    case HttpStatus(status) =>
      if status == 401 then InvalidApiKeyMessage
      else if status == 404 then NotFoundMessage
      else if status == 429 then RateLimitedMessage
      else if status == 500 || status == 502 || status == 503 then ServerErrorMessage
      else GenericErrorMessage
    case NoResponse => NetworkErrorMessage
    case SetupFailure => UnexpectedErrorMessage
  }

  /** Query parameters of a request. */
  datatype ParamValue = Number(n: int) | Text(s: string)
  type Params = map<string, ParamValue>

  const ApiKeyParam := "api_key"

  /** The request interceptor: the caller's parameters, plus `api_key` set to the client's
      key, which wins over any `api_key` the caller supplied. */
  function WithApiKey(params: Params, apiKey: string): (sent: Params)
    ensures sent.Keys == params.Keys + {ApiKeyParam}
    ensures sent[ApiKeyParam] == Text(apiKey)
    ensures forall k :: k in params && k != ApiKeyParam ==> sent[k] == params[k]
  {
    params[ApiKeyParam := Text(apiKey)]
  }

  /** Sending a request twice through the interceptor sends the same parameters. */
  lemma WithApiKeyIdempotent(params: Params, apiKey: string)
    ensures WithApiKey(WithApiKey(params, apiKey), apiKey) == WithApiKey(params, apiKey)
  {
    var once := WithApiKey(params, apiKey);
    var twice := WithApiKey(once, apiKey);
    assert twice.Keys == once.Keys;
    forall k | k in once ensures twice[k] == once[k] {
      if k != ApiKeyParam {
        assert twice[k] == once[k];
      }
    }
  }

  /** The size variants an image URL can ask for. */
  datatype ImageSize = W500 | W780 | Original

  function SizeToken(size: ImageSize): string {
    match size
    case W500 => "w500"
    case W780 => "w780"
    case Original => "original"
  }

  /** The URL prefix that precedes the image path for a given size. */
  function ImagePrefix(size: ImageSize): string {
    ImageBaseUrl + "/" + SizeToken(size)
  }

  /** getImageUrl: no URL for a missing or empty path; otherwise the path appended to the
      base URL and the size token. */
  function ImageUrl(path: Option<string>, size: ImageSize := W500): (url: string)
    ensures url == [] <==> path.None? || path.value == []
    ensures url != [] ==> |url| == |ImagePrefix(size)| + |path.value|
                           && url[..|ImagePrefix(size)|] == ImagePrefix(size)
                           && url[|ImagePrefix(size)|..] == path.value
  {
    if path.None? || path.value == [] then "" else ImagePrefix(size) + path.value
  }

  /** Different sizes or different paths never produce the same URL, so the size and the
      path can be read back from any non-empty image URL. */
  lemma ImageUrlInjective(p1: Option<string>, s1: ImageSize, p2: Option<string>, s2: ImageSize)
    requires ImageUrl(p1, s1) != [] && ImageUrl(p1, s1) == ImageUrl(p2, s2)
    ensures s1 == s2 && p1 == p2
  {
    var url := ImageUrl(p1, s1);
    var base := |ImageBaseUrl| + 1;
    assert url[base] == ImagePrefix(s1)[base] == ImagePrefix(s2)[base];
    assert url[base + 1] == ImagePrefix(s1)[base + 1] == ImagePrefix(s2)[base + 1];
    assert s1 == s2;
  }

  /** getPosterUrl: the medium (w500) variant. */
  function PosterUrl(path: Option<string>): (url: string)
    ensures url == ImageUrl(path, W500)
  {
    ImageUrl(path, W500)
  }

  /** getBackdropUrl: the large (w780) variant. */
  function BackdropUrl(path: Option<string>): (url: string)
    ensures url == ImageUrl(path, W780)
  {
    ImageUrl(path, W780)
  }

  /** A poster URL and a backdrop URL for the same non-empty path are different images. */
  lemma PosterAndBackdropDiffer(path: Option<string>)
    requires path.Some? && path.value != []
    ensures PosterUrl(path) != BackdropUrl(path)
  {
    if PosterUrl(path) == BackdropUrl(path) {
      ImageUrlInjective(path, W500, path, W780);
    }
  }
}
