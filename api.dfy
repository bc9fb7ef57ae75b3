/**
 * What the client sends to the backend and what it gets back, with the
 * network itself abstracted: every call's result is an input to the model.
 */
module Api {
  import opened Wrappers

  /** Body of `POST /api/movies` and `PUT /api/movies/{id}`. */
  datatype MoviePayload = MoviePayload(title: string, duration: string, synopsis: string, posterUrl: string)

  /** A movie write together with its `Authorization` header value. */
  datatype MovieRequest =
    | CreateMovie(payload: MoviePayload, authorization: string)
    | UpdateMovie(id: Option<int>, payload: MoviePayload, authorization: string)

  /**
   * `POST /api/schedules`. The three form texts are carried as typed; the
   * integer and timestamp conversions applied to them are not modelled.
   */
  datatype ScheduleRequest = CreateSchedule(movieId: string, showTime: string, price: string, authorization: string)

  /** Body of `POST /api/login`. */
  datatype LoginRequest = LoginRequest(email: string, password: string)

  /** The parts of a rejected request the handlers look at: `err.response.data.message`. */
  datatype ErrorBody = ErrorBody(message: Option<string>)
  datatype ErrorResponse = ErrorResponse(data: Option<ErrorBody>)
  datatype HttpError = HttpError(response: Option<ErrorResponse>)

  /** The settled result of an awaited request. */
  datatype Outcome<+T> = Succeeded(value: T) | Failed(error: HttpError)

  /** The result of a read whose failure handler ignores the error object. */
  datatype Fetched<+T> = Loaded(data: T) | FetchError

  /** `err.response?.data?.message`. */
  function ServerMessage(err: HttpError): (r: Option<string>)
    ensures r.Some? <==> err.response.Some? && err.response.value.data.Some? && err.response.value.data.value.message.Some?
    ensures r.Some? ==> r.value == err.response.value.data.value.message.value
  {
    match err.response
    case None => None
    case Some(resp) =>
      match resp.data
      case None => None
      case Some(body) => body.message
  }

  /**
   * `err.response?.data?.message || fallback`: the server's message when it
   * is present and non-empty, the handler's own text otherwise.
   */
  function MessageOr(err: HttpError, fallback: string): (r: string)
    ensures ServerMessage(err).Some? && ServerMessage(err).value != "" ==> r == ServerMessage(err).value
    ensures ServerMessage(err).None? || ServerMessage(err).value == "" ==> r == fallback
    ensures fallback != "" ==> r != ""
  {
    var m := ServerMessage(err);
    if m.Some? && m.value != "" then m.value else fallback
  }

  /** `Promise.all` over two reads: it succeeds only when both do. */
  function Both<A, B>(a: Fetched<A>, b: Fetched<B>): (r: Fetched<(A, B)>)
    ensures r.Loaded? <==> a.Loaded? && b.Loaded?
    ensures r.Loaded? ==> r.data == (a.data, b.data)
  {
    if a.Loaded? && b.Loaded? then Loaded((a.data, b.data)) else FetchError
  }
}
