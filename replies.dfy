/** The JSON replies the REST handlers send, by status code. */
module Replies {
  import opened Wrappers

  /** A handler's reply: the payload with status 200, a client error with
      400 or 404, or an escaped exception with 500. */
  datatype Reply<T> = Success(data: T) | BadRequest(error: string) | NotFound(error: string) | ServerError(exc: Exception)
  {
    function Status(): int {
      match this
      case Success(_) => 200
      case BadRequest(_) => 400
      case NotFound(_) => 404
      case ServerError(_) => 500
    }
  }

  /** A call's result as a reply: its exception becomes a 500. */
  function ReplyOf<T>(t: Try<T>): (r: Reply<T>)
    ensures r.Status() == 200 <==> t.Ok?
    ensures r.Status() == 500 <==> t.Raised?
    ensures t.Ok? ==> r == Success(t.value)
    ensures t.Raised? ==> r == ServerError(t.exc)
  {
    match t
    case Ok(v) => Success(v)
    case Raised(e) => ServerError(e)
  }
}
