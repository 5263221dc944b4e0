/** The response envelope every backend call answers with, the failure a rejected call
    throws, and the effects a page handler has besides its state change. */
module Common {

  datatype Option<T> = None | Some(value: T) {
    function GetOr(default: T): T {
      match this
      case Some(v) => v
      case None => default
    }
  }

  /** `{ statusCode, message?, data? }`: the decoded body of a backend answer. */
  datatype Response<T> = Response(statusCode: int, message: Option<string>, data: Option<T>)

  /** What a rejected request throws: `error.response?.data?.message` and `error.message`. */
  datatype Failure = Failure(responseMessage: Option<string>, message: Option<string>)

  /** The outcome of one awaited backend call. */
  datatype Call<T> = Returned(response: Response<T>) | Threw(failure: Failure)

  /** `statusCode === 200` is the only success condition the pages use. */
  predicate IsOk<T>(r: Response<T>) {
    r.statusCode == 200
  }

  /** A 200 answer carries its `data`; the pages that store it rely on that. */
  predicate WellFormed<T>(c: Call<T>) {
    c.Returned? && IsOk(c.response) ==> c.response.data.Some?
  }

  /** JavaScript `a || b` for a string that may be undefined: an empty or missing `a` falls back to `b`. */
  function OrElse(a: Option<string>, b: string): string {
    if a.Some? && a.value != "" then a.value else b
  }

  /** `error.response?.data?.message || error.message || fallback`. */
  function Caught(f: Failure, fallback: string): string {
    OrElse(f.responseMessage, OrElse(f.message, fallback))
  }

  /** A react-router navigation, recorded only by its target; `GoBack` is `navigate(-1)`. */
  datatype Navigation = GoTo(path: string) | GoToReplacing(path: string) | GoBack

  /** What a handler does besides changing its page state: the message it passes to `showError`
      (an undefined message is recorded as ""), where it navigates, and whether it issued its request. */
  datatype Effects = Effects(shown: Option<string>, navigation: Option<Navigation>, sent: bool)

  const Quiet := Effects(None, None, false)
}
