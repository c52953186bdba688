/**
 * What the client sees of its hosted backend, and the two error policies the
 * composables apply to every call.
 *
 * Every backend call is modelled as an input: the answer it returned
 * (`Ok`) or the error object it reported (`Fail`). Nothing here models how
 * the backend computes that answer.
 */
module Backend {

  type Id = string

  /** Milliseconds since the epoch, as `Date.prototype.getTime` reports them. */
  type Millis = int

  /** A JavaScript value that may be `null` or `undefined` (both are `None`). */
  datatype Option<+T> = None | Some(value: T)

  /** The error object a backend call reports; the client only reads its message. */
  datatype Err = Err(message: string)

  /** The answer of one backend call. */
  datatype Result<+T> = Ok(value: T) | Fail(err: Err)

  /** A list query answers with rows, or with `data: null` and no error. */
  type ListResponse<T> = Result<Option<seq<T>>>

  /** `data || []`: a null list reads as the empty list. */
  function OrEmpty<T>(data: Option<seq<T>>): seq<T>
  {
    match data
    case Some(rows) => rows
    case None => []
  }

  /** JavaScript truthiness of an optional string: `undefined`, `null` and `""` are falsy. */
  predicate Truthy(s: Option<string>)
  {
    s.Some? && s.value != ""
  }

  /**
   * `s || null`: a falsy string is sent as null, any other string as itself.
   */
  function EmptyToNull(s: Option<string>): (r: Option<string>)
    ensures r.None? <==> !Truthy(s)
    ensures r.Some? ==> r == s
  {
    if Truthy(s) then s else None
  }

  /**
   * What one composable call leaves behind: the text stored in the wrapper's
   * shared `error` ref (cleared at the start of every call) and the value or
   * exception handed to the caller. The `loading` ref is always false again
   * once a call returns, so it is not recorded.
   */
  datatype Reply<+T> = Reply(error: Option<string>, outcome: T)

  /**
   * Read policy: a failure is logged in `error` and swallowed; the caller
   * receives `fallback` (`[]` or `null`) as if there were no data.
   */
  function Swallow<T>(resp: Result<T>, fallback: T): (r: Reply<T>)
    ensures r.error.None? <==> resp.Ok?
    ensures resp.Ok? ==> r.outcome == resp.value
    ensures resp.Fail? ==> r.outcome == fallback && r.error == Some(resp.err.message)
  {
    match resp
    case Ok(v) => Reply(None, v)
    case Fail(e) => Reply(Some(e.message), fallback)
  }

  /**
   * Write policy: a failure is logged in `error` and rethrown; the caller
   * sees exactly the backend's error, or the backend's answer.
   */
  function Rethrow<T>(resp: Result<T>): (r: Reply<Result<T>>)
    ensures r.error.None? <==> r.outcome.Ok?
    ensures r.outcome.Fail? ==> r.error == Some(r.outcome.err.message)
    ensures r.outcome == resp
  {
    match resp
    case Ok(v) => Reply(None, resp)
    case Fail(e) => Reply(Some(e.message), resp)
  }

  /**
   * The asymmetry between the two policies: to a caller, a failed read is
   * indistinguishable from an empty answer (only the `error` ref differs),
   * while a failed write always reaches the caller as a failure.
   */
  lemma ReadFailureLooksEmpty<T>(e: Err, fallback: T)
    ensures Swallow(Fail(e), fallback).outcome == Swallow(Ok(fallback), fallback).outcome
    ensures Swallow(Fail(e), fallback).error == Some(e.message)
    ensures Swallow(Ok(fallback), fallback).error == None
    ensures Rethrow<T>(Fail(e)).outcome.Fail?
  {
  }
}
