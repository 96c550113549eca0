/** Option and Result values, and the errors the modelled code throws. */
module Results {

  datatype Option<+T> = None | Some(value: T) {
    function GetOr(default: T): T {
      match this
      case Some(v) => v
      case None => default
    }
  }

  datatype Result<+T> = Ok(value: T) | Err(error: Error)

  /** Error codes of the RPC layer that the routers raise. */
  datatype TrpcCode = UNAUTHORIZED | FORBIDDEN

  /**
   * What a failing operation throws:
   * - NonRetriable: the workflow engine's non-retriable error with its message;
   * - Thrown: any other exception (an external call, a runtime TypeError), kept opaque
   *   so that "the same error is rethrown" can be stated as equality;
   * - Trpc: an error of the RPC layer with its code and message;
   * - RecordNotFound: a find-or-throw query that matched no row;
   * - InvalidQuery: a query argument the database refuses (a negative skip).
   */
  datatype Error =
    | NonRetriable(message: string)
    | Thrown(reason: string)
    | Trpc(code: TrpcCode, message: string)
    | RecordNotFound
    | InvalidQuery(reason: string)

  /** JavaScript truthiness of an optional string: absent and "" are both falsy. */
  predicate Truthy(s: Option<string>) {
    s.Some? && s.value != ""
  }

  /** `s || fallback` for an optional string. */
  function OrElse(s: Option<string>, fallback: string): (r: string)
    ensures Truthy(s) ==> r == s.value
    ensures !Truthy(s) ==> r == fallback
  {
    if Truthy(s) then s.value else fallback
  }
}
