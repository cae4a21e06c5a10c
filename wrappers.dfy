/** The decorators of src/lanisapi/helpers/wrappers.py and the older
    `requires_auth` of the two legacy clients, applied to the outcome of
    the call they wrap. Whether the wrapped call runs at all is the
    caller's business: the client methods call them only where the
    decorator lets the call through. */
module Wrappers {
  import opened Outcomes

  /** `handle_exceptions`: an `httpx.RequestError` is logged and the call
      returns `None`; PageNotFoundError is raised again, and every other
      exception passes through untouched. */
  function HandleExceptions<T>(call: Result<Option<T>>): (r: Result<Option<T>>)
    ensures call.Ok? ==> r == call
    ensures call.Err? && call.error == RequestError ==> r == Ok(None)
    ensures call.Err? && call.error != RequestError ==> r == call
    ensures r.Err? ==> call.Err? && r.error == call.error && r.error != RequestError
  {
    if call.Err? && call.error == RequestError then Ok(None) else call
  }

  /** A wrapped call's outcome is exactly the call's outcome unless that was
      a transport failure. */
  lemma HandleExceptionsOnlyCatchesTransport<T>(call: Result<Option<T>>)
    ensures HandleExceptions(call) != call <==> call == Err(RequestError)
  {
  }

  /** `requires_auth` of wrappers.py: NotAuthenticatedError when the
      instance is not authenticated, the wrapped call's outcome otherwise. */
  function RequiresAuth<T>(authenticated: bool, call: Result<T>): (r: Result<T>)
    ensures !authenticated ==> r == Err(NotAuthenticatedError)
    ensures authenticated ==> r == call
  {
    if !authenticated then Err(NotAuthenticatedError) else call
  }

  /** Unless the wrapped call raises it itself, NotAuthenticatedError comes
      out exactly when the instance is not authenticated. */
  lemma RequiresAuthRaisesIff<T>(authenticated: bool, call: Result<T>)
    requires call != Err(NotAuthenticatedError)
    ensures RequiresAuth(authenticated, call) == Err(NotAuthenticatedError) <==> !authenticated
  {
  }

  /** `requires_auth` of src/lanisapi/lanisapi.py and src/LanisAPI/LanisAPI.py:
      an error is logged and `None` returned. */
  function LegacyRequiresAuth<T>(authenticated: bool, call: Result<Option<T>>): (r: Result<Option<T>>)
    ensures !authenticated ==> r == Ok(None)
    ensures authenticated ==> r == call
  {
    if !authenticated then Ok(None) else call
  }
}
