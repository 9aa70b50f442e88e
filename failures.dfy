/**
 * The exceptions the client raises, catches or passes on, and the Python
 * class hierarchy that decides which `except` clause catches them.
 */
module Failures {

  import opened Values

  datatype Exc =
    | HttpError(status: int)             // requests.exceptions.HTTPError, from raise_for_status
    | RequestError(reason: string)       // any other requests.exceptions.RequestException
    | InvalidJson                        // requests.exceptions.JSONDecodeError, from response.json()
    | ApiError(message: Value)           // TradierAPIException(message=...)
    | ValueError(text: string)
    | AttributeError(attribute: string)  // `.get` on something that is not a dict
    | DecodeError                        // UnicodeDecodeError, from bytes.decode('utf-8')
    | TimeoutError                       // asyncio.TimeoutError, from asyncio.wait_for
    | EndOfStream                        // StopAsyncIteration
    | Failure(text: string)              // any other Exception
    | Wrapped(text: string, cause: Exc)  // raise Exception(text) from cause

  /** `isinstance(e, requests.exceptions.RequestException)` */
  predicate IsRequestException(e: Exc)
  {
    e.HttpError? || e.RequestError? || e.InvalidJson?
  }

  /** The errors the HTTP streamers catch around their setup and iteration. */
  predicate IsStreamSetupError(e: Exc)
  {
    e.ApiError? || IsRequestException(e)
  }

  /**
   * `raise_for_status()` of the requests library: an HTTPError for a client
   * (4xx) or server (5xx) status, nothing otherwise.
   */
  function RaiseForStatus(status: int): (r: Option<Exc>)
    ensures r.Some? <==> 400 <= status < 600
    ensures r.Some? ==> r.value == HttpError(status) && IsRequestException(r.value)
  {
    if 400 <= status < 600 then Some(HttpError(status)) else None
  }
}
