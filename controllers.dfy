/**
 * The REST side of tradier_api/tradier_controllers.py: the choice of base
 * URL, the rate-limit throttle, the classification of error responses,
 * where `make_request` puts its query, and which exceptions it passes on
 * unchanged.
 *
 * The network call, the clock and `str(e)` are inputs: a request is
 * answered by a Reply or fails with an exception, and the time is read as
 * whole seconds.
 */
module Controllers {

  import opened Values
  import opened Failures
  import Paths

  // ------------------------------------------------------------ base URL

  /** `c.lower()` for ASCII letters. */
  function LowerChar(c: char): (r: char)
    ensures 'A' <= c <= 'Z' ==> 'a' <= r <= 'z' && r as int - c as int == 32
    ensures !('A' <= c <= 'Z') ==> r == c
  {
    if 'A' <= c <= 'Z' then (c as int + 32) as char else c
  }

  /** `s.lower()`: each character lowered in place. */
  function Lower(s: string): (r: string)
    ensures |r| == |s|
    ensures forall i :: 0 <= i < |s| ==> r[i] == LowerChar(s[i])
  {
    seq(|s|, i requires 0 <= i < |s| => LowerChar(s[i]))
  }

  lemma LowerIsIdempotent(s: string)
    ensures Lower(Lower(s)) == Lower(s)
  {
    var once := Lower(s);
    forall i | 0 <= i < |s|
      ensures Lower(once)[i] == once[i]
    {
      assert once[i] == LowerChar(s[i]);
    }
  }

  /**
   * `_get_base_url`: the environment is lowered first; "live" selects the
   * API, "sandbox" and "paper" the sandbox, and anything else is refused
   * with a ValueError naming the lowered string.
   */
  function GetBaseUrl(environment: string): (r: Result<Paths.BaseUrl, Exc>)
    ensures r == Ok(Paths.Api) <==> Lower(environment) == "live"
    ensures r == Ok(Paths.Sandbox) <==> Lower(environment) == "sandbox" || Lower(environment) == "paper"
    ensures r.Err? <==> Lower(environment) !in {"live", "sandbox", "paper"}
    ensures r.Err? ==> r.error == ValueError("Invalid environment: " + Lower(environment))
  {
    var lowered := Lower(environment);
    if lowered == "live" then Ok(Paths.Api)
    else if lowered == "sandbox" || lowered == "paper" then Ok(Paths.Sandbox)
    else Err(ValueError("Invalid environment: " + lowered))
  }

  /** The choice does not depend on case: an environment and its lowered form select alike. */
  lemma GetBaseUrlIgnoresCase(environment: string)
    ensures GetBaseUrl(environment) == GetBaseUrl(Lower(environment))
  {
    LowerIsIdempotent(environment);
  }

  /** `_build_url`: the base URL's string, then the (already formatted) path. */
  function BuildUrl(base: Paths.BaseUrl, path: string): (url: string)
    ensures Paths.StartsWith(url, Paths.BaseUrlValue(base))
    ensures url[|Paths.BaseUrlValue(base)|..] == path
  {
    Paths.BaseUrlValue(base) + path
  }

  // ------------------------------------------------------------ throttle

  const ExpiryHeader := "X-Ratelimit-Expiry"
  const AvailableHeader := "X-Ratelimit-Available"
  const AllowedHeader := "X-Ratelimit-Allowed"
  const UsedHeader := "X-Ratelimit-Used"

  /** The four rate-limit headers, already parsed as integers. */
  datatype RateLimit = RateLimit(expiry: int, available: int, allowed: int, used: int)

  function HeaderOr(headers: map<string, int>, name: string, default: int): int
  {
    if name in headers then headers[name] else default
  }

  /**
   * The headers with their defaults: the expiry defaults to a minute after
   * `now`, the three counters to 0.
   */
  function ReadRateLimit(headers: map<string, int>, now: int): (l: RateLimit)
    ensures ExpiryHeader in headers ==> l.expiry == headers[ExpiryHeader]
    ensures ExpiryHeader !in headers ==> l.expiry == now + 60
    ensures AvailableHeader in headers ==> l.available == headers[AvailableHeader]
    ensures AvailableHeader !in headers ==> l.available == 0
    ensures AllowedHeader in headers ==> l.allowed == headers[AllowedHeader]
    ensures AllowedHeader !in headers ==> l.allowed == 0
    ensures UsedHeader in headers ==> l.used == headers[UsedHeader]
    ensures UsedHeader !in headers ==> l.used == 0
  {
    RateLimit(HeaderOr(headers, ExpiryHeader, now + 60), HeaderOr(headers, AvailableHeader, 0),
              HeaderOr(headers, AllowedHeader, 0), HeaderOr(headers, UsedHeader, 0))
  }

  /**
   * `ThrottleHandler.handle_throttling`: the seconds it sleeps, 0 when it
   * does not call `time.sleep`. The clock is read at `now` for the default
   * expiry and at `later` for the remaining wait.
   */
  function Throttle(headers: map<string, int>, now: int, later: int): (sleep: nat)
    ensures var l := ReadRateLimit(headers, now);
      (l.available == 0 && l.allowed == 0 && l.used == 0) || l.available >= 1 ==> sleep == 0
    ensures sleep > 0 ==> later + sleep == ReadRateLimit(headers, now).expiry
    ensures var l := ReadRateLimit(headers, now);
      !(l.available == l.allowed == l.used == 0) && l.available < 1 && l.expiry > later ==> sleep > 0
  {
    var l := ReadRateLimit(headers, now);
    if l.available == l.allowed == l.used == 0 then 0
    else if l.available < 1 then
      var sleepTime := if l.expiry - later > 0 then l.expiry - later else 0;
      if sleepTime > 0 then sleepTime else 0
    else 0
  }

  /** A response without rate-limit headers never sleeps. */
  lemma NoHeadersNoSleep(now: int, later: int)
    ensures Throttle(map[], now, later) == 0
  {
  }

  /**
   * With no requests left and no expiry header, the wait runs until a minute
   * after the first reading of the clock.
   */
  lemma MissingExpiryWaitsAMinute(headers: map<string, int>, now: int, later: int)
    requires ExpiryHeader !in headers && AvailableHeader !in headers
    requires HeaderOr(headers, AllowedHeader, 0) != 0 || HeaderOr(headers, UsedHeader, 0) != 0
    requires now <= later < now + 60
    ensures Throttle(headers, now, later) == now + 60 - later
  {
  }

  // ------------------------------------------------------ error handling

  /** `response.json().get('error', {}).get('message')`, or the exception it raises. */
  function ErrorMessage(json: Value): (r: Result<Value, Exc>)
    ensures r.Err? ==> r.error.AttributeError?
    ensures r.Err? <==> !json.Obj? || (Get(json.fields, "error").Some? && !Get(json.fields, "error").value.Obj?)
    ensures json.Obj? && Get(json.fields, "error").None? ==> r == Ok(Null)
    ensures json.Obj? && Get(json.fields, "error").Some? && Get(json.fields, "error").value.Obj? ==>
      r == Ok(GetOr(Get(json.fields, "error").value.fields, "message", Null))
  {
    if !json.Obj? then Err(AttributeError("get"))
    else match GetOr(json.fields, "error", Obj([]))
      case Obj(inner) => Ok(GetOr(inner, "message", Null))
      case _ => Err(AttributeError("get"))
  }

  /**
   * `ApiErrorHandler.handle_errors`: the exception it raises, if any. A
   * status other than 200 goes to raise_for_status first; a body that is
   * not JSON raises when it is parsed; a truthy `error.message` raises
   * TradierAPIException with that message.
   */
  function HandleErrors(status: int, body: Option<Value>): (r: Option<Exc>)
    ensures 400 <= status < 600 ==> r == Some(HttpError(status))
    ensures r.Some? && r.value.HttpError? ==> r.value.status == status && 400 <= status < 600
    ensures r.Some? && r.value.ApiError? ==>
      body.Some? && ErrorMessage(body.value) == Ok(r.value.message) && Truthy(r.value.message)
    ensures r.Some? ==> r.value.HttpError? || r.value.ApiError? || r.value.InvalidJson? || r.value.AttributeError?
    ensures r.None? ==> body.Some? && ErrorMessage(body.value).Ok? && !Truthy(ErrorMessage(body.value).value)
    ensures !(400 <= status < 600) && body.None? ==> r == Some(InvalidJson)
    ensures !(400 <= status < 600) && body.Some? && ErrorMessage(body.value).Err? ==>
      r == Some(ErrorMessage(body.value).error)
    ensures !(400 <= status < 600) && body.Some? && ErrorMessage(body.value).Ok? ==>
      (r.None? <==> !Truthy(ErrorMessage(body.value).value))
  {
    if status != 200 && RaiseForStatus(status).Some? then RaiseForStatus(status)
    else match body
      case None => Some(InvalidJson)
      case Some(json) =>
        match ErrorMessage(json)
        case Err(e) => Some(e)
        case Ok(message) => if Truthy(message) then Some(ApiError(message)) else None
  }

  /** A 200 response whose body has no `error` key passes. */
  lemma CleanBodyPasses(fields: Dict)
    requires "error" !in Keys(fields)
    ensures HandleErrors(200, Some(Obj(fields))) == None
  {
  }

  /** A 200 response carrying a non-empty `error.message` raises it. */
  lemma ErrorMessageIsRaised(fields: Dict, inner: Dict, message: Value)
    requires Get(fields, "error") == Some(Obj(inner)) && Get(inner, "message") == Some(message)
    requires Truthy(message)
    ensures HandleErrors(200, Some(Obj(fields))) == Some(ApiError(message))
  {
  }

  /**
   * A 200 response whose `error` is an empty dict, or whose `error.message`
   * is the empty string, passes: neither message is truthy.
   */
  lemma FalsyMessagePasses(fields: Dict, inner: Dict)
    requires Get(fields, "error") == Some(Obj(inner))
    requires Get(inner, "message").None? || Get(inner, "message") == Some(Str(""))
    ensures HandleErrors(200, Some(Obj(fields))) == None
  {
  }

  /**
   * A status outside 4xx and 5xx that is not 200, such as 201 or 302, is not
   * raised by raise_for_status: the body is then judged as for 200.
   */
  lemma OtherStatusesJudgedByBody(status: int, body: Option<Value>)
    requires status != 200 && !(400 <= status < 600)
    ensures HandleErrors(status, body) == HandleErrors(200, body)
  {
  }

  // -------------------------------------------------------- make_request

  /** What `requests.request` receives as `params` and `data`; None is Python's None. */
  datatype Placement = Placement(params: Option<Dict>, data: Option<Dict>)

  predicate InQuery(verb: string)
  {
    verb == "GET" || verb == "DELETE"
  }

  predicate InBody(verb: string)
  {
    verb == "POST" || verb == "PUT"
  }

  /**
   * `query_params or {}` goes as `params` for GET and DELETE, as `data` for
   * POST and PUT, and nowhere for any other method.
   */
  function Place(verb: string, query: Option<Dict>): (r: Placement)
    ensures r.params.Some? <==> InQuery(verb)
    ensures r.data.Some? <==> InBody(verb)
    ensures r.params.None? || r.data.None?
    ensures r.params.Some? ==> r.params.value == if query.Some? then query.value else []
    ensures r.data.Some? ==> r.data.value == if query.Some? then query.value else []
  {
    var final := if query.Some? && query.value != [] then query.value else [];
    Placement(if InQuery(verb) then Some(final) else None,
              if InBody(verb) then Some(final) else None)
  }

  const RequestFailurePrefix := "Error making request to "

  /**
   * The except clauses of `make_request`: HTTPError and TradierAPIException
   * propagate unchanged; anything else becomes an Exception whose message
   * names the URL, chained to the original. `detail` is `str(e)`.
   */
  function Reraise(url: string, e: Exc, detail: string): (r: Exc)
    ensures r == e <==> e.HttpError? || e.ApiError?
    ensures r != e ==> r.Wrapped? && r.cause == e && Paths.StartsWith(r.text, RequestFailurePrefix + url)
  {
    if e.HttpError? || e.ApiError? then e
    else
      var text := RequestFailurePrefix + url + ": " + detail;
      assert text[..|RequestFailurePrefix + url|] == RequestFailurePrefix + url;
      Wrapped(text, e)
  }

  /** A response: status, rate-limit headers, and the body as JSON (None: not JSON). */
  datatype Reply = Reply(status: int, headers: map<string, int>, body: Option<Value>)

  /** The request as `requests.request` receives it. */
  datatype Call = Call(verb: string, url: string, placement: Placement)

  /** What `make_request` returns: the parsed body, and how long the throttle slept. */
  datatype Answer = Answer(json: Value, slept: nat)

  /**
   * `make_request(endpoint, path_params, query_params)` with the endpoint's
   * HTTP method and its path already formatted. `reply` is what
   * `requests.request` returns or raises.
   */
  function MakeRequest(base: Paths.BaseUrl, verb: string, path: string, query: Option<Dict>,
                       reply: Result<Reply, Exc>, detail: string, now: int, later: int): (r: (Call, Result<Answer, Exc>))
    ensures r.0 == Call(verb, BuildUrl(base, path), Place(verb, query))
    ensures r.1.Ok? <==> reply.Ok? && HandleErrors(reply.value.status, reply.value.body).None?
    ensures r.1.Ok? ==> reply.value.body == Some(r.1.value.json)
    ensures r.1.Ok? ==> r.1.value.slept == Throttle(reply.value.headers, now, later)
    ensures reply.Err? ==> r.1 == Err(Reraise(BuildUrl(base, path), reply.error, detail))
    ensures reply.Ok? && HandleErrors(reply.value.status, reply.value.body).Some? ==>
      r.1 == Err(Reraise(BuildUrl(base, path), HandleErrors(reply.value.status, reply.value.body).value, detail))
    ensures r.1.Err? ==> r.1.error.HttpError? || r.1.error.ApiError? || r.1.error.Wrapped?
  {
    var url := BuildUrl(base, path);
    var call := Call(verb, url, Place(verb, query));
    match reply
    case Err(e) => (call, Err(Reraise(url, e, detail)))
    case Ok(response) =>
      match HandleErrors(response.status, response.body)
      case Some(e) => (call, Err(Reraise(url, e, detail)))
      case None => (call, Ok(Answer(response.body.value, Throttle(response.headers, now, later))))
  }

  /** A 4xx or 5xx status reaches the caller as the HTTPError itself. */
  lemma RejectedStatusPropagates(base: Paths.BaseUrl, verb: string, path: string, query: Option<Dict>,
                                 response: Reply, detail: string, now: int, later: int)
    requires 400 <= response.status < 600
    ensures MakeRequest(base, verb, path, query, Ok(response), detail, now, later).1 == Err(HttpError(response.status))
  {
  }

  /** A truthy `error.message` in a 200 reply reaches the caller as that TradierAPIException. */
  lemma ApiErrorPropagates(base: Paths.BaseUrl, verb: string, path: string, query: Option<Dict>,
                           fields: Dict, inner: Dict, message: Value, headers: map<string, int>,
                           detail: string, now: int, later: int)
    requires Get(fields, "error") == Some(Obj(inner)) && Get(inner, "message") == Some(message)
    requires Truthy(message)
    ensures MakeRequest(base, verb, path, query, Ok(Reply(200, headers, Some(Obj(fields)))), detail, now, later).1
         == Err(ApiError(message))
  {
    ErrorMessageIsRaised(fields, inner, message);
  }

  /**
   * A failure of `requests.request` itself (a connection error, say) reaches
   * the caller wrapped, chained to the original, with the URL in the message.
   */
  lemma TransportFailureIsWrapped(base: Paths.BaseUrl, verb: string, path: string, query: Option<Dict>,
                                  reason: string, detail: string, now: int, later: int)
    ensures var r := MakeRequest(base, verb, path, query, Err(RequestError(reason)), detail, now, later);
      r.1.Err? && r.1.error.Wrapped? && r.1.error.cause == RequestError(reason)
      && Paths.StartsWith(r.1.error.text, RequestFailurePrefix + BuildUrl(base, path))
  {
  }

  /** A body that is not JSON reaches the caller wrapped, with the URL in the message. */
  lemma InvalidJsonIsWrapped(base: Paths.BaseUrl, verb: string, path: string, query: Option<Dict>,
                             headers: map<string, int>, detail: string, now: int, later: int)
    ensures var r := MakeRequest(base, verb, path, query, Ok(Reply(200, headers, None)), detail, now, later);
      r.1.Err? && r.1.error.Wrapped? && r.1.error.cause == InvalidJson
      && Paths.StartsWith(r.1.error.text, RequestFailurePrefix + BuildUrl(base, path))
  {
  }

  // ------------------------------------------------- stream controller

  const NoSessionKey: Exc := ValueError("Failed to retrieve session key.")

  /** A worker thread running `streamer.run(session_key, stop_event, params)`. */
  datatype Worker = Worker(sessionKey: Value, args: Value)

  /**
   * The state of a TradierStreamController: its session key, its stop flag,
   * its worker, the endpoints it has asked `make_request` for, and the
   * workers it has joined, in order.
   */
  datatype ControllerState = ControllerState(
    sessionKey: Value, stopSet: bool, worker: Option<Worker>,
    requested: seq<Paths.ApiPath>, joined: seq<Worker>)

  /** `response.get("stream", {}).get("sessionid")`, or the exception it raises. */
  function SessionIdOf(json: Value): (r: Result<Value, Exc>)
    ensures r.Err? ==> r.error.AttributeError?
    ensures r.Err? <==> !json.Obj? || (Get(json.fields, "stream").Some? && !Get(json.fields, "stream").value.Obj?)
    ensures json.Obj? && Get(json.fields, "stream").None? ==> r == Ok(Null)
    ensures json.Obj? && Get(json.fields, "stream").Some? && Get(json.fields, "stream").value.Obj? ==>
      r == Ok(GetOr(Get(json.fields, "stream").value.fields, "sessionid", Null))
  {
    if !json.Obj? then Err(AttributeError("get"))
    else match GetOr(json.fields, "stream", Obj([]))
      case Obj(stream) => Ok(GetOr(stream, "sessionid", Null))
      case _ => Err(AttributeError("get"))
  }

  /**
   * `create_session`: always asks for a market session, stores what the
   * reply's `stream.sessionid` holds, and raises ValueError when that is
   * missing or falsy. `reply` is what `make_request` returns or raises.
   */
  function CreateSessionStep(s: ControllerState, reply: Result<Value, Exc>): (r: (ControllerState, Option<Exc>))
    ensures r.0.requested == s.requested + [Paths.Streaming(Paths.CreateMarketSession)]
    ensures r.0.stopSet == s.stopSet && r.0.worker == s.worker && r.0.joined == s.joined
    ensures r.1.None? <==> Truthy(r.0.sessionKey) && reply.Ok? && SessionIdOf(reply.value) == Ok(r.0.sessionKey)
    ensures r.1.Some? && reply.Ok? && SessionIdOf(reply.value).Ok? ==>
      r.1 == Some(NoSessionKey) && !Truthy(r.0.sessionKey)
    ensures r.0.sessionKey != s.sessionKey ==> reply.Ok? && SessionIdOf(reply.value) == Ok(r.0.sessionKey)
    ensures reply.Err? ==> r.1 == Some(reply.error) && r.0.sessionKey == s.sessionKey
    ensures reply.Ok? && SessionIdOf(reply.value).Err? ==>
      r.1 == Some(SessionIdOf(reply.value).error) && r.0.sessionKey == s.sessionKey
    ensures reply.Ok? && SessionIdOf(reply.value).Ok? ==>
      r.0.sessionKey == SessionIdOf(reply.value).value && (r.1.None? <==> Truthy(r.0.sessionKey))
  {
    var asked := s.(requested := s.requested + [Paths.Streaming(Paths.CreateMarketSession)]);
    match reply
    case Err(e) => (asked, Some(e))
    case Ok(json) =>
      match SessionIdOf(json)
      case Err(e) => (asked, Some(e))
      case Ok(key) => (asked.(sessionKey := key), if Truthy(key) then None else Some(NoSessionKey))
  }

  /**
   * `start(symbols)`: a session is created only when the key is falsy; the
   * stop flag is cleared and a new worker replaces whatever was there.
   */
  function StartStep(s: ControllerState, args: Value, reply: Result<Value, Exc>): (r: (ControllerState, Option<Exc>))
    ensures Truthy(s.sessionKey) ==> r.0.requested == s.requested && r.1.None? && r.0.sessionKey == s.sessionKey
    ensures !Truthy(s.sessionKey) ==>
      r.0.requested == CreateSessionStep(s, reply).0.requested && r.1 == CreateSessionStep(s, reply).1
      && r.0.sessionKey == CreateSessionStep(s, reply).0.sessionKey
    ensures r.1.None? ==> !r.0.stopSet && r.0.worker == Some(Worker(r.0.sessionKey, args)) && Truthy(r.0.sessionKey)
    ensures r.1.Some? ==> r.0.worker == s.worker && r.0.stopSet == s.stopSet
    ensures r.0.joined == s.joined
  {
    if Truthy(s.sessionKey) then
      (s.(stopSet := false, worker := Some(Worker(s.sessionKey, args))), None)
    else
      var (created, error) := CreateSessionStep(s, reply);
      if error.Some? then (created, error)
      else (created.(stopSet := false, worker := Some(Worker(created.sessionKey, args))), None)
  }

  /** `close()`: with a worker, set the flag, join it and forget it; without one, nothing. */
  function CloseStep(s: ControllerState): (r: ControllerState)
    ensures s.worker.None? ==> r == s
    ensures s.worker.Some? ==> r.worker.None? && r.stopSet && r.joined == s.joined + [s.worker.value]
    ensures r.sessionKey == s.sessionKey && r.requested == s.requested
  {
    if s.worker.Some? then s.(stopSet := true, worker := None, joined := s.joined + [s.worker.value])
    else s
  }

  /** A second close changes nothing, and a close without worker leaves the flag alone. */
  lemma CloseIsIdempotent(s: ControllerState)
    ensures CloseStep(CloseStep(s)) == CloseStep(s)
    ensures s.worker.None? ==> CloseStep(s).stopSet == s.stopSet
  {
  }

  /**
   * After a start that succeeded, close stops and joins exactly the worker
   * started, which ran with a truthy key.
   */
  lemma StartThenClose(s: ControllerState, args: Value, reply: Result<Value, Exc>)
    requires StartStep(s, args, reply).1.None?
    ensures var c := CloseStep(StartStep(s, args, reply).0);
      c.stopSet && c.worker.None? && |c.joined| == |s.joined| + 1
      && c.joined[|s.joined|].args == args && Truthy(c.joined[|s.joined|].sessionKey)
  {
  }

  /** A reply `{"stream": {"sessionid": key}}` with a non-empty key stores it and succeeds. */
  lemma SessionKeyIsStored(s: ControllerState, key: string)
    requires key != ""
    ensures var r := CreateSessionStep(s, Ok(Obj([("stream", Obj([("sessionid", Str(key))]))])));
      r.0.sessionKey == Str(key) && r.1.None?
  {
  }

  /** A failed create_session leaves no usable key: it is unchanged, or falsy. */
  lemma FailedSessionLeavesNoKey(s: ControllerState, reply: Result<Value, Exc>)
    requires !Truthy(s.sessionKey)
    requires CreateSessionStep(s, reply).1.Some?
    ensures !Truthy(CreateSessionStep(s, reply).0.sessionKey)
  {
  }

  /**
   * The controller itself: `session_key`, `_stop_event` and `_thread` as
   * fields, with a record of requests made and workers joined.
   */
  class StreamController {
    var sessionKey: Value
    var stopSet: bool
    var worker: Option<Worker>
    var requested: seq<Paths.ApiPath>
    var joined: seq<Worker>

    function State(): ControllerState
      reads this
    {
      ControllerState(sessionKey, stopSet, worker, requested, joined)
    }

    constructor ()
      ensures State() == ControllerState(Null, false, None, [], [])
    {
      sessionKey := Null;
      stopSet := false;
      worker := None;
      requested := [];
      joined := [];
    }

    method CreateSession(reply: Result<Value, Exc>) returns (error: Option<Exc>)
      modifies this
      ensures (State(), error) == CreateSessionStep(old(State()), reply)
    {
      requested := requested + [Paths.Streaming(Paths.CreateMarketSession)];
      if reply.Err? {
        return Some(reply.error);
      }
      var key := SessionIdOf(reply.value);
      if key.Err? {
        return Some(key.error);
      }
      sessionKey := key.value;
      error := if Truthy(sessionKey) then None else Some(NoSessionKey);
    }

    method Start(args: Value, reply: Result<Value, Exc>) returns (error: Option<Exc>)
      modifies this
      ensures (State(), error) == StartStep(old(State()), args, reply)
    {
      if !Truthy(sessionKey) {
        error := CreateSession(reply);
        if error.Some? {
          return;
        }
      }
      error := None;
      stopSet := false;
      worker := Some(Worker(sessionKey, args));
    }

    method Close()
      modifies this
      ensures State() == CloseStep(old(State()))
    {
      if worker.Some? {
        stopSet := true;
        joined := joined + [worker.value];
        worker := None;
      }
    }
  }
}
