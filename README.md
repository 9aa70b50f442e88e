# tradier_api: streamers, controllers, parameters and paths in Dafny

This project models the decision and event-sequencing logic of the
`tradier_api` Python client for the Tradier brokerage API, and proves
properties of that model. It covers both copies of the package, the newer
one under `tradier_api/` and the older one under `src/tradier_api/`.

- **Streamers.** These are `tradier_api/tradier_streams.py` and the older
  `src/tradier_api/tradier_streams.py`.
  - A streamer is a `StreamBase.Streamer` object. It holds its callbacks and
    the trace of the events it has fired (`Open`, `Message(text)`,
    `Error(e)`, `Close`).
  - Each `run` is a method. It consumes a script of what the network does and
    appends to that trace. The script says what the POST or `connect`/`send`/
    `close` raise, what each line or frame turns out to be, and whether the
    stop flag is set at each check.
  - Each method is proved against a function of its script (`HttpRun`,
    `WsRun`, `MarketsRun`, `AccountRun`, `LegacyRun`). The lemmas state the
    sequencing rules about those functions: when `Open` fires, which failures
    are per line and which end the loop, where the stop flag is read, and that
    `Close` comes last and once.
- **Stream controller.** `TradierStreamController` is a class whose fields
  are the session key, the stop flag, the worker and a record of requests
  and joined workers. Its methods follow pure step functions
  (`CreateSessionStep`, `StartStep`, `CloseStep`).
- **REST helpers.** These are the pure parts of both controllers:
  - environment to base URL, and URL building;
  - the throttle rule, with the clock passed in;
  - the error classification of a response;
  - placement of the parameters by HTTP method;
  - the re-raise or wrap policy of `make_request`.
- **Parameter objects.** `to_query_params` and the three parameter classes.
  Both copies of `tradier_params.py` are identical.
- **Path table.** `BaseURL` and `ApiPaths` of `src/tradier_api/tradier_types.py`:
  - the templates, built the way the class body concatenates them;
  - their `{placeholder}` names, as `re.findall(r"{(.*?)}", ...)` finds them;
  - Python Enum aliasing, where lookup by value returns the first-declared
    member with that string.

The model follows the code as written:

- The HTTP streamers fire `on_open` before the POST is made.
- In the WebSocket loop, `StopAsyncIteration` from `recv` is an ordinary
  exception. It reaches `on_error` and ends the loop.
- `close()` without a worker leaves the stop flag as it was.
- `create_session` always requests `CREATE_MARKET_SESSION`, even though each
  streamer names its own session endpoint (`StreamBase.SessionEndpoint`).
- A wrong parameter class, or a WebSocket streamer without an endpoint,
  raises before the `try`, so no callback fires, not even `on_close`.

Modules: `Values` (Python values and insertion-ordered dicts), `Failures`
(the exceptions), `Params`, `Paths`, `StreamBase` (events, the streamer
object, the HTTP line loop), `HttpStreaming`, `WebSocketStreaming`,
`LegacyStreaming`, `Controllers`, `LegacyControllers`.

## Model

| member | source | states |
|---|---|---|
| Values.Get | tradier_api/tradier_controllers.py:130 | `dict.get`: a value is found exactly when the key is present, and it is that key's value |
| Values.Set | tradier_api/tradier_streams.py:79-80 | `d[k] = v` keeps the key order; a new key goes last |
| Values.GetSetSame | tradier_api/tradier_streams.py:79-80 | after `d[k] = v`, `d.get(k)` is `v` |
| Values.GetSetOther | tradier_api/tradier_streams.py:79-80 | `d[k] = v` leaves every other key's value as it was |
| Values.SetKeepsKeysUnique | tradier_api/tradier_streams.py:79-80 | assignment never duplicates a key |
| Failures.RaiseForStatus | tradier_api/tradier_streams.py:83 | `raise_for_status` raises HTTPError exactly for statuses 400-599, and HTTPError is a RequestException |
| Params.WithoutNone | tradier_api/tradier_params.py:8 | no kept value is None, and nothing is added |
| Params.WithoutNoneAppend | tradier_api/tradier_params.py:8 | the filter works field by field: filtering a concatenation concatenates the filtered parts |
| Params.WithoutNoneMembers | tradier_api/tradier_params.py:8 | a pair is kept if and only if it was present with a non-None value |
| Params.QueryParamsKeepExactlyNonNone | tradier_api/tradier_params.py:4-8 | `to_query_params` holds exactly the attributes whose value is not None, values unchanged |
| Params.QueryParamsKeepOrder | tradier_api/tradier_params.py:4-8 | two kept attributes keep their relative insertion order |
| Params.FalsyValuesAreKept | src/tradier_api/tradier_params.py:8 | only None is dropped: `""`, `0` and `False` survive |
| Params.MakeAccountParams | tradier_api/tradier_params.py:10-12 | AccountParams yields exactly `{account_id}` |
| Params.MakeOrderParams | tradier_api/tradier_params.py:14-17 | OrderParams yields exactly `{account_id, order_id}`, in that order |
| Params.MakeWatchlistParams | tradier_api/tradier_params.py:19-22 | WatchlistParams yields `{watchlist_id}`, plus `symbol` only when one is given; any id is accepted |
| Paths.BaseUrlSchemes | src/tradier_api/tradier_types.py:13-16 | only WEBSOCKET uses `wss://`; the other three use `https://` |
| Paths.BaseUrlsDistinct | src/tradier_api/tradier_types.py:13-16 | the four base URLs are pairwise distinct |
| Paths.ShapesWellFormed | src/tradier_api/tradier_types.py:23-97 | every template is well formed, and its holes are the names listed for it |
| Paths.PlaceholdersOfTemplate | src/tests/endpoints_url_structure_tests.py:64 | `re.findall(r"{(.*?)}", path)` finds each member's placeholders, in order |
| Paths.IndexOf | src/tests/endpoints_url_structure_tests.py:64 | the first occurrence of a character, or -1 when absent |
| Paths.PlaceholdersOfRender | src/tests/endpoints_url_structure_tests.py:64 | the scan over a rendered template yields its holes, then whatever follows |
| Paths.SkipPlain | src/tests/endpoints_url_structure_tests.py:64 | text without `{` contributes no placeholder |
| Paths.CompositeBases | src/tradier_api/tradier_types.py:24-30 | ORDERS_BASE is ACCOUNTS_BASE + "/orders"; OPTIONS_BASE is MARKETS_BASE + "/options" |
| Paths.ExtendedPathsKeepBase | src/tradier_api/tradier_types.py:23-97 | a member built on another starts with its string and with its placeholders |
| Paths.AccountScopedPaths | src/tradier_api/tradier_types.py:39-56 | the account paths other than the profile, the trade paths, the account session and the account events are built on ACCOUNTS_BASE |
| Paths.AccountScopedPathsNameTheAccount | src/tradier_api/tradier_types.py:25-26 | those paths start with ACCOUNTS_BASE, and their first placeholder is `account_id` |
| Paths.OrderPathsNameTheOrder | src/tradier_api/tradier_types.py:44-48 | GET_AN_ORDER, MODIFY_ORDER and CANCEL_ORDER have exactly `account_id`, then `order_id` |
| Paths.AuthPathsHaveNoPlaceholders | src/tradier_api/tradier_types.py:33-35 | the OAuth paths have no placeholder |
| Paths.MarketDataPathsHaveNoPlaceholders | src/tradier_api/tradier_types.py:59-70 | market data and options paths have no placeholder |
| Paths.FundamentalPathsHaveNoPlaceholders | src/tradier_api/tradier_types.py:73-79 | fundamentals paths have no placeholder |
| Paths.MarketStreamingPathsHaveNoPlaceholders | src/tradier_api/tradier_types.py:82-87 | the market session, quote stream and market events paths have no placeholder |
| Paths.PlainPathsHaveNoPlaceholders | src/tradier_api/tradier_types.py:24-38 | the non-account bases, the profile and the watchlists collection have no placeholder |
| Paths.WatchlistSymbolPathsLackSymbol | src/tradier_api/tradier_types.py:92-97 | ADD/DELETE_WATCHLIST_SYMBOL equal GET_WATCHLIST and carry only `watchlist_id` |
| Paths.CanonicalIsEarlierWithSameString | src/tradier_api/tradier_types.py:23-97 | each member's alias target has the same string, is declared no later, and is its own target |
| Paths.EqualStringsShareCanonical | src/tradier_api/tradier_types.py:23-97 | two members with equal strings alias the same first member |
| Paths.EarlierDiffers | src/tradier_api/tradier_types.py:23-97 | no member declared before the alias target has the same string |
| Paths.IdentifyRecoversCanonical | src/tradier_api/tradier_types.py:23-97 | a first-declared member is recovered from its string alone |
| Paths.ScanReachesCanonical | src/tradier_api/tradier_types.py:23-97 | a scan in declaration order that has not passed a string's first member finds that member |
| Paths.LookupFindsFirstDeclared | src/tradier_api/tradier_types.py:23-97 | lookup by value returns the first-declared member with that string, for every member |
| Paths.OrdersBaseAliases | src/tradier_api/tradier_types.py:43-56 | GET_ORDERS and every PLACE_* member are aliases of ORDERS_BASE |
| Paths.SingleOrderAliases | src/tradier_api/tradier_types.py:44-48 | MODIFY_ORDER and CANCEL_ORDER are aliases of GET_AN_ORDER |
| Paths.StreamingEventsAlias | src/tradier_api/tradier_types.py:84-87 | GET_STREAMING_MARKET_EVENTS is an alias of GET_STREAMING_QUOTES |
| Paths.WatchlistsBaseAliases | src/tradier_api/tradier_types.py:91-93 | GET_WATCHLISTS and CREATE_WATCHLIST are aliases of WATCHLISTS_BASE |
| Paths.WatchlistAliases | src/tradier_api/tradier_types.py:92-97 | the single-watchlist operations are aliases of GET_WATCHLIST |
| StreamBase.HandleEvent | tradier_api/tradier_streams.py:27-48 | an event goes to its callback exactly when one is set; otherwise it is logged with that event's own default message |
| StreamBase.Dispatches | tradier_api/tradier_streams.py:27-48 | one dispatch per fired event, in order, each to the callback exactly when that callback is set |
| StreamBase.FramedDispatches | tradier_api/tradier_streams.py:34-48 | in a framed trace the first dispatch serves on_open or logs "Stream opened.", the last serves on_close or logs "Stream closed." |
| StreamBase.Streamer.constructor | tradier_api/tradier_streams.py:18-25 | a new streamer holds its callbacks and has fired nothing |
| StreamBase.Streamer.Emit | tradier_api/tradier_streams.py:27-32 | firing an event appends exactly it to the trace |
| StreamBase.MessageFailure | tradier_api/tradier_streams.py:89-92 | a set `on_message` raises exactly what the script says; without one the message is only logged and nothing is raised |
| StreamBase.LineEvents | tradier_api/tradier_streams.py:88-92 | an empty line gives nothing; a decoded line gives one Message exactly when on_message does not raise, else one Error; an undecodable line gives one Error |
| StreamBase.Consume | tradier_api/tradier_streams.py:85-92 | the line loop emits only Message and Error, at most one per line |
| StreamBase.ConsumeAppend | tradier_api/tradier_streams.py:85-92 | lines are consumed in order: a run over `a + b` is the run over `a` followed by the run over `b` |
| StreamBase.OneMoreLine | tradier_api/tradier_streams.py:85-92 | a line read with the flag clear adds its own events and the loop goes on, also after an Error |
| StreamBase.LinesInArrivalOrder | tradier_api/tradier_streams.py:85-92 | a line's events come after those of earlier lines and before those of later ones |
| StreamBase.StopIsFinal | tradier_api/tradier_streams.py:85-87 | once the flag is seen set, no later line produces an event |
| StreamBase.LoopEndsAt | tradier_api/tradier_streams.py:85-95 | the loop ends at the first broken stream or set flag, with the events of the lines before it |
| StreamBase.ReadLines | tradier_api/tradier_streams.py:85-92 | the `iter_lines()` loop appends exactly the events Consume gives and reports how it ended |
| StreamBase.Conclusion | tradier_api/tradier_streams.py:94-98 | a RequestException or TradierAPIException gives one Error, then Close; any other exception gives Close and propagates |
| StreamBase.Conclude | tradier_api/tradier_streams.py:94-98 | the except and finally clauses append Conclusion's events |
| StreamBase.OpenFirstCloseLast | tradier_api/tradier_streams.py:74-98 | Open, then loop events, then Conclusion is framed: Open first and once, Close last and once |
| StreamBase.PostAndReadLines | tradier_api/tradier_streams.py:82-98 | the POST, the line loop and the except/finally clauses append PostAndRead's events |
| StreamBase.HttpRunsAreFramed | tradier_api/tradier_streams.py:74-98 | every HTTP run after on_open is framed by Open and Close |
| StreamBase.StopFlagEndsReading | tradier_api/tradier_streams.py:85-87 | after the flag is seen, reading ends with the earlier lines' events and Close |
| StreamBase.SessionEndpoint | tradier_api/tradier_streams.py:66-67 | the account streamer names CREATE_ACCOUNT_SESSION; the HTTP and markets streamers name CREATE_MARKET_SESSION |
| StreamBase.SessionQueryContents | tradier_api/tradier_streams.py:78-80 | the query carries `sessionid` = the key and `linebreak` = True, and every other key exactly as `to_query_params` gave it |
| HttpStreaming.HttpStream | tradier_api/tradier_streams.py:69-98 | the run appends HttpRun's events, returns or raises as HttpRun says, and POSTs the session query to the quote stream |
| HttpStreaming.WrongParamsRaiseBeforeAnyEvent | tradier_api/tradier_streams.py:71-72 | a parameter object other than SymbolsParams raises ValueError with no event at all |
| HttpStreaming.HttpRunIsFramed | tradier_api/tradier_streams.py:74-98 | with SymbolsParams, Open is first and once and Close is last and once |
| HttpStreaming.HttpRunDispatches | tradier_api/tradier_streams.py:74-98 | with SymbolsParams, `_handle_event` serves on_open (or its log line) first and on_close (or its log line) last |
| HttpStreaming.SetupFailure | tradier_api/tradier_streams.py:74-83 | a failing POST gives exactly Open, Error, Close when caught; otherwise Open, Close, and it propagates |
| HttpStreaming.RejectedStatus | tradier_api/tradier_streams.py:82-83 | a status that `raise_for_status` rejects gives exactly Open, Error(HTTPError), Close |
| HttpStreaming.StopFlagEndsRun | tradier_api/tradier_streams.py:85-87 | once a line finds the flag set, the run is Open, the earlier lines' events, Close |
| WebSocketStreaming.Receive | tradier_api/tradier_streams.py:131-133 | the inner `try` sees the receive failure, or else what on_message raised |
| WebSocketStreaming.Listen | tradier_api/tradier_streams.py:130-138 | the loop never breaks off on a TimeoutError and emits at most one event per pass |
| WebSocketStreaming.Finish | tradier_api/tradier_streams.py:142-146 | the outer except and finally append an optional Error, then Close |
| WebSocketStreaming.ListenLoop | tradier_api/tradier_streams.py:130-138 | the `while` loop appends exactly Listen's events and reports how it ended |
| WebSocketStreaming.Converse | tradier_api/tradier_streams.py:130-146 | after on_open, the loop and the closing append Connected's events |
| WebSocketStreaming.WsStream | tradier_api/tradier_streams.py:111-146 | `_run_stream` appends WsRun's events, and sends the subscription only once connected |
| WebSocketStreaming.MarketsStream | tradier_api/tradier_streams.py:159-174 | SymbolsParams only, on GET_STREAMING_MARKET_EVENTS; otherwise ValueError with no event |
| WebSocketStreaming.AccountStream | tradier_api/tradier_streams.py:176-191 | ExcludedAccountParams only, on GET_STREAMING_ACCOUNT_EVENTS; otherwise ValueError with no event |
| WebSocketStreaming.ListenAppend | tradier_api/tradier_streams.py:130-138 | passes are taken in order; once the loop has ended, later passes change nothing |
| WebSocketStreaming.TimeoutsAreSilent | tradier_api/tradier_streams.py:134-135 | a receive that times out emits nothing, and the loop goes on as if it had not happened |
| WebSocketStreaming.EndOfStreamReachesOnError | tradier_api/tradier_streams.py:136-138 | StopAsyncIteration from `recv` emits exactly one Error and ends the loop |
| WebSocketStreaming.ListenShape | tradier_api/tradier_streams.py:130-138 | the loop emits Messages and at most one Error, which is last and only when the loop broke off with it |
| WebSocketStreaming.OpenOnlyAfterHandshake | tradier_api/tradier_streams.py:125-128 | Open fires if and only if connect and send both succeed, and then it is first and once |
| WebSocketStreaming.LoopHasNoOpenOrClose | tradier_api/tradier_streams.py:130-138 | the loop emits neither Open nor Close |
| WebSocketStreaming.ConnectedClosesOnce | tradier_api/tradier_streams.py:140-146 | after on_open, Close is last and once when the run returns, and absent while the loop still waits |
| WebSocketStreaming.CloseOnceAtTheEnd | tradier_api/tradier_streams.py:120-146 | a run past the endpoint check ends with exactly one Close, last; a run that raises had no endpoint and emitted nothing |
| LegacyStreaming.Join | src/tradier_api/tradier_streams.py:63 | `",".join(symbols)`: empty for no symbols; otherwise it starts with the first symbol and ends with the last |
| LegacyStreaming.SplitJoin | src/tradier_api/tradier_streams.py:63 | the comma join loses nothing: splitting it (the reference inverse Split) gives the symbols back when there is one at least and none holds a comma |
| LegacyStreaming.LegacyQuery | src/tradier_api/tradier_streams.py:63 | the query is exactly `symbols` (joined), `sessionid`, `linebreak` = True |
| LegacyStreaming.LegacyStream | src/tradier_api/tradier_streams.py:56-83 | the older run appends LegacyRun's events and POSTs the legacy query |
| LegacyStreaming.LegacyRunIsFramed | src/tradier_api/tradier_streams.py:58-83 | every run, whatever the symbols, opens first and closes last, each once |
| LegacyStreaming.SameRunAsNewerStreamer | src/tradier_api/tradier_streams.py:56-83 | on the same script the older streamer emits and ends as the newer one does with SymbolsParams |
| LegacyStreaming.LegacyStopFlagEndsRun | src/tradier_api/tradier_streams.py:70-72 | once a line finds the flag set, the run is Open, the earlier lines' events, Close |
| Controllers.LowerChar | tradier_api/tradier_controllers.py:24 | ASCII capitals map to their lower-case letter; other characters are unchanged |
| Controllers.Lower | tradier_api/tradier_controllers.py:24 | lowering maps every character, keeping the length |
| Controllers.LowerIsIdempotent | tradier_api/tradier_controllers.py:24 | lowering twice is lowering once |
| Controllers.GetBaseUrl | tradier_api/tradier_controllers.py:23-30 | lowered "live" gives API; "sandbox" or "paper" give SANDBOX; anything else is ValueError naming the lowered name |
| Controllers.GetBaseUrlIgnoresCase | tradier_api/tradier_controllers.py:23-30 | the choice depends only on the lowered name |
| Controllers.BuildUrl | tradier_api/tradier_controllers.py:32-36 | the URL is the base URL followed by the path |
| Controllers.ReadRateLimit | tradier_api/tradier_controllers.py:43-46 | each present header is read as given; a missing expiry defaults to now + 60, a missing counter to 0 |
| Controllers.Throttle | tradier_api/tradier_controllers.py:42-64 | no sleep when all three counters are 0 or available >= 1; otherwise sleeps until expiry exactly when that is later |
| Controllers.NoHeadersNoSleep | tradier_api/tradier_controllers.py:52-53 | a response without rate-limit headers is never throttled |
| Controllers.MissingExpiryWaitsAMinute | tradier_api/tradier_controllers.py:43-62 | with no expiry and nothing available, the wait runs to 60 seconds after `now` |
| Controllers.ErrorMessage | tradier_api/tradier_controllers.py:74 | `.get('error', {}).get('message')` fails with AttributeError exactly when the body or its `error` is not a dict; otherwise it is `error.message`, or None when either is missing |
| Controllers.HandleErrors | tradier_api/tradier_controllers.py:68-79 | statuses 400-599 raise HTTPError; otherwise an unparsable body raises its JSON error, a non-dict body or `error` raises AttributeError, and a parsed body passes exactly when `error.message` is falsy (else TradierAPIException with it) |
| Controllers.CleanBodyPasses | tradier_api/tradier_controllers.py:74-79 | status 200 with no `error` key passes |
| Controllers.FalsyMessagePasses | tradier_api/tradier_controllers.py:74-79 | status 200 with `error` an empty dict, or `error.message` empty, passes |
| Controllers.ErrorMessageIsRaised | tradier_api/tradier_controllers.py:74-76 | status 200 with a truthy `error.message` raises TradierAPIException carrying it |
| Controllers.OtherStatusesJudgedByBody | tradier_api/tradier_controllers.py:70-71 | a non-200 status that `raise_for_status` lets through is judged by the body, as 200 is |
| Controllers.Place | tradier_api/tradier_controllers.py:92-100 | `query or {}` goes as `params` exactly for GET/DELETE and as `data` exactly for POST/PUT, never both |
| Controllers.Reraise | tradier_api/tradier_controllers.py:110-117 | HTTPError and TradierAPIException pass unchanged; anything else is wrapped with "Error making request to <url>" and keeps it as cause |
| Controllers.MakeRequest | tradier_api/tradier_controllers.py:84-117 | the call made; success exactly when the reply arrived and `handle_errors` passed, with the JSON and the throttle's sleep; a transport failure or a `handle_errors` exception comes out through Reraise |
| Controllers.RejectedStatusPropagates | tradier_api/tradier_controllers.py:104-111 | a 4xx/5xx reply comes out as the same HTTPError |
| Controllers.ApiErrorPropagates | tradier_api/tradier_controllers.py:104-114 | a 200 reply with a truthy `error.message` comes out as that TradierAPIException |
| Controllers.TransportFailureIsWrapped | tradier_api/tradier_controllers.py:94-117 | a failure of `requests.request` itself is wrapped, chained to it, with the URL in the message |
| Controllers.InvalidJsonIsWrapped | tradier_api/tradier_controllers.py:116-117 | an unparsable body is wrapped with the URL in the message |
| Controllers.SessionIdOf | tradier_api/tradier_controllers.py:130 | `.get("stream", {}).get("sessionid")` fails with AttributeError exactly when the reply or its `stream` is not a dict; otherwise it is `stream.sessionid`, or None when either is missing |
| Controllers.CreateSessionStep | tradier_api/tradier_controllers.py:127-133 | always requests CREATE_MARKET_SESSION; a make_request or AttributeError failure propagates unchanged and keeps the key; otherwise the session id read is stored, and the step succeeds exactly when it is truthy, else ValueError |
| Controllers.StartStep | tradier_api/tradier_controllers.py:135-143 | a truthy key is kept and nothing is requested; a falsy key runs create_session, whose request, key and error start takes over; on success the flag is clear and the new worker runs with the key |
| Controllers.CloseStep | tradier_api/tradier_controllers.py:145-151 | with a worker: the flag is set, the worker joined and dropped; without one nothing changes, not even the flag |
| Controllers.CloseIsIdempotent | tradier_api/tradier_controllers.py:145-151 | a second close changes nothing |
| Controllers.StartThenClose | tradier_api/tradier_controllers.py:135-151 | close after a successful start stops and joins exactly the worker start made |
| Controllers.SessionKeyIsStored | tradier_api/tradier_controllers.py:127-133 | a reply `{"stream": {"sessionid": key}}` with a non-empty key stores that key and succeeds |
| Controllers.FailedSessionLeavesNoKey | tradier_api/tradier_controllers.py:127-133 | a failed session creation leaves the key falsy |
| Controllers.StreamController.constructor | tradier_api/tradier_controllers.py:120-125 | no session key, flag clear, no worker |
| Controllers.StreamController.CreateSession | tradier_api/tradier_controllers.py:127-133 | the fields move as CreateSessionStep says |
| Controllers.StreamController.Start | tradier_api/tradier_controllers.py:135-143 | the fields move as StartStep says |
| Controllers.StreamController.Close | tradier_api/tradier_controllers.py:145-151 | the fields move as CloseStep says |
| LegacyControllers.LegacyGetBaseUrl | src/tradier_api/tradier_controllers.py:19-25 | case-sensitive: exactly "live" gives API, "sandbox" or "paper" SANDBOX, and every other name is a ValueError naming it |
| LegacyControllers.CaseSensitivity | src/tradier_api/tradier_controllers.py:19-25 | on lower-case names, and on every name the older one accepts, both controllers agree |
| LegacyControllers.CapitalisedLive | src/tradier_api/tradier_controllers.py:19-25 | "Live" is refused by the older controller and accepted by the newer |
| LegacyControllers.LegacyUrlKeepsPlaceholders | src/tradier_api/tradier_controllers.py:27-31 | the URL keeps the template's placeholders unformatted, in order |
| LegacyControllers.LegacyPlace | src/tradier_api/tradier_controllers.py:86-92 | `params` as given, None included, goes as `params` for GET/DELETE and as `data` for POST/PUT |
| LegacyControllers.PlacementsCompared | src/tradier_api/tradier_controllers.py:86-92 | given a dict both controllers place it alike; without one the newer sends `{}` where the older sends None |
| LegacyControllers.LegacyMakeRequest | src/tradier_api/tradier_controllers.py:79-106 | success exactly when the reply arrived and `handle_errors` passed, with the JSON and the throttle's sleep; a transport failure or a `handle_errors` exception comes out through Reraise |
| LegacyControllers.SameRequestAsNewerController | src/tradier_api/tradier_controllers.py:79-106 | given a dict and the unformatted path, the older and newer `make_request` agree |

## Left out

- Network I/O: `requests.post`, `requests.request`, `websockets.connect`/`send`/`recv`/`close`. What they return or raise is part of each run's script.
- The asyncio event loop of `TradierWebsocketStreamer.run` and the `_loop`/`_task` fields. The WebSocket endpoint is a parameter of `_run_stream`.
- `asyncio.wait_for` timing: a timeout is a scripted receive failure.
- Threads and `threading.Event`. The worker is an optional handle, `join` means its run has finished, and the stop flag is a plain boolean read at each check.
- `time.time` and `time.sleep`: the throttle takes `now` and `later` as integers and returns the sleep.
- Logging in `_handle_event`: the no-callback branch is modelled as a `Logged` dispatch only.
- Console output of `make_request`: it has no effect on the result.
- UTF-8 decoding and JSON parsing: a line is scripted as empty, valid text or undecodable, and a body as a parsed value or none.
- `json.dumps` of the WebSocket payload: the payload is the dict itself.
- JSON arrays and floating-point numbers are not represented among the values. No modelled decision depends on them: `.get` and truthiness treat them as a dict or an integer would.
- Header parsing: `int(...)` on header strings is taken as already done, so headers are integers.
- `str(e)` in the wrapped message is a parameter (`detail`).
- Callbacks other than `on_message` are assumed to return normally, and `on_open` raising is not modelled.
- `Endpoints` and `format_path` of `tradier_api/tradier_types.py` are not part of this model. The newer `make_request` receives its path already formatted, and the streamers use the `ApiPaths` of `src/tradier_api/tradier_types.py`.
- `SymbolsParams` and `ExcludedAccountParams` are not part of this model. They are parameter kinds with arbitrary attributes.
- Controllers.HandleErrors: `raise_for_status` is modelled as rejecting exactly 400-599.
- Controllers.Lower: `str.lower` is modelled on ASCII letters only.
- Params.MakeWatchlistParams: an empty `watchlist_id` is accepted, as the code does. The tests expect a ValueError that this code does not raise.
- Paths.WatchlistSymbolPathsLackSymbol: the symbol paths have no `symbol_id` placeholder. The tests expect one, but the code does not have it.
- WebSocketStreaming.WsRun: a script whose passes run out while the flag is still clear leaves the run Waiting, with no Close. The source would wait for ever there.
- LegacyUrl and LegacyMakeRequest: the older controller imports `EndPoints` and `TradierAPIException` from a `tradier_types` that, as shown, defines neither. The model assumes an endpoint's `path` is the template string of the `ApiPaths` member of the same name, and takes its HTTP method as a free parameter.
