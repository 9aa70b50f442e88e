/**
 * `TradierHttpStreamer.run` of tradier_api/tradier_streams.py: check the
 * parameter class, fire on_open, POST the session query to the quote
 * stream, then hand each line to on_message until the stream ends, breaks
 * or the stop flag is seen.
 *
 * The script of a run says what `requests.post` and `raise_for_status` do
 * (`setup`: nothing, or the exception they raise) and what each line of
 * `iter_lines()` turns out to be, with the stop flag read after it.
 */
module HttpStreaming {

  import opened Values
  import opened Failures
  import opened Params
  import opened StreamBase
  import Paths

  const WrongParams: Exc := ValueError("Invalid parameters for TradierHttpStreamer. Expected SymbolsParams.")

  /** The POST goes to `BaseURL.STREAM.value + Endpoints.GET_STREAMING_QUOTES.path`. */
  function QuoteStream(sessionKey: Value, p: Params): Request
  {
    Request(Paths.Stream, Paths.Streaming(Paths.GetStreamingQuotes), SessionQuery(p, sessionKey))
  }

  /** The events and the outcome of one run, as a function of its script. */
  function HttpRun(c: Callbacks, p: Params, setup: Option<Exc>, steps: seq<Step>): Run
  {
    if p.kind != SymbolsParams then Run([], Raised(WrongParams))
    else Run([Open] + PostAndRead(c, setup, steps).events, PostAndRead(c, setup, steps).outcome)
  }

  /** `TradierHttpStreamer.run(session_key, stop_event, params)` */
  method HttpStream(s: Streamer, sessionKey: Value, p: Params, setup: Option<Exc>, steps: seq<Step>)
    returns (outcome: Outcome, posted: Option<Request>)
    modifies s
    ensures s.trace == old(s.trace) + HttpRun(s.callbacks, p, setup, steps).events
    ensures outcome == HttpRun(s.callbacks, p, setup, steps).outcome
    ensures posted == if p.kind == SymbolsParams then Some(QuoteStream(sessionKey, p))
                      else None
  {
    if p.kind != SymbolsParams {
      return Raised(WrongParams), None;
    }
    s.Emit(Open);
    posted := Some(QuoteStream(sessionKey, p));
    outcome := PostAndReadLines(s, setup, steps);
    Append3(old(s.trace), [Open], PostAndRead(s.callbacks, setup, steps).events);
  }

  /** A parameter object of the wrong class raises ValueError before any event, not even Close. */
  lemma WrongParamsRaiseBeforeAnyEvent(c: Callbacks, p: Params, setup: Option<Exc>, steps: seq<Step>)
    requires p.kind != SymbolsParams
    ensures HttpRun(c, p, setup, steps).events == []
    ensures HttpRun(c, p, setup, steps).outcome.Raised?
    ensures HttpRun(c, p, setup, steps).outcome.error.ValueError?
  {
  }

  /** With SymbolsParams every run opens first, closes last, and does each once. */
  lemma HttpRunIsFramed(c: Callbacks, p: Params, setup: Option<Exc>, steps: seq<Step>)
    requires p.kind == SymbolsParams
    ensures Framed(HttpRun(c, p, setup, steps).events)
  {
    HttpRunsAreFramed(c, setup, steps);
  }

  /**
   * With SymbolsParams, `_handle_event` first serves on_open (or logs "Stream
   * opened.") and last serves on_close (or logs "Stream closed.").
   */
  lemma HttpRunDispatches(c: Callbacks, p: Params, setup: Option<Exc>, steps: seq<Step>)
    requires p.kind == SymbolsParams
    ensures var d := Dispatches(c, HttpRun(c, p, setup, steps).events);
      && |d| >= 2
      && d[0] == (if c.onOpen then Called(Open) else Logged("Stream opened.", Open))
      && d[|d| - 1] == (if c.onClose then Called(Close) else Logged("Stream closed.", Close))
  {
    HttpRunIsFramed(c, p, setup, steps);
    FramedDispatches(c, HttpRun(c, p, setup, steps).events);
  }

  /**
   * on_open fires before the POST: a failing POST or a non-2xx status that
   * the streamer catches gives exactly Open, Error, Close; any other failure
   * gives Open, Close and propagates.
   */
  lemma SetupFailure(c: Callbacks, p: Params, e: Exc, steps: seq<Step>)
    requires p.kind == SymbolsParams
    ensures IsStreamSetupError(e) ==>
      HttpRun(c, p, Some(e), steps) == Run([Open, Error(e), Close], Returned)
    ensures !IsStreamSetupError(e) ==>
      HttpRun(c, p, Some(e), steps) == Run([Open, Close], Raised(e))
  {
  }

  /** A status that raise_for_status rejects ends the run with Open, Error(HTTPError), Close. */
  lemma RejectedStatus(c: Callbacks, p: Params, status: int, steps: seq<Step>)
    requires p.kind == SymbolsParams && RaiseForStatus(status).Some?
    ensures HttpRun(c, p, RaiseForStatus(status), steps).events == [Open, Error(HttpError(status)), Close]
  {
  }

  /**
   * Once a line finds the stop flag set, no line from it on produces an
   * event: the run emits Open, the events of the lines before it, and Close.
   */
  lemma StopFlagEndsRun(c: Callbacks, p: Params, steps: seq<Step>, j: nat)
    requires p.kind == SymbolsParams
    requires j < |steps| && !steps[j].line.Broken? && steps[j].stopSet
    requires Consume(c, steps[..j]).end == Exhausted
    ensures HttpRun(c, p, None, steps) == Run([Open] + Consume(c, steps[..j]).events + [Close], Returned)
  {
    StopFlagEndsReading(c, steps, j);
  }
}
