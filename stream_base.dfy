/**
 * What the streamers of both tradier_streams.py files share: the four
 * events, `_handle_event`, the trace of events a run emits, the
 * `iter_lines()` loop of the HTTP streamers and the try/except/finally
 * around it, and the query the newer streamers send with their session key.
 *
 * Sockets, threads and callbacks are not run: a run consumes a script that
 * says what each library call and each callback does.
 */
module StreamBase {

  import opened Values
  import opened Failures
  import opened Params
  import Paths

  datatype Event = Open | Message(text: string) | Error(error: Exc) | Close

  /** Which of on_open, on_message, on_close and on_error were given. */
  datatype Callbacks = Callbacks(onOpen: bool, onMessage: bool, onClose: bool, onError: bool)

  /** What `_handle_event` does: call the callback, or log a default message. */
  datatype Dispatch = Called(event: Event) | Logged(message: string, event: Event)

  predicate HasCallback(c: Callbacks, e: Event)
  {
    match e
    case Open => c.onOpen
    case Message(_) => c.onMessage
    case Error(_) => c.onError
    case Close => c.onClose
  }

  /** The message each `_do_on_*` logs when its callback is missing. */
  function DefaultMessage(e: Event): string
  {
    match e
    case Open => "Stream opened."
    case Message(_) => "Received message:"
    case Close => "Stream closed."
    case Error(_) => "Stream error:"
  }

  /** `_do_on_open`, `_do_on_message`, `_do_on_close`, `_do_on_error` through `_handle_event`. */
  function HandleEvent(c: Callbacks, e: Event): (d: Dispatch)
    ensures d.event == e
    ensures d.Called? <==> HasCallback(c, e)
    ensures d.Logged? ==> d.message == DefaultMessage(e)
  {
    if HasCallback(c, e) then Called(e)
    else
      match e
      case Open => Logged("Stream opened.", e)
      case Message(_) => Logged("Received message:", e)
      case Close => Logged("Stream closed.", e)
      case Error(_) => Logged("Stream error:", e)
  }

  /**
   * A streamer and the events it has emitted, in order. `trace` records every
   * `_do_on_*` call that returned; whether it reached a callback or the log
   * is HandleEvent's business.
   */
  class Streamer {
    const callbacks: Callbacks
    var trace: seq<Event>

    constructor (callbacks: Callbacks)
      ensures this.callbacks == callbacks && trace == []
    {
      this.callbacks := callbacks;
      trace := [];
    }

    method Emit(e: Event)
      modifies this
      ensures trace == old(trace) + [e]
    {
      trace := trace + [e];
    }
  }

  /** How a run ended: it returned, it raised, or it is still waiting for input. */
  datatype Outcome = Returned | Raised(error: Exc) | Waiting

  /** The events of one run and how it ended. */
  datatype Run = Run(events: seq<Event>, outcome: Outcome)

  /**
   * What on_message does with a message: it raises `scripted` when there is
   * a callback; without one the message is only logged, which never raises.
   */
  function MessageFailure(c: Callbacks, scripted: Option<Exc>): (r: Option<Exc>)
    ensures c.onMessage ==> r == scripted
    ensures !c.onMessage ==> r.None?
  {
    if c.onMessage then scripted else None
  }

  // ------------------------------------------------- the iter_lines() loop

  /** One item of `response.iter_lines()`. */
  datatype Line =
    | Empty                                     // b"": skipped
    | Valid(text: string, raised: Option<Exc>)  // decodes; what on_message raises, if anything
    | Invalid                                   // is not UTF-8
    | Broken(error: Exc)                        // the iteration itself raises

  /** One pass of the `for` loop: the line obtained, then the stop flag as read. */
  datatype Step = Step(line: Line, stopSet: bool)

  datatype LoopEnd = Exhausted | Stopped | Interrupted(error: Exc)

  datatype LoopRun = LoopRun(events: seq<Event>, end: LoopEnd)

  /** The exception a loop that broke off hands to the handlers around it. */
  function Failed(end: LoopEnd): Option<Exc>
  {
    if end.Interrupted? then Some(end.error) else None
  }

  /** The events one line that was not stopped produces. */
  function LineEvents(c: Callbacks, l: Line): (r: seq<Event>)
    requires !l.Broken?
    ensures l.Empty? <==> r == []
    ensures (l.Valid? && r == [Message(l.text)]) <==> (l.Valid? && MessageFailure(c, l.raised).None?)
    ensures l.Valid? && MessageFailure(c, l.raised).Some? ==> r == [Error(MessageFailure(c, l.raised).value)]
    ensures l.Invalid? ==> r == [Error(DecodeError)]
    ensures |r| <= 1 && forall e :: e in r ==> e.Message? || e.Error?
  {
    match l
    case Empty => []
    case Valid(t, raised) =>
      (match MessageFailure(c, raised)
       case None => [Message(t)]
       case Some(e) => [Error(e)])
    case Invalid => [Error(DecodeError)]
  }

  /**
   * The `for` loop over `iter_lines()` run on the script `steps`: a line
   * that cannot be read ends the loop with its exception, a set stop flag
   * ends it before the line is handled, an empty line is skipped, and any
   * other line is decoded and handed to on_message, a failure there going
   * to on_error before the next line.
   */
  function Consume(c: Callbacks, steps: seq<Step>): (r: LoopRun)
    ensures |r.events| <= |steps|
    ensures forall e :: e in r.events ==> e.Message? || e.Error?
  {
    if steps == [] then LoopRun([], Exhausted)
    else if steps[0].line.Broken? then LoopRun([], Interrupted(steps[0].line.error))
    else if steps[0].stopSet then LoopRun([], Stopped)
    else
      var rest := Consume(c, steps[1..]);
      LoopRun(LineEvents(c, steps[0].line) + rest.events, rest.end)
  }

  /**
   * Lines are handled in arrival order and the loop goes on after a line
   * that failed: when the first part runs to its end, the events of the
   * whole are those of the first part followed by those of the second.
   */
  lemma {:induction false} ConsumeAppend(c: Callbacks, a: seq<Step>, b: seq<Step>)
    requires Consume(c, a).end == Exhausted
    ensures Consume(c, a + b) == LoopRun(Consume(c, a).events + Consume(c, b).events, Consume(c, b).end)
  {
    if a == [] {
      assert a + b == b;
    } else {
      assert !a[0].line.Broken? && !a[0].stopSet;
      assert (a + b)[0] == a[0] && (a + b)[1..] == a[1..] + b;
      ConsumeAppend(c, a[1..], b);
      var head := LineEvents(c, a[0].line);
      calc {
        Consume(c, a + b).events;
        head + Consume(c, a[1..] + b).events;
        head + (Consume(c, a[1..]).events + Consume(c, b).events);
        (head + Consume(c, a[1..]).events) + Consume(c, b).events;
        Consume(c, a).events + Consume(c, b).events;
      }
    }
  }

  /**
   * The stop flag is read after each line: once a line finds it set, no
   * later line produces an event and the loop ends having stopped, unless
   * it had already ended earlier.
   */
  lemma {:induction false} StopIsFinal(c: Callbacks, steps: seq<Step>, j: nat)
    requires j < |steps| && !steps[j].line.Broken? && steps[j].stopSet
    ensures Consume(c, steps).events == Consume(c, steps[..j]).events
    ensures Consume(c, steps).end == if Consume(c, steps[..j]).end == Exhausted then Stopped
                                     else Consume(c, steps[..j]).end
  {
    if j > 0 {
      assert steps[..j][0] == steps[0] && steps[..j][1..] == steps[1..][..j - 1];
      StopIsFinal(c, steps[1..], j - 1);
    }
  }

  /** A line that does not stop the loop adds exactly its own events. */
  lemma OneMoreLine(c: Callbacks, steps: seq<Step>, s: Step)
    requires Consume(c, steps).end == Exhausted && !s.line.Broken? && !s.stopSet
    ensures Consume(c, steps + [s]) == LoopRun(Consume(c, steps).events + LineEvents(c, s.line), Exhausted)
  {
    ConsumeAppend(c, steps, [s]);
    assert [s][1..] == [];
  }

  /**
   * Lines are handled in arrival order, one at a time: a line that does not
   * stop the loop adds its own events (none when empty, one message when
   * delivered, one error when it does not decode or the callback fails)
   * after those of the lines before it, and the loop goes on with the lines
   * after it.
   */
  lemma LinesInArrivalOrder(c: Callbacks, before: seq<Step>, s: Step, after: seq<Step>)
    requires Consume(c, before).end == Exhausted && !s.line.Broken? && !s.stopSet
    ensures Consume(c, before + [s] + after)
         == LoopRun(Consume(c, before).events + LineEvents(c, s.line) + Consume(c, after).events, Consume(c, after).end)
  {
    OneMoreLine(c, before, s);
    ConsumeAppend(c, before + [s], after);
  }

  /** Where a loop that had run to step `j` ends when step `j` breaks or stops it. */
  lemma LoopEndsAt(c: Callbacks, steps: seq<Step>, j: nat)
    requires j < |steps| && (steps[j].line.Broken? || steps[j].stopSet)
    requires Consume(c, steps[..j]).end == Exhausted
    ensures Consume(c, steps) == LoopRun(Consume(c, steps[..j]).events,
      if steps[j].line.Broken? then Interrupted(steps[j].line.error) else Stopped)
  {
    assert steps == steps[..j] + steps[j..];
    ConsumeAppend(c, steps[..j], steps[j..]);
    assert steps[j..][0] == steps[j];
    assert Consume(c, steps[..j]).events + [] == Consume(c, steps[..j]).events;
  }

  /**
   * The `for` loop over `iter_lines()` of both HTTP streamers, step by step:
   * it emits what Consume says and reports how the loop ended.
   */
  method ReadLines(s: Streamer, steps: seq<Step>) returns (end: LoopEnd)
    modifies s
    ensures s.trace == old(s.trace) + Consume(s.callbacks, steps).events
    ensures end == Consume(s.callbacks, steps).end
  {
    var c := s.callbacks;
    var i := 0;
    while i < |steps|
      invariant 0 <= i <= |steps|
      invariant Consume(c, steps[..i]).end == Exhausted
      invariant s.trace == old(s.trace) + Consume(c, steps[..i]).events
    {
      var step := steps[i];
      if step.line.Broken? || step.stopSet {
        LoopEndsAt(c, steps, i);
        return if step.line.Broken? then Interrupted(step.line.error) else Stopped;
      }
      match step.line {
        case Empty =>
        case Valid(text, raised) =>
          var failure := MessageFailure(c, raised);
          if failure.None? {
            s.Emit(Message(text));
          } else {
            s.Emit(Error(failure.value));
          }
        case Invalid =>
          s.Emit(Error(DecodeError));
      }
      OneMoreLine(c, steps[..i], step);
      assert steps[..i + 1] == steps[..i] + [step];
      i := i + 1;
    }
    assert steps[..i] == steps;
    end := Exhausted;
  }

  /**
   * The except and finally clauses of the HTTP streamers: a RequestException
   * or TradierAPIException is reported through on_error; any other exception
   * propagates; on_close runs in every case.
   */
  function Conclusion(failure: Option<Exc>): (r: Run)
    ensures r.events == (if failure.Some? && IsStreamSetupError(failure.value) then [Error(failure.value)] else []) + [Close]
    ensures r.outcome == if failure.Some? && !IsStreamSetupError(failure.value) then Raised(failure.value) else Returned
  {
    match failure
    case None => Run([Close], Returned)
    case Some(e) =>
      if IsStreamSetupError(e) then Run([Error(e), Close], Returned)
      else Run([Close], Raised(e))
  }

  method Conclude(s: Streamer, failure: Option<Exc>) returns (outcome: Outcome)
    modifies s
    ensures s.trace == old(s.trace) + Conclusion(failure).events
    ensures outcome == Conclusion(failure).outcome
  {
    if failure.Some? && IsStreamSetupError(failure.value) {
      s.Emit(Error(failure.value));
    }
    s.Emit(Close);
    outcome := if failure.Some? && !IsStreamSetupError(failure.value) then Raised(failure.value) else Returned;
  }

  /**
   * Open first, Close last, and only messages and errors in between: each of
   * Open and Close occurs exactly once.
   */
  predicate Framed(r: seq<Event>)
  {
    && |r| >= 2 && r[0] == Open && r[|r| - 1] == Close
    && forall i :: 0 < i < |r| - 1 ==> r[i].Message? || r[i].Error?
  }

  /** What `_handle_event` did for each event of a trace, in order. */
  function Dispatches(c: Callbacks, events: seq<Event>): (r: seq<Dispatch>)
    ensures |r| == |events|
    ensures forall i :: 0 <= i < |events| ==> r[i].event == events[i] && (r[i].Called? <==> HasCallback(c, events[i]))
  {
    seq(|events|, i requires 0 <= i < |events| => HandleEvent(c, events[i]))
  }

  /**
   * In a framed trace the first dispatch reaches on_open or logs "Stream
   * opened.", the last reaches on_close or logs "Stream closed.", and every
   * one in between is about a message or an error.
   */
  lemma FramedDispatches(c: Callbacks, events: seq<Event>)
    requires Framed(events)
    ensures var d := Dispatches(c, events);
      && |d| >= 2
      && d[0] == (if c.onOpen then Called(Open) else Logged("Stream opened.", Open))
      && d[|d| - 1] == (if c.onClose then Called(Close) else Logged("Stream closed.", Close))
      && forall i :: 0 < i < |d| - 1 ==> d[i].event.Message? || d[i].event.Error?
  {
    var d := Dispatches(c, events);
    assert d[0] == HandleEvent(c, Open);
    assert d[|d| - 1] == HandleEvent(c, Close);
  }

  /** A run that emits Open, then loop events, then its conclusion, is framed. */
  lemma OpenFirstCloseLast(loop: seq<Event>, failure: Option<Exc>)
    requires forall e :: e in loop ==> e.Message? || e.Error?
    ensures Framed([Open] + (loop + Conclusion(failure).events))
  {
    var r := [Open] + (loop + Conclusion(failure).events);
    var extra := if failure.Some? && IsStreamSetupError(failure.value) then [Error(failure.value)] else [];
    var middle := loop + extra;
    assert r == [Open] + middle + [Close];
    forall i | 0 < i < |r| - 1
      ensures r[i].Message? || r[i].Error?
    {
      assert r[i] == middle[i - 1];
      assert middle[i - 1] in middle;
    }
  }

  /**
   * What both HTTP streamers do after on_open: post, then read lines unless
   * the post failed, then conclude with the failure met, if any.
   */
  function PostAndRead(c: Callbacks, setup: Option<Exc>, steps: seq<Step>): Run
  {
    if setup.Some? then Conclusion(setup)
    else
      var loop := Consume(c, steps);
      Run(loop.events + Conclusion(Failed(loop.end)).events, Conclusion(Failed(loop.end)).outcome)
  }

  method PostAndReadLines(s: Streamer, setup: Option<Exc>, steps: seq<Step>) returns (outcome: Outcome)
    modifies s
    ensures s.trace == old(s.trace) + PostAndRead(s.callbacks, setup, steps).events
    ensures outcome == PostAndRead(s.callbacks, setup, steps).outcome
  {
    var failure := setup;
    if setup.None? {
      var end := ReadLines(s, steps);
      if end.Interrupted? {
        failure := Some(end.error);
      }
    }
    outcome := Conclude(s, failure);
  }

  lemma Append3(a: seq<Event>, b: seq<Event>, c: seq<Event>)
    ensures a + b + c == a + (b + c)
  {
  }

  /** Every HTTP run that gets to on_open opens first and closes last, each exactly once. */
  lemma HttpRunsAreFramed(c: Callbacks, setup: Option<Exc>, steps: seq<Step>)
    ensures Framed([Open] + PostAndRead(c, setup, steps).events)
  {
    if setup.Some? {
      OpenFirstCloseLast([], setup);
      assert [] + Conclusion(setup).events == Conclusion(setup).events;
    } else {
      var loop := Consume(c, steps);
      OpenFirstCloseLast(loop.events, Failed(loop.end));
    }
  }

  /** Once a line finds the stop flag set, no later line produces an event and Close follows. */
  lemma StopFlagEndsReading(c: Callbacks, steps: seq<Step>, j: nat)
    requires j < |steps| && !steps[j].line.Broken? && steps[j].stopSet
    requires Consume(c, steps[..j]).end == Exhausted
    ensures PostAndRead(c, None, steps) == Run(Consume(c, steps[..j]).events + [Close], Returned)
  {
    LoopEndsAt(c, steps, j);
  }

  /** The three concrete streamers. */
  datatype StreamerKind = HttpQuotes | MarketEvents | AccountEvents

  /**
   * `get_session_endpoint`: the session a streamer needs; only the account
   * streamer asks for an account session.
   */
  function SessionEndpoint(k: StreamerKind): (p: Paths.StreamingPath)
    ensures p == Paths.CreateAccountSession <==> k == AccountEvents
    ensures p == Paths.CreateMarketSession <==> k != AccountEvents
  {
    if k == AccountEvents then Paths.CreateAccountSession else Paths.CreateMarketSession
  }

  /**
   * What a streamer sends to open its stream: the URL is the base URL's
   * string followed by the path's.
   */
  datatype Request = Request(base: Paths.BaseUrl, path: Paths.ApiPath, query: Dict)

  function Url(r: Request): string
  {
    Paths.BaseUrlValue(r.base) + Paths.Template(r.path)
  }

  // --------------------------------------------------- the session query

  /**
   * `params.to_query_params()`, then `["sessionid"] = session_key` and
   * `["linebreak"] = True`: the query of the newer HTTP streamer and the
   * subscription payload of the WebSocket streamers.
   */
  function SessionQuery(p: Params, sessionKey: Value): Dict
  {
    Set(Set(ToQueryParams(p), "sessionid", sessionKey), "linebreak", Bool(true))
  }

  /**
   * The session query carries the session key and `linebreak = True`, and
   * every other key exactly as to_query_params gave it.
   */
  lemma SessionQueryContents(p: Params, sessionKey: Value)
    ensures Get(SessionQuery(p, sessionKey), "sessionid") == Some(sessionKey)
    ensures Get(SessionQuery(p, sessionKey), "linebreak") == Some(Bool(true))
    ensures forall k :: k != "sessionid" && k != "linebreak" ==>
      Get(SessionQuery(p, sessionKey), k) == Get(ToQueryParams(p), k)
  {
    var q0 := ToQueryParams(p);
    var q1 := Set(q0, "sessionid", sessionKey);
    GetSetSame(q1, "linebreak", Bool(true));
    GetSetSame(q0, "sessionid", sessionKey);
    GetSetOther(q1, "linebreak", Bool(true), "sessionid");
    forall k | k != "sessionid" && k != "linebreak"
      ensures Get(SessionQuery(p, sessionKey), k) == Get(q0, k)
    {
      GetSetOther(q1, "linebreak", Bool(true), k);
      GetSetOther(q0, "sessionid", sessionKey, k);
    }
  }
}
