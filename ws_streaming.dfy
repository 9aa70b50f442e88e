/**
 * The WebSocket streamers of tradier_api/tradier_streams.py:
 * `TradierWebsocketStreamer._run_stream` and the two subclasses that fix
 * its endpoint and check the parameter class.
 *
 * A run consumes a script: what `websockets.connect`, `send` and `close`
 * raise, if anything, and what happens at each pass of the `while` loop.
 * The loop waits for ever when the stop flag is never set, so a script
 * whose passes run out leaves the run Waiting, without Close.
 */
module WebSocketStreaming {

  import opened Values
  import opened Failures
  import opened Params
  import opened StreamBase
  import Paths

  const EndpointNotSet: Exc := ValueError("Endpoint is not set.")
  const WrongMarketsParams: Exc := ValueError("Invalid parameters for TradierMarketsStreamer. Expected SymbolsParams.")
  const WrongAccountParams: Exc := ValueError("Invalid parameters for TradierAccountStreamer. Expected AccountParams.")

  /** What `asyncio.wait_for(websocket.recv(), timeout=1.0)` gives. */
  datatype Received =
    | Frame(text: string, raised: Option<Exc>)  // a message; what on_message raises, if anything
    | Fail(error: Exc)                          // TimeoutError when nothing came, EndOfStream once closed

  /** One pass of the `while` loop: the stop flag found set, or one receive. */
  datatype Tick = StopSeen | Recv(received: Received)

  datatype Script = Script(connect: Option<Exc>, send: Option<Exc>, ticks: seq<Tick>, close: Option<Exc>)

  /** The exception the inner `try` sees for one receive, if any. */
  function Receive(c: Callbacks, r: Received): (f: Option<Exc>)
    ensures r.Fail? ==> f == Some(r.error)
    ensures r.Frame? ==> f == MessageFailure(c, r.raised)
  {
    match r
    case Frame(_, raised) => MessageFailure(c, raised)
    case Fail(e) => Some(e)
  }

  /**
   * The `while not stop_event.is_set()` loop: a TimeoutError is passed over
   * in silence, any other exception goes to on_error and ends the loop.
   */
  function Listen(c: Callbacks, ticks: seq<Tick>): (r: LoopRun)
    ensures r.end.Interrupted? ==> r.end.error != TimeoutError
    ensures |r.events| <= |ticks|
  {
    if ticks == [] then LoopRun([], Exhausted)
    else match ticks[0]
      case StopSeen => LoopRun([], Stopped)
      case Recv(r) =>
        match Receive(c, r)
        case None => var rest := Listen(c, ticks[1..]); LoopRun([Message(r.text)] + rest.events, rest.end)
        case Some(e) =>
          if e == TimeoutError then Listen(c, ticks[1..])
          else LoopRun([Error(e)], Interrupted(e))
  }

  /** The outer except and finally: any exception goes to on_error, then on_close. */
  function Finale(failure: Option<Exc>): seq<Event>
  {
    (if failure.Some? then [Error(failure.value)] else []) + [Close]
  }

  method Finish(s: Streamer, failure: Option<Exc>)
    modifies s
    ensures s.trace == old(s.trace) + Finale(failure)
  {
    if failure.Some? {
      s.Emit(Error(failure.value));
    }
    s.Emit(Close);
  }

  /** The events and the outcome of `_run_stream`, as a function of its script. */
  function WsRun(c: Callbacks, endpoint: Option<Paths.WebSocketPath>, script: Script): Run
  {
    if endpoint.None? then Run([], Raised(EndpointNotSet))
    else if script.connect.Some? then Run(Finale(script.connect), Returned)
    else if script.send.Some? then Run(Finale(script.send), Returned)
    else Run([Open] + Connected(c, script).events, Connected(c, script).outcome)
  }

  /** What follows on_open: the loop, then, unless it is still waiting, the close. */
  function Connected(c: Callbacks, script: Script): Run
  {
    var loop := Listen(c, script.ticks);
    if loop.end == Exhausted then Run(loop.events, Waiting)
    else Run(loop.events + Finale(script.close), Returned)
  }

  /** The endpoint and the payload sent over a connected socket. */
  function Subscription(endpoint: Paths.WebSocketPath, sessionKey: Value, p: Params): Request
  {
    Request(Paths.WebSocket, Paths.WebSocketEvents(endpoint), SessionQuery(p, sessionKey))
  }

  lemma Prepend(x: seq<Event>, e: seq<Event>, rest: seq<Event>)
    ensures x + (e + rest) == (x + e) + rest
  {
  }

  /** The `while` loop of `_run_stream`: it emits what Listen says and reports how it ended. */
  method ListenLoop(s: Streamer, ticks: seq<Tick>) returns (end: LoopEnd)
    modifies s
    ensures s.trace == old(s.trace) + Listen(s.callbacks, ticks).events
    ensures end == Listen(s.callbacks, ticks).end
  {
    var c := s.callbacks;
    var i := 0;
    end := Exhausted;
    ghost var emitted: seq<Event> := [];
    while i < |ticks| && end == Exhausted
      invariant 0 <= i <= |ticks|
      invariant s.trace == old(s.trace) + emitted
      invariant end == Exhausted ==>
        Listen(c, ticks) == LoopRun(emitted + Listen(c, ticks[i..]).events, Listen(c, ticks[i..]).end)
      invariant end != Exhausted ==> Listen(c, ticks) == LoopRun(emitted, end)
      decreases |ticks| - i
    {
      assert ticks[i..][0] == ticks[i] && ticks[i..][1..] == ticks[i + 1..];
      match ticks[i] {
        case StopSeen =>
          end := Stopped;
        case Recv(r) =>
          var failure := Receive(c, r);
          if failure.None? {
            s.Emit(Message(r.text));
            Prepend(emitted, [Message(r.text)], Listen(c, ticks[i + 1..]).events);
            emitted := emitted + [Message(r.text)];
          } else if failure.value != TimeoutError {
            s.Emit(Error(failure.value));
            emitted := emitted + [Error(failure.value)];
            end := Interrupted(failure.value);
          }
      }
      i := i + 1;
    }
    if end == Exhausted {
      assert ticks[i..] == [];
      assert emitted + [] == emitted;
    }
  }

  /**
   * `TradierWebsocketStreamer._run_stream(session_key, stop_event, params)`,
   * with `run`'s event loop around it. `sent` is the subscription sent once
   * the socket is connected.
   */
  method WsStream(s: Streamer, endpoint: Option<Paths.WebSocketPath>, sessionKey: Value, p: Params, script: Script)
    returns (outcome: Outcome, sent: Option<Request>)
    modifies s
    ensures s.trace == old(s.trace) + WsRun(s.callbacks, endpoint, script).events
    ensures outcome == WsRun(s.callbacks, endpoint, script).outcome
    ensures sent == if endpoint.Some? && script.connect.None?
                    then Some(Subscription(endpoint.value, sessionKey, p)) else None
  {
    var payload := SessionQuery(p, sessionKey);
    if endpoint.None? {
      return Raised(EndpointNotSet), None;
    }
    sent := None;
    if script.connect.Some? {
      Finish(s, script.connect);
      return Returned, sent;
    }
    sent := Some(Request(Paths.WebSocket, Paths.WebSocketEvents(endpoint.value), payload));
    if script.send.Some? {
      Finish(s, script.send);
      return Returned, sent;
    }
    s.Emit(Open);
    outcome := Converse(s, script);
    Append3(old(s.trace), [Open], Connected(s.callbacks, script).events);
  }

  /** The loop and the closing of a connected socket. */
  method Converse(s: Streamer, script: Script) returns (outcome: Outcome)
    modifies s
    ensures s.trace == old(s.trace) + Connected(s.callbacks, script).events
    ensures outcome == Connected(s.callbacks, script).outcome
  {
    var end := ListenLoop(s, script.ticks);
    if end == Exhausted {
      return Waiting;
    }
    Finish(s, script.close);
    outcome := Returned;
  }

  /** `TradierMarketsStreamer.run`: SymbolsParams only, market events endpoint. */
  function MarketsRun(c: Callbacks, p: Params, script: Script): Run
  {
    if p.kind != SymbolsParams then Run([], Raised(WrongMarketsParams))
    else WsRun(c, Some(Paths.GetStreamingMarketEvents), script)
  }

  /** `TradierAccountStreamer.run`: ExcludedAccountParams only, account events endpoint. */
  function AccountRun(c: Callbacks, p: Params, script: Script): Run
  {
    if p.kind != ExcludedAccountParams then Run([], Raised(WrongAccountParams))
    else WsRun(c, Some(Paths.GetStreamingAccountEvents), script)
  }

  method MarketsStream(s: Streamer, sessionKey: Value, p: Params, script: Script)
    returns (outcome: Outcome, sent: Option<Request>)
    modifies s
    ensures s.trace == old(s.trace) + MarketsRun(s.callbacks, p, script).events
    ensures outcome == MarketsRun(s.callbacks, p, script).outcome
    ensures sent == if p.kind == SymbolsParams && script.connect.None?
                    then Some(Subscription(Paths.GetStreamingMarketEvents, sessionKey, p)) else None
  {
    if p.kind != SymbolsParams {
      return Raised(WrongMarketsParams), None;
    }
    outcome, sent := WsStream(s, Some(Paths.GetStreamingMarketEvents), sessionKey, p, script);
  }

  method AccountStream(s: Streamer, sessionKey: Value, p: Params, script: Script)
    returns (outcome: Outcome, sent: Option<Request>)
    modifies s
    ensures s.trace == old(s.trace) + AccountRun(s.callbacks, p, script).events
    ensures outcome == AccountRun(s.callbacks, p, script).outcome
    ensures sent == if p.kind == ExcludedAccountParams && script.connect.None?
                    then Some(Subscription(Paths.GetStreamingAccountEvents, sessionKey, p)) else None
  {
    if p.kind != ExcludedAccountParams {
      return Raised(WrongAccountParams), None;
    }
    outcome, sent := WsStream(s, Some(Paths.GetStreamingAccountEvents), sessionKey, p, script);
  }

  // ------------------------------------------------------------- properties

  /** Passes are taken in order; once the loop has ended, later passes change nothing. */
  lemma {:induction false} ListenAppend(c: Callbacks, a: seq<Tick>, b: seq<Tick>)
    ensures Listen(c, a + b) ==
      if Listen(c, a).end == Exhausted then LoopRun(Listen(c, a).events + Listen(c, b).events, Listen(c, b).end)
      else Listen(c, a)
  {
    if a == [] {
      assert a + b == b;
    } else {
      assert (a + b)[0] == a[0] && (a + b)[1..] == a[1..] + b;
      ListenAppend(c, a[1..], b);
      if a[0].Recv? && Receive(c, a[0].received).None? {
        var head := [Message(a[0].received.text)];
        if Listen(c, a[1..]).end == Exhausted {
          assert head + (Listen(c, a[1..]).events + Listen(c, b).events)
              == (head + Listen(c, a[1..]).events) + Listen(c, b).events;
        }
      }
    }
  }

  /** A receive that times out emits nothing and the loop goes on as if it had not happened. */
  lemma TimeoutsAreSilent(c: Callbacks, before: seq<Tick>, after: seq<Tick>)
    ensures Listen(c, before + [Recv(Fail(TimeoutError))] + after) == Listen(c, before + after)
  {
    var t := [Recv(Fail(TimeoutError))];
    ListenAppend(c, before, t + after);
    ListenAppend(c, before, after);
    assert before + t + after == before + (t + after);
    assert (t + after)[0] == t[0] && (t + after)[1..] == after;
  }

  /**
   * Once the server closes the socket, `recv` raises StopAsyncIteration: it
   * goes to on_error like any other failure and ends the loop.
   */
  lemma EndOfStreamReachesOnError(c: Callbacks, before: seq<Tick>, after: seq<Tick>)
    requires Listen(c, before).end == Exhausted
    ensures Listen(c, before + [Recv(Fail(EndOfStream))] + after)
         == LoopRun(Listen(c, before).events + [Error(EndOfStream)], Interrupted(EndOfStream))
  {
    var t := [Recv(Fail(EndOfStream))];
    ListenAppend(c, before, t + after);
    assert before + t + after == before + (t + after);
    assert (t + after)[0] == t[0];
  }

  /**
   * The loop reports messages, and one error at most: the last event, and
   * only when the loop broke off with that error.
   */
  lemma {:induction false} ListenShape(c: Callbacks, ticks: seq<Tick>)
    ensures var r := Listen(c, ticks);
      && (r.end.Interrupted? ==> |r.events| > 0 && r.events[|r.events| - 1] == Error(r.end.error))
      && (forall i :: 0 <= i < |r.events| && !r.events[i].Message? ==>
            r.end.Interrupted? && i == |r.events| - 1)
  {
    if ticks != [] && ticks[0].Recv? {
      ListenShape(c, ticks[1..]);
      var r := Listen(c, ticks);
      var rest := Listen(c, ticks[1..]);
      if Receive(c, ticks[0].received).None? {
        assert r.events == [Message(ticks[0].received.text)] + rest.events;
        forall i | 0 <= i < |r.events| && !r.events[i].Message?
          ensures r.end.Interrupted? && i == |r.events| - 1
        {
          assert i > 0 && r.events[i] == rest.events[i - 1];
        }
      }
    }
  }

  /**
   * on_open fires only once the socket is connected and the subscription
   * sent, and then before anything else.
   */
  lemma OpenOnlyAfterHandshake(c: Callbacks, endpoint: Option<Paths.WebSocketPath>, script: Script)
    ensures var r := WsRun(c, endpoint, script);
      Open in r.events <==> endpoint.Some? && script.connect.None? && script.send.None?
    ensures var r := WsRun(c, endpoint, script);
      Open in r.events ==> r.events[0] == Open && Open !in r.events[1..]
  {
    var r := WsRun(c, endpoint, script);
    if endpoint.Some? && script.connect.None? && script.send.None? {
      ConnectedClosesOnce(c, script);
      assert r.events[1..] == Connected(c, script).events;
    }
  }

  /** The loop emits neither Open nor Close. */
  lemma LoopHasNoOpenOrClose(c: Callbacks, ticks: seq<Tick>)
    ensures Open !in Listen(c, ticks).events && Close !in Listen(c, ticks).events
  {
    var loop := Listen(c, ticks);
    ListenShape(c, ticks);
    assert forall i :: 0 <= i < |loop.events| ==> loop.events[i] != Open && loop.events[i] != Close;
  }

  /** After on_open, Close comes last and once when the run returns, and not at all while it waits. */
  lemma ConnectedClosesOnce(c: Callbacks, script: Script)
    ensures var r := Connected(c, script);
      r.outcome.Returned? ==>
        |r.events| > 0 && r.events[|r.events| - 1] == Close && Close !in r.events[..|r.events| - 1]
    ensures var r := Connected(c, script);
      r.outcome.Waiting? ==> Close !in r.events
    ensures Open !in Connected(c, script).events
  {
    var loop := Listen(c, script.ticks);
    LoopHasNoOpenOrClose(c, script.ticks);
    if loop.end != Exhausted {
      var r := Connected(c, script);
      var extra := if script.close.Some? then [Error(script.close.value)] else [];
      assert r.events == loop.events + extra + [Close];
      assert r.events[..|r.events| - 1] == loop.events + extra;
    }
  }

  /**
   * on_close fires exactly once, last, in every run that gets past the
   * endpoint check and returns; a run still waiting in the loop has not
   * closed, and a run without an endpoint emits nothing.
   */
  lemma CloseOnceAtTheEnd(c: Callbacks, endpoint: Option<Paths.WebSocketPath>, script: Script)
    ensures var r := WsRun(c, endpoint, script);
      r.outcome.Returned? ==>
        |r.events| > 0 && r.events[|r.events| - 1] == Close && Close !in r.events[..|r.events| - 1]
    ensures var r := WsRun(c, endpoint, script);
      r.outcome.Waiting? ==> Close !in r.events
    ensures var r := WsRun(c, endpoint, script);
      r.outcome.Raised? ==> r.events == [] && endpoint.None?
  {
    var r := WsRun(c, endpoint, script);
    if endpoint.Some? && script.connect.None? && script.send.None? {
      var k := Connected(c, script);
      ConnectedClosesOnce(c, script);
      assert r.events == [Open] + k.events;
      if k.outcome.Returned? {
        assert r.events[..|r.events| - 1] == [Open] + k.events[..|k.events| - 1];
      }
    } else if endpoint.Some? {
      var failure := if script.connect.Some? then script.connect else script.send;
      assert r.events == [Error(failure.value), Close];
      assert r.events[..|r.events| - 1] == [Error(failure.value)];
    }
  }
}
