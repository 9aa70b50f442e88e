/**
 * The older HTTP streamer of src/tradier_api/tradier_streams.py. It takes
 * a list of symbols instead of a parameter object, checks nothing about
 * it, and sends the symbols joined by commas. Its `iter_lines()` loop and
 * its except/finally clauses are those of the newer streamer.
 */
module LegacyStreaming {

  import opened Values
  import opened Failures
  import opened Params
  import opened StreamBase
  import HttpStreaming
  import Paths

  /**
   * `sep.join(xs)`: nothing for no pieces; otherwise it starts with the first
   * piece and ends with the last. SplitJoin shows nothing else is lost.
   */
  function Join(xs: seq<string>, sep: char): (r: string)
    ensures xs == [] ==> r == []
    ensures |xs| > 0 ==> |xs[0]| <= |r| && r[..|xs[0]|] == xs[0]
    ensures |xs| > 0 ==> |xs[|xs| - 1]| <= |r| && r[|r| - |xs[|xs| - 1]|..] == xs[|xs| - 1]
  {
    if xs == [] then ""
    else if |xs| == 1 then xs[0]
    else xs[0] + [sep] + Join(xs[1..], sep)
  }

  /**
   * `s.split(sep)`: one more piece than separators. The streamer never
   * splits; this is the reference inverse by which SplitJoin shows that
   * joining loses nothing.
   */
  function Split(s: string, sep: char): (r: seq<string>)
    ensures |r| > 0
  {
    if s == [] then [""]
    else
      var rest := Split(s[1..], sep);
      if s[0] == sep then [""] + rest else [[s[0]] + rest[0]] + rest[1..]
  }

  lemma {:induction false} SplitWithout(x: string, sep: char)
    requires sep !in x
    ensures Split(x, sep) == [x]
  {
    if x != [] {
      SplitWithout(x[1..], sep);
      assert [x[0]] + x[1..] == x;
    }
  }

  lemma {:induction false} SplitAfter(x: string, sep: char, y: string)
    requires sep !in x
    ensures Split(x + [sep] + y, sep) == [x] + Split(y, sep)
  {
    if x == [] {
      assert x + [sep] + y == [sep] + y;
      assert ([sep] + y)[1..] == y;
    } else {
      var s := x + [sep] + y;
      assert s[0] == x[0] && s[1..] == x[1..] + [sep] + y;
      SplitAfter(x[1..], sep, y);
      assert [x[0]] + x[1..] == x;
    }
  }

  /**
   * Splitting the comma-joined symbols gives the symbols back, provided
   * there is at least one and none contains a comma.
   */
  lemma {:induction false} SplitJoin(xs: seq<string>, sep: char)
    requires |xs| > 0
    requires forall i :: 0 <= i < |xs| ==> sep !in xs[i]
    ensures Split(Join(xs, sep), sep) == xs
  {
    if |xs| == 1 {
      SplitWithout(xs[0], sep);
    } else {
      SplitJoin(xs[1..], sep);
      SplitAfter(xs[0], sep, Join(xs[1..], sep));
      assert [xs[0]] + xs[1..] == xs;
    }
  }

  /** The query of the POST: the joined symbols, the session id, the line-break flag. */
  function LegacyQuery(symbols: seq<string>, sessionKey: Value): (q: Dict)
    ensures Keys(q) == ["symbols", "sessionid", "linebreak"]
    ensures Get(q, "symbols") == Some(Str(Join(symbols, ',')))
    ensures Get(q, "sessionid") == Some(sessionKey)
    ensures Get(q, "linebreak") == Some(Bool(true))
  {
    [("symbols", Str(Join(symbols, ','))), ("sessionid", sessionKey), ("linebreak", Bool(true))]
  }

  function LegacyQuoteStream(sessionKey: Value, symbols: seq<string>): Request
  {
    Request(Paths.Stream, Paths.Streaming(Paths.GetStreamingQuotes), LegacyQuery(symbols, sessionKey))
  }

  /** The events and the outcome of one run: no check comes before on_open. */
  function LegacyRun(c: Callbacks, setup: Option<Exc>, steps: seq<Step>): Run
  {
    Run([Open] + PostAndRead(c, setup, steps).events, PostAndRead(c, setup, steps).outcome)
  }

  /** `TradierHttpStreamer.run(session_key, stop_event, symbols)` */
  method LegacyStream(s: Streamer, sessionKey: Value, symbols: seq<string>, setup: Option<Exc>, steps: seq<Step>)
    returns (outcome: Outcome, posted: Request)
    modifies s
    ensures s.trace == old(s.trace) + LegacyRun(s.callbacks, setup, steps).events
    ensures outcome == LegacyRun(s.callbacks, setup, steps).outcome
    ensures posted == LegacyQuoteStream(sessionKey, symbols)
  {
    s.Emit(Open);
    posted := LegacyQuoteStream(sessionKey, symbols);
    outcome := PostAndReadLines(s, setup, steps);
    Append3(old(s.trace), [Open], PostAndRead(s.callbacks, setup, steps).events);
  }

  /**
   * Every run opens first and closes last, each exactly once, whatever the
   * symbols: nothing is refused before on_open.
   */
  lemma LegacyRunIsFramed(c: Callbacks, setup: Option<Exc>, steps: seq<Step>)
    ensures Framed(LegacyRun(c, setup, steps).events)
  {
    HttpRunsAreFramed(c, setup, steps);
  }

  /**
   * On the same script the older and the newer streamer emit the same
   * events and end the same way, once the newer one has accepted its
   * parameters; they differ only in the query they send.
   */
  lemma SameRunAsNewerStreamer(c: Callbacks, p: Params, setup: Option<Exc>, steps: seq<Step>)
    requires p.kind == SymbolsParams
    ensures LegacyRun(c, setup, steps) == HttpStreaming.HttpRun(c, p, setup, steps)
  {
  }

  /** Once a line finds the stop flag set, no later line produces an event. */
  lemma LegacyStopFlagEndsRun(c: Callbacks, steps: seq<Step>, j: nat)
    requires j < |steps| && !steps[j].line.Broken? && steps[j].stopSet
    requires Consume(c, steps[..j]).end == Exhausted
    ensures LegacyRun(c, None, steps) == Run([Open] + Consume(c, steps[..j]).events + [Close], Returned)
  {
    StopFlagEndsReading(c, steps, j);
  }
}
