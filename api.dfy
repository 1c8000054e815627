/** The request handling of the HTTP API in backend/main.py: the parsing of
    the comma-separated `tickers` query parameter, the batch endpoints that
    send every ticker to `results` or to `errors`, and the status codes of
    the batch, single-ticker and report endpoints. The pipelines behind them
    are parameters. */
module Api {
  import opened Wrappers
  import opened PyStr
  import QuantTool
  import Sec

  // ---------------------------------------------------------------------------
  // The ticker list
  // ---------------------------------------------------------------------------

  /** Every string of the list, upper-cased. */
  function UpperAll(xs: seq<string>): (r: seq<string>)
    ensures |r| == |xs|
  {
    seq(|xs|, i requires 0 <= i < |xs| => Upper(xs[i]))
  }

  /** `[t.strip().upper() for t in pieces if t.strip()]`: the stripped
      non-empty pieces, upper-cased. */
  function CleanTickers(pieces: seq<string>): seq<string> {
    UpperAll(StripNonEmpty(pieces))
  }

  /** A ticker of a clean list is non-empty, stripped and upper-case. */
  predicate IsTicker(t: string) {
    t != [] && IsStripped(t) && IsUpper(t) && ',' !in t
  }

  lemma UpperAllTickers(xs: seq<string>)
    requires AllClean(xs)
    requires forall i :: 0 <= i < |xs| ==> ',' !in xs[i]
    ensures forall i :: 0 <= i < |UpperAll(xs)| ==> IsTicker(UpperAll(xs)[i])
  {
    forall i | 0 <= i < |xs|
      ensures IsTicker(UpperAll(xs)[i])
    {
      UpperIsUpper(xs[i]);
      UpperKeepsStripped(xs[i]);
      UpperKeepsOthers(xs[i], ',');
    }
  }

  /** The ticker list of `get_stocks`, `get_report` and `get_health_scores`:
      split on commas, strip, upper-case, drop the empty pieces. */
  function ParseTickerList(tickers: string): (r: seq<string>)
    ensures forall i :: 0 <= i < |r| ==> IsTicker(r[i])
  {
    var pieces := Split(tickers, ',');
    StripNonEmptyFree(pieces, ',');
    UpperAllTickers(StripNonEmpty(pieces));
    CleanTickers(pieces)
  }

  /** The comprehension works piece by piece, so the tickers keep the order
      of the pieces they come from. */
  lemma CleanTickersAppend(a: seq<string>, b: seq<string>)
    ensures CleanTickers(a + b) == CleanTickers(a) + CleanTickers(b)
  {
    StripNonEmptyAppend(a, b);
    UpperAllAppend(StripNonEmpty(a), StripNonEmpty(b));
  }

  lemma UpperAllAppend(x: seq<string>, y: seq<string>)
    ensures UpperAll(x + y) == UpperAll(x) + UpperAll(y)
  {
    var u, v := UpperAll(x + y), UpperAll(x) + UpperAll(y);
    forall i | 0 <= i < |u|
      ensures u[i] == v[i]
    {
      if i < |x| {
        assert (x + y)[i] == x[i];
      } else {
        assert (x + y)[i] == y[i - |x|];
      }
    }
    assert u == v;
  }

  /** The list is empty exactly when every comma-separated piece is blank. */
  lemma CleanTickersEmpty(pieces: seq<string>)
    ensures CleanTickers(pieces) == [] <==> forall i :: 0 <= i < |pieces| ==> Strip(pieces[i]) == []
  {
    StripNonEmptyBlank(pieces);
  }

  /** Joining clean tickers with commas and parsing the result gives them
      back, in order. */
  lemma ParseRoundTrip(xs: seq<string>)
    requires |xs| >= 1
    requires forall i :: 0 <= i < |xs| ==> IsTicker(xs[i])
    ensures ParseTickerList(Join(",", xs)) == xs
  {
    SplitJoin(xs, ',');
    assert [','] == ",";
    assert ParseTickerList(Join(",", xs)) == UpperAll(StripNonEmpty(xs));
    StripNonEmptyFixpoint(xs);
    forall i | 0 <= i < |xs|
      ensures UpperAll(xs)[i] == xs[i]
    {
      UpperFixpoint(xs[i]);
    }
  }

  /** Parsing twice changes nothing: the list sent on by one endpoint, joined
      with commas, parses to itself. */
  lemma ParseIdempotent(tickers: string)
    requires ParseTickerList(tickers) != []
    ensures ParseTickerList(Join(",", ParseTickerList(tickers))) == ParseTickerList(tickers)
  {
    ParseRoundTrip(ParseTickerList(tickers));
  }

  // ---------------------------------------------------------------------------
  // The batch endpoints
  // ---------------------------------------------------------------------------

  const NoTickersDetail: string := "No valid tickers provided."
  const NotFoundError: string := "Ticker not found."

  /** An entry of `errors`. */
  datatype TickerError = TickerError(ticker: string, error: string)

  /** The text recorded for a failed ticker: `SystemExit` and `ValueError`
      mean not found, any other exception records its own text. */
  function ErrorText(e: QuantTool.Raised): (r: string)
    ensures r == NotFoundError <==> !e.OtherRaised? || e.message == NotFoundError
  {
    match e
    case SystemExitRaised => NotFoundError
    case ValueErrorRaised => NotFoundError
    case OtherRaised(message) => message
  }

  /** The `results` list after the loop over `ts`. */
  function Successes<R>(ts: seq<string>, run: string -> Result<R, QuantTool.Raised>): seq<R>
    decreases |ts|
  {
    if ts == [] then []
    else
      var t := ts[|ts| - 1];
      Successes(ts[..|ts| - 1], run) + (if run(t).Success? then [run(t).value] else [])
  }

  /** The `errors` list after the loop over `ts`. */
  function Failures<R>(ts: seq<string>, run: string -> Result<R, QuantTool.Raised>): seq<TickerError>
    decreases |ts|
  {
    if ts == [] then []
    else
      var t := ts[|ts| - 1];
      Failures(ts[..|ts| - 1], run) + (if run(t).Failure? then [TickerError(t, ErrorText(run(t).error))] else [])
  }

  /** Every ticker lands in exactly one of the two lists. */
  lemma {:induction false} PartitionCount<R>(ts: seq<string>, run: string -> Result<R, QuantTool.Raised>)
    ensures |Successes(ts, run)| + |Failures(ts, run)| == |ts|
    decreases |ts|
  {
    if ts != [] {
      PartitionCount(ts[..|ts| - 1], run);
    }
  }

  /** Both lists follow the order of the tickers: the lists of a
      concatenation are the concatenated lists. */
  lemma {:induction false} PartitionAppend<R>(a: seq<string>, b: seq<string>, run: string -> Result<R, QuantTool.Raised>)
    ensures Successes(a + b, run) == Successes(a, run) + Successes(b, run)
    ensures Failures(a + b, run) == Failures(a, run) + Failures(b, run)
    decreases |b|
  {
    if b == [] {
      assert a + b == a;
    } else {
      var b' := b[..|b| - 1];
      assert (a + b)[..|a + b| - 1] == a + b';
      assert (a + b)[|a + b| - 1] == b[|b| - 1];
      PartitionAppend(a, b', run);
    }
  }

  /** Each error names a ticker of the list that failed, with the text its
      exception calls for; each failed ticker has an error. */
  lemma {:induction false} FailuresNamed<R>(ts: seq<string>, run: string -> Result<R, QuantTool.Raised>)
    ensures forall e :: e in Failures(ts, run) ==>
      e.ticker in ts && run(e.ticker).Failure? && e.error == ErrorText(run(e.ticker).error)
    ensures forall t :: t in ts && run(t).Failure? ==> TickerError(t, ErrorText(run(t).error)) in Failures(ts, run)
    decreases |ts|
  {
    if ts != [] {
      FailuresNamed(ts[..|ts| - 1], run);
      assert ts == ts[..|ts| - 1] + [ts[|ts| - 1]];
    }
  }

  /** No result exactly when every ticker failed. */
  lemma {:induction false} NoSuccesses<R>(ts: seq<string>, run: string -> Result<R, QuantTool.Raised>)
    ensures Successes(ts, run) == [] <==> forall i :: 0 <= i < |ts| ==> run(ts[i]).Failure?
    decreases |ts|
  {
    if ts != [] {
      NoSuccesses(ts[..|ts| - 1], run);
    }
  }

  /** The response of a batch endpoint: 400 with a detail string, 422 with
      the error list, or the two lists. */
  datatype BatchResponse<R> =
    | BadRequest(detail: string)
    | AllFailed(errors: seq<TickerError>)
    | Batch(results: seq<R>, errors: seq<TickerError>)

  function BatchStatus<R>(r: BatchResponse<R>): int {
    match r
    case BadRequest(_) => 400
    case AllFailed(_) => 422
    case Batch(_, _) => 200
  }

  /** The response for a parsed ticker list. */
  function BatchResponseOf<R>(ts: seq<string>, run: string -> Result<R, QuantTool.Raised>): BatchResponse<R> {
    if ts == [] then BadRequest(NoTickersDetail)
    else
      var results := Successes(ts, run);
      var errors := Failures(ts, run);
      if results == [] && errors != [] then AllFailed(errors) else Batch(results, errors)
  }

  /** 400 exactly for an empty list, 422 exactly when every ticker failed,
      and otherwise at least one result next to the errors. */
  lemma BatchRules<R>(ts: seq<string>, run: string -> Result<R, QuantTool.Raised>)
    ensures BatchStatus(BatchResponseOf(ts, run)) == 400 <==> ts == []
    ensures BatchStatus(BatchResponseOf(ts, run)) == 422 <==>
      ts != [] && forall i :: 0 <= i < |ts| ==> run(ts[i]).Failure?
    ensures BatchResponseOf(ts, run).AllFailed? ==> BatchResponseOf(ts, run).errors == Failures(ts, run)
    ensures BatchResponseOf(ts, run).Batch? ==>
      var r := BatchResponseOf(ts, run);
      r.results == Successes(ts, run) && r.errors == Failures(ts, run) && r.results != []
  {
    PartitionCount(ts, run);
    NoSuccesses(ts, run);
  }

  /** The loop of `get_health_scores` (and of `get_stocks`): run each
      ticker of the list, catching its exception into `errors`. */
  method RunBatch<R>(tickers: string, run: string -> Result<R, QuantTool.Raised>) returns (resp: BatchResponse<R>)
    ensures resp == BatchResponseOf(ParseTickerList(tickers), run)
  {
    var tickerList := ParseTickerList(tickers);
    if tickerList == [] {
      return BadRequest(NoTickersDetail);
    }
    var results: seq<R> := [];
    var errors: seq<TickerError> := [];
    var i := 0;
    while i < |tickerList|
      invariant 0 <= i <= |tickerList|
      invariant results == Successes(tickerList[..i], run)
      invariant errors == Failures(tickerList[..i], run)
    {
      assert tickerList[..i + 1][..i] == tickerList[..i];
      var t := tickerList[i];
      match run(t) {
        case Success(value) =>
          results := results + [value];
        case Failure(e) =>
          errors := errors + [TickerError(t, ErrorText(e))];
      }
      i := i + 1;
    }
    assert tickerList[..|tickerList|] == tickerList;
    if results == [] && errors != [] {
      return AllFailed(errors);
    }
    resp := Batch(results, errors);
  }

  /** `StockResponse`: an entry of `results` of `get_stocks`, and the body of
      `get_stock`. */
  datatype StockResult = StockResult(ticker: string, companyName: string, scores: QuantTool.Scores,
                                     shortInterest: QuantTool.Detail, insiderTrading: QuantTool.Detail)

  /** How `get_stocks` sees a `run_pipeline` call: the returned triple, or
      the exception it raised. */
  function StockAttempt(o: QuantTool.Outcome): (r: Result<StockResult, QuantTool.Raised>)
    ensures r.Success? <==> o.Completed?
    ensures r.Success? ==>
      && r.value.ticker == o.ticker && r.value.companyName == o.officialName
      && r.value.scores == o.results.scores
      && r.value.shortInterest == o.results.shortInterest && r.value.insiderTrading == o.results.insiderTrading
    ensures r.Failure? ==> r.error == o.raised
  {
    match o
    case Completed(ticker, officialName, results) =>
      Success(StockResult(ticker, officialName, results.scores, results.shortInterest, results.insiderTrading))
    case Aborted(raised) => Failure(raised)
  }

  /** `get_stocks`: the batch loop over `run_pipeline`. */
  method GetStocks(tickers: string, pipeline: string -> QuantTool.Outcome) returns (resp: BatchResponse<StockResult>)
    ensures resp == BatchResponseOf(ParseTickerList(tickers), t => StockAttempt(pipeline(t)))
  {
    resp := RunBatch(tickers, t => StockAttempt(pipeline(t)));
  }

  // ---------------------------------------------------------------------------
  // The single-ticker endpoints
  // ---------------------------------------------------------------------------

  datatype SingleResponse<R> = Found(value: R) | HttpError(status: int, detail: string)

  const PipelineFailedDetail: string := "Pipeline failed — check server logs."
  const HealthFailedDetail: string := "Health score pipeline failed — check server logs."

  function NotFoundDetail(ticker: string): string {
    "Ticker '" + ticker + "' not found."
  }

  /** The response of a single-ticker endpoint for the upper-cased ticker. */
  function SingleResponseOf<R>(ticker: string, run: string -> Result<R, QuantTool.Raised>, failedDetail: string): SingleResponse<R> {
    var t := Upper(ticker);
    match run(t)
    case Success(v) => Found(v)
    case Failure(e) => if e.OtherRaised? then HttpError(500, failedDetail) else HttpError(404, NotFoundDetail(t))
  }

  /** `get_stock`: the pipeline result for the upper-cased ticker, 404
      naming that ticker for an unknown one, 500 for any other failure. */
  function GetStock(ticker: string, pipeline: string -> QuantTool.Outcome): (r: SingleResponse<StockResult>)
    ensures r.Found? <==> pipeline(Upper(ticker)).Completed?
    ensures r.Found? ==> r.value == StockAttempt(pipeline(Upper(ticker))).value
    ensures r.HttpError? && r.status == 404 <==>
      pipeline(Upper(ticker)) in {QuantTool.Aborted(QuantTool.SystemExitRaised), QuantTool.Aborted(QuantTool.ValueErrorRaised)}
    ensures r.HttpError? && r.status == 404 ==> r.detail == NotFoundDetail(Upper(ticker))
    ensures r.HttpError? ==> r.status in {404, 500}
    ensures r.HttpError? && r.status == 500 ==> r.detail == PipelineFailedDetail
  {
    SingleResponseOf(ticker, t => StockAttempt(pipeline(t)), PipelineFailedDetail)
  }

  /** `get_health_score`: the same mapping over `compute_health`. */
  function GetHealthScore<R>(ticker: string, computeHealth: string -> Result<R, QuantTool.Raised>): (r: SingleResponse<R>)
    ensures r.Found? <==> computeHealth(Upper(ticker)).Success?
    ensures r.HttpError? && r.status == 404 <==>
      computeHealth(Upper(ticker)) in {Failure(QuantTool.SystemExitRaised), Failure(QuantTool.ValueErrorRaised)}
    ensures r.HttpError? && r.status == 404 ==> r.detail == NotFoundDetail(Upper(ticker))
    ensures r.HttpError? ==> r.status in {404, 500}
    ensures r.HttpError? && r.status == 500 ==> r.detail == HealthFailedDetail
  {
    SingleResponseOf(ticker, computeHealth, HealthFailedDetail)
  }

  /** A submissions response that is not JSON fails like an unknown ticker:
      "Ticker not found." in a batch, and 404 naming the ticker from
      `get_stock`. */
  lemma InvalidJsonIsNotFound(ticker: string, pipeline: string -> QuantTool.Outcome, message: string)
    requires pipeline(Upper(ticker)) == QuantTool.Aborted(QuantTool.FetchRaised(Sec.InvalidJson(message)))
    ensures ErrorText(StockAttempt(pipeline(Upper(ticker))).error) == NotFoundError
    ensures GetStock(ticker, pipeline) == HttpError(404, NotFoundDetail(Upper(ticker)))
  {
  }

  /** A clean ticker parses to itself alone. */
  lemma ParseSingle(ticker: string)
    requires IsTicker(ticker)
    ensures ParseTickerList(ticker) == [ticker]
  {
    ParseRoundTrip([ticker]);
  }

  lemma BatchOfOne<R>(t: string, run: string -> Result<R, QuantTool.Raised>)
    ensures Successes([t], run) == if run(t).Success? then [run(t).value] else []
    ensures Failures([t], run) == if run(t).Failure? then [TickerError(t, ErrorText(run(t).error))] else []
  {
    assert [t][..0] == [];
  }

  /** The single-ticker endpoint agrees with the batch endpoint asked for
      that one clean ticker: found exactly when the batch has a result, the
      same result, and otherwise the batch fails with that ticker's error. */
  lemma SingleMatchesBatch<R>(ticker: string, run: string -> Result<R, QuantTool.Raised>, failedDetail: string)
    requires IsTicker(ticker)
    ensures ParseTickerList(ticker) == [ticker]
    ensures SingleResponseOf(ticker, run, failedDetail).Found? <==> BatchResponseOf([ticker], run).Batch?
    ensures SingleResponseOf(ticker, run, failedDetail).Found? ==>
      BatchResponseOf([ticker], run).results == [SingleResponseOf(ticker, run, failedDetail).value]
    ensures SingleResponseOf(ticker, run, failedDetail).HttpError? ==>
      BatchResponseOf([ticker], run) == AllFailed([TickerError(ticker, ErrorText(run(ticker).error))])
  {
    ParseSingle(ticker);
    UpperFixpoint(ticker);
    BatchOfOne(ticker, run);
  }

  // ---------------------------------------------------------------------------
  // The report endpoint
  // ---------------------------------------------------------------------------

  const ReportFailedDetail: string := "Report generation failed — check server logs."

  datatype ReportResponse = ReportError(status: int, detail: string) | Report(tickers: seq<string>, reportMarkdown: string)

  /** `get_report`: 400 for an empty list, otherwise the generated report
      for the parsed list, 500 when generation raises. */
  function GetReport(tickers: string, generate: seq<string> -> Result<string, string>): (r: ReportResponse)
    ensures r == ReportError(400, NoTickersDetail) <==> ParseTickerList(tickers) == []
    ensures r.Report? <==> ParseTickerList(tickers) != [] && generate(ParseTickerList(tickers)).Success?
    ensures r.Report? ==> r.tickers == ParseTickerList(tickers) && r.reportMarkdown == generate(r.tickers).value
    ensures r.ReportError? ==> r.status in {400, 500}
    ensures r.ReportError? && r.status == 500 ==> r.detail == ReportFailedDetail
  {
    var tickerList := ParseTickerList(tickers);
    if tickerList == [] then ReportError(400, NoTickersDetail)
    else
      match generate(tickerList)
      case Success(md) => Report(tickerList, md)
      case Failure(_) => ReportError(500, ReportFailedDetail)
  }
}
