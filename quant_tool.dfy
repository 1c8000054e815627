/** The fraud-risk pipeline of backend/quant_tool.py: the MERGE upsert into
    the `stocks` table keyed by ticker with its one-day freshness window, the
    filter keeping the 10-Ks of the latest and the prior fiscal year, and
    `run_pipeline` with its external services as parameters. */
module QuantTool {
  import opened Wrappers
  import opened PyStr
  import Sec

  /** `INTERVAL 1 DAY`, with timestamps in seconds. */
  const OneDay: int := 86400

  /** The four scores `quant_metrics` returns; they are only copied here. */
  datatype Scores = Scores(mScore: real, zScore: real, accrualsRatio: real, compositeFraudRiskScore: real)

  /** A row of the `stocks` table. */
  datatype StockRow = StockRow(ticker: string, companyName: string, scores: Scores, lastUpdated: int)

  predicate UniqueTickers(rows: seq<StockRow>) {
    forall i, j :: 0 <= i < j < |rows| ==> rows[i].ticker != rows[j].ticker
  }

  /** The row `ON t.Ticker = s.Ticker` matches, or -1. */
  function FindTicker(rows: seq<StockRow>, ticker: string): (k: int)
    ensures -1 <= k < |rows|
    ensures k == -1 <==> forall i :: 0 <= i < |rows| ==> rows[i].ticker != ticker
    ensures k >= 0 ==> rows[k].ticker == ticker && forall i :: 0 <= i < k ==> rows[i].ticker != ticker
    decreases |rows|
  {
    if rows == [] then -1
    else if rows[0].ticker == ticker then 0
    else
      var k := FindTicker(rows[1..], ticker);
      assert forall i :: 1 <= i < |rows| ==> rows[i] == rows[1..][i - 1];
      if k == -1 then -1 else k + 1
  }

  /** The table after the statement and the `rowcount` it reports. */
  datatype MergeResult = MergeResult(rows: seq<StockRow>, rowcount: nat)

  /** The MERGE statement of `upsert_to_databricks`, with `now` for
      `current_timestamp()`: insert when no row has the ticker, overwrite a
      row last updated more than a day ago, and leave a fresh row alone. */
  function Merge(rows: seq<StockRow>, ticker: string, companyName: string, scores: Scores, now: int): MergeResult {
    var source := StockRow(ticker, companyName, scores, now);
    var k := FindTicker(rows, ticker);
    if k == -1 then MergeResult(rows + [source], 1)
    else if rows[k].lastUpdated < now - OneDay then MergeResult(rows[k := source], 1)
    else MergeResult(rows, 0)
  }

  /** An absent ticker is inserted as one new row carrying the given values
      and `last_updated = now`. */
  lemma MergeInserts(rows: seq<StockRow>, ticker: string, companyName: string, scores: Scores, now: int)
    requires forall i :: 0 <= i < |rows| ==> rows[i].ticker != ticker
    ensures Merge(rows, ticker, companyName, scores, now) == MergeResult(rows + [StockRow(ticker, companyName, scores, now)], 1)
  {
  }

  /** A row of the ticker last updated more than a day ago gets every field
      overwritten, in place. */
  lemma MergeOverwritesStale(rows: seq<StockRow>, ticker: string, companyName: string, scores: Scores, now: int, k: nat)
    requires UniqueTickers(rows)
    requires k < |rows| && rows[k].ticker == ticker && rows[k].lastUpdated < now - OneDay
    ensures Merge(rows, ticker, companyName, scores, now) == MergeResult(rows[k := StockRow(ticker, companyName, scores, now)], 1)
  {
    assert FindTicker(rows, ticker) == k;
  }

  /** A row of the ticker updated within the last day is left as it is and
      the statement reports no row written. */
  lemma MergeSkipsFresh(rows: seq<StockRow>, ticker: string, companyName: string, scores: Scores, now: int, k: nat)
    requires UniqueTickers(rows)
    requires k < |rows| && rows[k].ticker == ticker && rows[k].lastUpdated >= now - OneDay
    ensures Merge(rows, ticker, companyName, scores, now) == MergeResult(rows, 0)
  {
    assert FindTicker(rows, ticker) == k;
  }

  /** Rows of other tickers keep their place and their values, the table
      grows by at most one row, and a new row carries the ticker. */
  lemma MergeKeepsOthers(rows: seq<StockRow>, ticker: string, companyName: string, scores: Scores, now: int)
    ensures var r := Merge(rows, ticker, companyName, scores, now).rows;
      && |rows| <= |r| <= |rows| + 1
      && (forall i :: 0 <= i < |rows| && rows[i].ticker != ticker ==> r[i] == rows[i])
      && (forall i :: |rows| <= i < |r| ==> r[i].ticker == ticker)
  {
  }

  /** Ticker keys stay unique. */
  lemma MergeUnique(rows: seq<StockRow>, ticker: string, companyName: string, scores: Scores, now: int)
    requires UniqueTickers(rows)
    ensures UniqueTickers(Merge(rows, ticker, companyName, scores, now).rows)
  {
    var k := FindTicker(rows, ticker);
    var r := Merge(rows, ticker, companyName, scores, now).rows;
    if k >= 0 {
      assert forall i :: 0 <= i < |r| ==> r[i].ticker == rows[i].ticker;
    }
  }

  /** The reported count is zero exactly when the table is unchanged. */
  lemma MergeRowcount(rows: seq<StockRow>, ticker: string, companyName: string, scores: Scores, now: int)
    ensures var m := Merge(rows, ticker, companyName, scores, now);
      m.rowcount == 0 <==> m.rows == rows
  {
    var m := Merge(rows, ticker, companyName, scores, now);
    var k := FindTicker(rows, ticker);
    if k >= 0 && rows[k].lastUpdated < now - OneDay {
      assert m.rows[k].lastUpdated != rows[k].lastUpdated;
    } else if k == -1 {
      assert |m.rows| != |rows|;
    }
  }

  /** After the statement the ticker has a row updated within the last day
      ("written today"), and when a row was written it is the new one. */
  lemma MergeLeavesFresh(rows: seq<StockRow>, ticker: string, companyName: string, scores: Scores, now: int)
    ensures var m := Merge(rows, ticker, companyName, scores, now);
      var k := FindTicker(m.rows, ticker);
      && k >= 0 && m.rows[k].lastUpdated >= now - OneDay
      && (m.rowcount == 1 ==> m.rows[k] == StockRow(ticker, companyName, scores, now))
  {
    var k := FindTicker(rows, ticker);
    var r := Merge(rows, ticker, companyName, scores, now).rows;
    if k == -1 {
      assert r[|rows|].ticker == ticker;
      assert FindTicker(r, ticker) == |rows|;
    } else {
      assert r[k].ticker == ticker;
      assert forall i :: 0 <= i < k ==> r[i] == rows[i];
      assert FindTicker(r, ticker) == k;
    }
  }

  /** Upserting the same ticker twice at the same instant writes nothing the
      second time, whatever values the second call carries. */
  lemma MergeIdempotent(rows: seq<StockRow>, ticker: string, companyName: string, scores: Scores, now: int,
                        companyName': string, scores': Scores)
    ensures var r := Merge(rows, ticker, companyName, scores, now).rows;
      Merge(r, ticker, companyName', scores', now) == MergeResult(r, 0)
  {
    MergeLeavesFresh(rows, ticker, companyName, scores, now);
  }

  /** Once a row was written, further upserts of the ticker within a day of
      it write nothing. */
  lemma MergeWithinDay(rows: seq<StockRow>, ticker: string, companyName: string, scores: Scores, now: int,
                       companyName': string, scores': Scores, later: int)
    requires Merge(rows, ticker, companyName, scores, now).rowcount == 1
    requires later <= now + OneDay
    ensures var r := Merge(rows, ticker, companyName, scores, now).rows;
      Merge(r, ticker, companyName', scores', later) == MergeResult(r, 0)
  {
    MergeLeavesFresh(rows, ticker, companyName, scores, now);
  }

  /** The `stocks` table, updated in place by the MERGE statement. */
  class StocksTable {
    var rows: seq<StockRow>

    predicate Valid()
      reads this
    {
      UniqueTickers(rows)
    }

    constructor ()
      ensures Valid() && rows == []
    {
      rows := [];
    }

    /** `upsert_to_databricks`: run the MERGE and report `cursor.rowcount`
        (zero when the row is already up to date). */
    method Upsert(ticker: string, companyName: string, scores: Scores, now: int) returns (rowcount: nat)
      requires Valid()
      modifies this
      ensures Valid()
      ensures MergeResult(rows, rowcount) == Merge(old(rows), ticker, companyName, scores, now)
    {
      var source := StockRow(ticker, companyName, scores, now);
      var k := FindTicker(rows, ticker);
      MergeUnique(rows, ticker, companyName, scores, now);
      if k == -1 {
        rows := rows + [source];
        rowcount := 1;
      } else if rows[k].lastUpdated < now - OneDay {
        rows := rows[k := source];
        rowcount := 1;
      } else {
        rowcount := 0;
      }
    }
  }

  // ---------------------------------------------------------------------------
  // The 10-Ks of the latest and the prior fiscal year
  // ---------------------------------------------------------------------------

  /** The exceptions that end `run_pipeline` early. */
  datatype Raised = SystemExitRaised | ValueErrorRaised | OtherRaised(message: string)

  /** `max(fy_list)` for a non-empty list of years. */
  function MaxYear(ts: seq<Sec.TenK>): (m: int)
    requires |ts| > 0
    ensures forall i :: 0 <= i < |ts| ==> ts[i].year <= m
    ensures exists i :: 0 <= i < |ts| && ts[i].year == m
    decreases |ts|
  {
    if |ts| == 1 then ts[0].year
    else
      var m := MaxYear(ts[..|ts| - 1]);
      assert forall i :: 0 <= i < |ts| - 1 ==> ts[..|ts| - 1][i] == ts[i];
      if ts[|ts| - 1].year > m then ts[|ts| - 1].year else m
  }

  predicate InLatestTwo(t: Sec.TenK, latest: int) {
    t.year == latest || t.year == latest - 1
  }

  /** `[tenk for tenk in ts if tenk["year"] in (latest, latest - 1)]`. */
  function KeepLatestTwo(ts: seq<Sec.TenK>, latest: int): (r: seq<Sec.TenK>)
    ensures |r| <= |ts|
    decreases |ts|
  {
    if ts == [] then []
    else
      var t := ts[|ts| - 1];
      KeepLatestTwo(ts[..|ts| - 1], latest) + (if InLatestTwo(t, latest) then [t] else [])
  }

  /** The 10-K list written as "10K_latest_and_prior"; `max` of an empty
      list raises `ValueError`. */
  function LatestAndPrior(ts: seq<Sec.TenK>): Result<seq<Sec.TenK>, Raised> {
    if ts == [] then Failure(ValueErrorRaised) else Success(KeepLatestTwo(ts, MaxYear(ts)))
  }

  /** The filter works piece by piece, so it keeps the original order. */
  lemma {:induction false} KeepLatestTwoAppend(a: seq<Sec.TenK>, b: seq<Sec.TenK>, latest: int)
    ensures KeepLatestTwo(a + b, latest) == KeepLatestTwo(a, latest) + KeepLatestTwo(b, latest)
    decreases |b|
  {
    if b == [] {
      assert a + b == a;
    } else {
      var b' := b[..|b| - 1];
      assert (a + b)[..|a + b| - 1] == a + b';
      assert (a + b)[|a + b| - 1] == b[|b| - 1];
      KeepLatestTwoAppend(a, b', latest);
    }
  }

  /** The filter keeps exactly the entries of the two years, each from the
      input. */
  lemma {:induction false} KeepLatestTwoMembers(ts: seq<Sec.TenK>, latest: int)
    ensures forall t :: t in KeepLatestTwo(ts, latest) <==> t in ts && InLatestTwo(t, latest)
    decreases |ts|
  {
    if ts != [] {
      var init := ts[..|ts| - 1];
      KeepLatestTwoMembers(init, latest);
      assert ts == init + [ts[|ts| - 1]];
    }
  }

  /** With a non-empty 10-K list the result is the sublist of the entries
      of the latest year and the year before, and it holds at least the
      latest year's entry. */
  lemma LatestAndPriorSpec(ts: seq<Sec.TenK>)
    ensures LatestAndPrior(ts).Failure? <==> ts == []
    ensures ts != [] ==> var r := LatestAndPrior(ts).value;
      var m := MaxYear(ts);
      && |r| >= 1
      && (forall t :: t in r <==> t in ts && (t.year == m || t.year == m - 1))
  {
    if ts != [] {
      var m := MaxYear(ts);
      KeepLatestTwoMembers(ts, m);
      var i :| 0 <= i < |ts| && ts[i].year == m;
      assert ts[i] in KeepLatestTwo(ts, m);
    }
  }

  /** The number of entries of year `y`. */
  function CountYear(ts: seq<Sec.TenK>, y: int): nat
    decreases |ts|
  {
    if ts == [] then 0 else CountYear(ts[..|ts| - 1], y) + (if ts[|ts| - 1].year == y then 1 else 0)
  }

  lemma {:induction false} CountYearNone(ts: seq<Sec.TenK>, y: int)
    requires forall i :: 0 <= i < |ts| ==> ts[i].year != y
    ensures CountYear(ts, y) == 0
    decreases |ts|
  {
    if ts != [] {
      CountYearNone(ts[..|ts| - 1], y);
    }
  }

  lemma {:induction false} CountYearDistinct(ts: seq<Sec.TenK>, y: int)
    requires Sec.DistinctYears(ts)
    ensures CountYear(ts, y) <= 1
    decreases |ts|
  {
    if ts != [] {
      var init := ts[..|ts| - 1];
      CountYearDistinct(init, y);
      if ts[|ts| - 1].year == y {
        CountYearNone(init, y);
      }
    }
  }

  lemma {:induction false} CountLatestTwo(ts: seq<Sec.TenK>, m: int)
    requires forall i :: 0 <= i < |ts| ==> InLatestTwo(ts[i], m)
    ensures |ts| == CountYear(ts, m) + CountYear(ts, m - 1)
    decreases |ts|
  {
    if ts != [] {
      CountLatestTwo(ts[..|ts| - 1], m);
    }
  }

  /** When the 10-Ks are of pairwise distinct years, as `process_block`
      keeps them, at most two are kept. */
  lemma LatestAndPriorAtMostTwo(ts: seq<Sec.TenK>)
    requires ts != [] && Sec.DistinctYears(ts)
    ensures |LatestAndPrior(ts).value| <= 2
  {
    var m := MaxYear(ts);
    var r := KeepLatestTwo(ts, m);
    KeepLatestTwoDistinct(ts, m);
    CountLatestTwo(r, m);
    CountYearDistinct(r, m);
    CountYearDistinct(r, m - 1);
  }

  /** The filter keeps distinct years distinct. */
  lemma {:induction false} KeepLatestTwoDistinct(ts: seq<Sec.TenK>, latest: int)
    requires Sec.DistinctYears(ts)
    ensures Sec.DistinctYears(KeepLatestTwo(ts, latest))
    ensures forall i :: 0 <= i < |KeepLatestTwo(ts, latest)| ==> InLatestTwo(KeepLatestTwo(ts, latest)[i], latest)
    decreases |ts|
  {
    if ts != [] {
      var init := ts[..|ts| - 1];
      var t := ts[|ts| - 1];
      KeepLatestTwoDistinct(init, latest);
      KeepLatestTwoMembers(init, latest);
      var p := KeepLatestTwo(init, latest);
      forall i | 0 <= i < |p|
        ensures p[i].year != t.year
      {
        assert p[i] in init;
        var j :| 0 <= j < |init| && init[j] == p[i];
        assert ts[j] == p[i];
      }
    }
  }

  // ---------------------------------------------------------------------------
  // run_pipeline
  // ---------------------------------------------------------------------------

  /** What `sec.get_cik_from_ticker` returns for a match. */
  datatype Resolved = Resolved(cik: string, officialName: string, ticker: string)

  /** A nested value of the `quant_metrics` result that is passed on
      unread (`short_interest`, `insider_trading`), as its JSON text. */
  datatype Detail = Detail(json: string)

  /** What `quant_metrics` returns: the four scores the table stores and the
      two nested values the API responses carry. */
  datatype Metrics = Metrics(scores: Scores, shortInterest: Detail, insiderTrading: Detail)

  /** The services `run_pipeline` calls, as parameters: the ticker lookup
      (`get_cik_from_ticker`, `None` for no match), `fetch_json`,
      `enrich_with_metrics`, what `process_form4_insiders` raises (if
      anything), `quant_metrics`, what `get_connection` or `ensure_table`
      raises (if anything), `os.path.exists` and the two clocks. */
  datatype Services = Services(
    resolve: string -> Option<Resolved>,
    fetch: string -> Result<Sec.Block, Sec.FetchError>,
    enrich: (string, Sec.Collected, string) -> Result<Sec.Collected, Raised>,
    insiders: string -> Option<Raised>,
    metrics: string -> Result<Metrics, Raised>,
    database: Option<Raised>,
    fileExists: string -> bool,
    today: Sec.Date,
    now: int)

  /** The externally visible steps of a run, in order. */
  datatype Step =
    | LookUp(query: string)
    | FetchFilings(cik: string)
    | SaveSecJson(path: string, latestAndPrior: seq<Sec.TenK>, eightK: seq<Sec.Filing>, form4: seq<Sec.Filing>)
    | FetchInsiders(ticker: string)
    | ComputeMetrics(ticker: string)
    | UpsertRow(ticker: string, rowcount: nat)

  datatype Outcome = Completed(ticker: string, officialName: string, results: Metrics) | Aborted(raised: Raised)

  /** `if not cik`: no match, or an empty CIK. */
  predicate Unresolved(r: Option<Resolved>) {
    r.None? || r.value.cik == []
  }

  /** What `fetch_json` raising means to the callers of `run_pipeline`: a JSON
      decoding error is a `ValueError`, any other failure an ordinary
      exception carrying its message. */
  function FetchRaised(e: Sec.FetchError): (r: Raised)
    ensures r == ValueErrorRaised <==> e.InvalidJson?
    ensures r != SystemExitRaised
    ensures r.OtherRaised? ==> r.message == e.message
  {
    match e
    case InvalidJson(_) => ValueErrorRaised
    case RequestFailed(message) => OtherRaised(message)
  }

  /** The ticker resolves and its SEC JSON is absent, so the filings are
      fetched. */
  predicate FetchesFilings(tickerInput: string, svc: Services) {
    var found := svc.resolve(Upper(tickerInput));
    !Unresolved(found) && !svc.fileExists(found.value.ticker + "_SEC.json")
  }

  /** The steps one stage of a run adds, and what it raised. */
  datatype Stage = Stage(steps: seq<Step>, raised: Option<Raised>)

  /** Step 2 of `run_pipeline` for a resolved ticker, given what
      `get_required_filings` returned: fetch, enrich, filter the 10-Ks and
      save, unless the SEC JSON exists. */
  function SecStage(res: Resolved, svc: Services, filings: Result<Sec.Collected, Sec.FetchError>): Stage {
    var path := res.ticker + "_SEC.json";
    if svc.fileExists(path) then Stage([], None)
    else if filings.Failure? then Stage([FetchFilings(res.cik)], Some(FetchRaised(filings.error)))
    else
      var enriched := svc.enrich(res.cik, filings.value, res.ticker);
      if enriched.Failure? then Stage([FetchFilings(res.cik)], Some(enriched.error))
      else
        var kept := LatestAndPrior(enriched.value.tenK);
        if kept.Failure? then Stage([FetchFilings(res.cik)], Some(kept.error))
        else Stage([FetchFilings(res.cik),
                    SaveSecJson(path, kept.value, enriched.value.eightK, enriched.value.form4)], None)
  }

  /** Step 3: fetch the insider data unless its JSON exists. */
  function InsiderStage(res: Resolved, svc: Services): Stage {
    if svc.fileExists(res.ticker + "_insider_data.json") then Stage([], None)
    else Stage([FetchInsiders(res.ticker)], svc.insiders(res.ticker))
  }

  /** A whole run: its outcome, its steps and the table afterwards. */
  datatype PipelineRun = PipelineRun(outcome: Outcome, steps: seq<Step>, rows: seq<StockRow>)

  /** `run_pipeline` on the table `rows`, given what `get_required_filings`
      returned when it is called: resolve the upper-cased ticker (exit when
      it is unknown), the SEC stage, the insider stage, the metrics, the
      connection, and the MERGE. The first exception ends the run with the
      table untouched. */
  function Pipeline(tickerInput: string, svc: Services, filings: Result<Sec.Collected, Sec.FetchError>,
                    rows: seq<StockRow>): PipelineRun
  {
    var query := Upper(tickerInput);
    var found := svc.resolve(query);
    if Unresolved(found) then PipelineRun(Aborted(SystemExitRaised), [LookUp(query)], rows)
    else
      var res := found.value;
      var sec := SecStage(res, svc, filings);
      if sec.raised.Some? then PipelineRun(Aborted(sec.raised.value), [LookUp(query)] + sec.steps, rows)
      else InsiderAndMetricsStages(res, svc, [LookUp(query)] + sec.steps, rows)
  }

  /** Steps 3 to 5, after the steps `before`. */
  function InsiderAndMetricsStages(res: Resolved, svc: Services, before: seq<Step>, rows: seq<StockRow>): PipelineRun {
    var insiders := InsiderStage(res, svc);
    if insiders.raised.Some? then PipelineRun(Aborted(insiders.raised.value), before + insiders.steps, rows)
    else MetricsStage(res, svc, before + insiders.steps, rows)
  }

  /** Steps 4 and 5, after the steps `before`: compute the metrics, connect,
      and MERGE them into `rows`. */
  function MetricsStage(res: Resolved, svc: Services, before: seq<Step>, rows: seq<StockRow>): PipelineRun {
    var computed := before + [ComputeMetrics(res.ticker)];
    var results := svc.metrics(res.ticker);
    if results.Failure? then PipelineRun(Aborted(results.error), computed, rows)
    else if svc.database.Some? then PipelineRun(Aborted(svc.database.value), computed, rows)
    else
      var merged := Merge(rows, res.ticker, res.officialName, results.value.scores, svc.now);
      PipelineRun(Completed(res.ticker, res.officialName, results.value),
                  computed + [UpsertRow(res.ticker, merged.rowcount)], merged.rows)
  }

  /** Every run starts with the lookup of the upper-cased ticker, and an
      unknown ticker exits before anything else, with the table untouched. */
  lemma PipelineLooksUpFirst(tickerInput: string, svc: Services, filings: Result<Sec.Collected, Sec.FetchError>,
                             rows: seq<StockRow>)
    ensures var run := Pipeline(tickerInput, svc, filings, rows);
      |run.steps| >= 1 && run.steps[0] == LookUp(Upper(tickerInput))
      && (Unresolved(svc.resolve(Upper(tickerInput))) <==> run.steps == [LookUp(Upper(tickerInput))])
      && (Unresolved(svc.resolve(Upper(tickerInput))) ==> run.outcome == Aborted(SystemExitRaised) && run.rows == rows)
  {
  }

  /** An aborted run leaves the table unchanged. */
  lemma PipelineAbortKeepsTable(tickerInput: string, svc: Services, filings: Result<Sec.Collected, Sec.FetchError>,
                                rows: seq<StockRow>)
    ensures Pipeline(tickerInput, svc, filings, rows).outcome.Aborted? ==> Pipeline(tickerInput, svc, filings, rows).rows == rows
  {
  }

  /** A completed run returns the lookup's ticker and name and the metrics,
      found the database reachable, and ends with the MERGE of the old
      table, which is the table afterwards. */
  lemma PipelineCompleted(tickerInput: string, svc: Services, filings: Result<Sec.Collected, Sec.FetchError>,
                          rows: seq<StockRow>)
    requires Pipeline(tickerInput, svc, filings, rows).outcome.Completed?
    ensures var run := Pipeline(tickerInput, svc, filings, rows);
      var res := svc.resolve(Upper(tickerInput)).value;
      var merged := Merge(rows, res.ticker, res.officialName, run.outcome.results.scores, svc.now);
      && !Unresolved(svc.resolve(Upper(tickerInput)))
      && run.outcome.ticker == res.ticker && run.outcome.officialName == res.officialName
      && svc.metrics(res.ticker) == Success(run.outcome.results) && svc.database.None?
      && run.rows == merged.rows
      && run.steps[|run.steps| - 1] == UpsertRow(res.ticker, merged.rowcount)
  {
  }

  /** When the filings are fetched and enriched, the saved JSON holds the
      10-Ks of the latest and the prior fiscal year of the enriched list and
      its 8-K and Form 4 lists as they are; an empty 10-K list raises
      `ValueError` before anything is saved. */
  lemma PipelineSavesLatestAndPrior(tickerInput: string, svc: Services, filings: Result<Sec.Collected, Sec.FetchError>,
                                    rows: seq<StockRow>)
    requires FetchesFilings(tickerInput, svc) && filings.Success?
    ensures var run := Pipeline(tickerInput, svc, filings, rows);
      var res := svc.resolve(Upper(tickerInput)).value;
      var enriched := svc.enrich(res.cik, filings.value, res.ticker);
      && |run.steps| >= 2 && run.steps[1] == FetchFilings(res.cik)
      && (enriched.Success? && enriched.value.tenK == [] ==>
            run.outcome == Aborted(ValueErrorRaised) && run.steps == [LookUp(Upper(tickerInput)), FetchFilings(res.cik)])
      && (enriched.Success? && enriched.value.tenK != [] ==>
            |run.steps| >= 3
            && run.steps[2] == SaveSecJson(res.ticker + "_SEC.json",
                                           KeepLatestTwo(enriched.value.tenK, MaxYear(enriched.value.tenK)),
                                           enriched.value.eightK, enriched.value.form4))
  {
  }

  /** A failed fetch ends the run right after the fetch step: a JSON
      decoding error as `ValueError`, any other failure with its message. */
  lemma PipelineFetchFails(tickerInput: string, svc: Services, filings: Result<Sec.Collected, Sec.FetchError>,
                           rows: seq<StockRow>)
    requires FetchesFilings(tickerInput, svc) && filings.Failure?
    ensures var run := Pipeline(tickerInput, svc, filings, rows);
      var res := svc.resolve(Upper(tickerInput)).value;
      && run.steps == [LookUp(Upper(tickerInput)), FetchFilings(res.cik)]
      && run.outcome == Aborted(FetchRaised(filings.error))
      && (filings.error.InvalidJson? <==> run.outcome == Aborted(ValueErrorRaised))
  {
  }

  /** With the SEC JSON present nothing is fetched or saved, whatever the
      filings would have been. */
  lemma PipelineCachedFilings(tickerInput: string, svc: Services, filings: Result<Sec.Collected, Sec.FetchError>,
                              other: Result<Sec.Collected, Sec.FetchError>, rows: seq<StockRow>)
    requires !Unresolved(svc.resolve(Upper(tickerInput)))
    requires svc.fileExists(svc.resolve(Upper(tickerInput)).value.ticker + "_SEC.json")
    ensures var run := Pipeline(tickerInput, svc, filings, rows);
      && run == Pipeline(tickerInput, svc, other, rows)
      && forall i :: 0 <= i < |run.steps| ==> !run.steps[i].FetchFilings? && !run.steps[i].SaveSecJson?
  {
  }

  /** `filings` is what `get_required_filings` returns for `cik` after
      fetching `urls`, as its contract states it. */
  ghost predicate FilingsFetched(svc: Services, cik: string, filings: Result<Sec.Collected, Sec.FetchError>,
                                 urls: seq<string>) {
    && Sec.FetchLog(svc.fetch, cik, urls, svc.today)
    && (filings.Failure? <==> svc.fetch(urls[|urls| - 1]).Failure?)
    && (filings.Failure? ==> filings.error == svc.fetch(urls[|urls| - 1]).error)
    && (filings.Success? ==> filings.value == Sec.Finalize(Sec.Collect(svc.fetch, urls, svc.today)))
  }

  /** Step 2 of `run_pipeline` for a resolved ticker: unless the SEC JSON
      exists, fetch the filings, enrich them and keep the 10-Ks of the
      latest and the prior fiscal year. `filings` and `urls` are what
      `get_required_filings` returned and fetched when it was called. */
  method RunSecStage(res: Resolved, svc: Services)
    returns (stage: Stage, ghost filings: Result<Sec.Collected, Sec.FetchError>, ghost urls: seq<string>)
    ensures stage == SecStage(res, svc, filings)
    ensures !svc.fileExists(res.ticker + "_SEC.json") ==> FilingsFetched(svc, res.cik, filings, urls)
  {
    filings, urls := Failure(Sec.RequestFailed("")), [];
    var path := res.ticker + "_SEC.json";
    if svc.fileExists(path) {
      return Stage([], None), filings, urls;
    }
    var got, fetched := Sec.GetRequiredFilings(res.cik, svc.fetch, svc.today);
    filings, urls := got, fetched;
    if got.Failure? {
      return Stage([FetchFilings(res.cik)], Some(FetchRaised(got.error))), filings, urls;
    }
    var enriched := svc.enrich(res.cik, got.value, res.ticker);
    if enriched.Failure? {
      return Stage([FetchFilings(res.cik)], Some(enriched.error)), filings, urls;
    }
    var kept := LatestAndPrior(enriched.value.tenK);
    if kept.Failure? {
      return Stage([FetchFilings(res.cik)], Some(kept.error)), filings, urls;
    }
    stage := Stage([FetchFilings(res.cik), SaveSecJson(path, kept.value, enriched.value.eightK, enriched.value.form4)], None);
  }

  /** `run_pipeline`: the run `Pipeline` describes, with `filings` and `urls`
      what `get_required_filings` returned and fetched when it was called. */
  method RunPipeline(tickerInput: string, svc: Services, table: StocksTable)
    returns (outcome: Outcome, steps: seq<Step>, ghost filings: Result<Sec.Collected, Sec.FetchError>, ghost urls: seq<string>)
    requires table.Valid()
    modifies table
    ensures table.Valid()
    ensures PipelineRun(outcome, steps, table.rows) == Pipeline(tickerInput, svc, filings, old(table.rows))
    ensures FetchesFilings(tickerInput, svc) ==>
      FilingsFetched(svc, svc.resolve(Upper(tickerInput)).value.cik, filings, urls)
  {
    var query := Upper(tickerInput);
    steps := [LookUp(query)];
    filings, urls := Failure(Sec.RequestFailed("")), [];
    var found := svc.resolve(query);
    if Unresolved(found) {
      return Aborted(SystemExitRaised), steps, filings, urls;
    }
    var res := found.value;
    var sec;
    sec, filings, urls := RunSecStage(res, svc);
    steps := steps + sec.steps;
    if sec.raised.Some? {
      return Aborted(sec.raised.value), steps, filings, urls;
    }
    outcome, steps := RunInsiderAndMetricsStages(res, svc, steps, table);
  }

  /** Steps 3 to 5 of `run_pipeline`: `process_form4_insiders` unless its JSON
      exists, then the metrics and the upsert. */
  method RunInsiderAndMetricsStages(res: Resolved, svc: Services, before: seq<Step>, table: StocksTable)
    returns (outcome: Outcome, steps: seq<Step>)
    requires table.Valid()
    modifies table
    ensures table.Valid()
    ensures PipelineRun(outcome, steps, table.rows) == InsiderAndMetricsStages(res, svc, before, old(table.rows))
  {
    steps := before;
    if !svc.fileExists(res.ticker + "_insider_data.json") {
      steps := steps + [FetchInsiders(res.ticker)];
      var raised := svc.insiders(res.ticker);
      if raised.Some? {
        return Aborted(raised.value), steps;
      }
    }
    outcome, steps := RunMetricsStage(res, svc, steps, table);
  }

  /** Steps 4 and 5 of `run_pipeline`: `quant_metrics`, the connection and
      `upsert_to_databricks`. */
  method RunMetricsStage(res: Resolved, svc: Services, before: seq<Step>, table: StocksTable)
    returns (outcome: Outcome, steps: seq<Step>)
    requires table.Valid()
    modifies table
    ensures table.Valid()
    ensures PipelineRun(outcome, steps, table.rows) == MetricsStage(res, svc, before, old(table.rows))
  {
    steps := before + [ComputeMetrics(res.ticker)];
    var results := svc.metrics(res.ticker);
    if results.Failure? {
      return Aborted(results.error), steps;
    }
    if svc.database.Some? {
      return Aborted(svc.database.value), steps;
    }
    var rowcount := table.Upsert(res.ticker, res.officialName, results.value.scores, svc.now);
    steps := steps + [UpsertRow(res.ticker, rowcount)];
    outcome := Completed(res.ticker, res.officialName, results.value);
  }
}
