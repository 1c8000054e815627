# Fraud-risk analysis backend: a verified model

This project models the control flow and bookkeeping of a small financial
analysis backend: a multi-agent report generator (an orchestrator that
delegates to a sentiment agent and a quant agent), the selection of SEC
EDGAR filings for a company, the per-ticker score table kept in Databricks,
and the HTTP endpoints that parse ticker lists and sort each ticker into
results or errors.

The model is written in Dafny and proved with the Dafny verifier. Nothing
in it is executed.

- `wrappers.dfy` (module `Wrappers`): `Option` and `Result`.
- `pystr.dfy` (module `PyStr`): the Python string operations the backend
  uses. These are `strip`, `split(',')`, `split()`, `splitlines`,
  `upper`/`lower`, `join`, `in` on strings and `zfill`, each with the
  properties the callers rely on.
- `messages.dfy` (module `Messages`): chat messages and `extract_text`.
- `workflow.dfy` (module `Workflow`): the LangGraph state machine.
  - The reducers of `AgentState`.
  - The sub-agent loop (`agent` ⇄ `tools`), capped at 8 tool rounds.
  - `_run_sub_agent` and the two worker nodes.
  - `route_after_orchestrator`.
  - The orchestrator loop, capped at 10 delegations.
  - `chat` and its final-reply choice, `generate_report` and `parse_stock_input`.

  Every model call is an oracle: a function parameter that maps the message
  list to a reply, which may carry tool calls. Each tool is an oracle too.
- `sec.dfy` (module `Sec`):
  - `process_block` as a method on a `FilingState` class, whose fields are
    the lists the source appends to;
  - `requirements_met`;
  - `get_required_filings`, with its paging loop and early `break`, then
    the sort and the truncation;
  - `get_cik_from_company_name`.

  `fetch_json` is an oracle that returns a block or a failure, kept apart
  as a request failure (with its message) or invalid JSON, which Python
  raises as a `ValueError`.
- `quant_tool.dfy` (module `QuantTool`):
  - the MERGE statement of `upsert_to_databricks`, as a function on a list
    of rows and as a method on a `StocksTable` class;
  - the latest/prior fiscal-year 10-K filter;
  - `run_pipeline`, which returns the steps it takes, proved against a
    function `Pipeline` of the ticker, the services and the table. Ticker
    lookup, filing fetch, enrichment, the Form 4 step, the metrics, the
    database connection and the file-existence checks are oracles, and
    each of the ones that can raise returns either its value or the
    exception it raised.
- `api.dfy` (module `Api`): the endpoints of `main.py`:
  - ticker-list parsing;
  - the batch loop that sorts tickers into results and errors;
  - the 400 and 422 rules;
  - the 404/500 mapping of the single-ticker endpoints;
  - the report endpoint.

Dates are `Date(year, month, day)` values.
- "At least a year old" compares proleptic Gregorian day numbers, as
  `datetime` does: the filing date must be at most the day number of today
  minus 365.
- Sorting by `filing_date` uses the key `year*10000 + month*100 + day`. For
  valid dates this orders like the `YYYY-MM-DD` text.
- Database timestamps are integer seconds, and one day is 86400.

Where the written description of the system and the code disagree, the
model follows the code:
- The router knows two tokens and two workers, not three. It does not skip
  a worker that has already run.
- With no token the router goes to `END` even when sub-agent replies exist.
  The synthesis node is reached only through the delegation cap.
- The caps are 10 delegations and 8 tool rounds.
- A worker's sub-agent sees the whole message list, not only the user's
  messages.
- `run_pipeline` calls `get_cik_from_ticker`, `enrich_with_metrics` and
  `process_form4_insiders`. These are not in `backend/sec.py`, so they are
  not part of this model; they are oracles.

## Model

| member | source | states |
|---|---|---|
| PyStr.Strip | backend/langchainWorkflow.py:369 | The result has no leading or trailing whitespace (Python's `isspace` set), is no longer than the input, and is empty exactly when every character is whitespace |
| PyStr.StripSlice | backend/langchainWorkflow.py:369 | The result is one slice of the input, and everything before and after that slice is whitespace |
| PyStr.StrippedFixpoint | backend/langchainWorkflow.py:522 | Stripping a string that is already stripped changes nothing |
| PyStr.StripIdempotent | backend/langchainWorkflow.py:522 | Stripping twice is stripping once |
| PyStr.StripKeeps | backend/main.py:268 | Stripping adds no character |
| PyStr.StripSpacePrefix | backend/langchainWorkflow.py:522 | A space in front of a non-empty stripped string is removed by strip |
| PyStr.StripNonEmpty | backend/langchainWorkflow.py:522 | `[s.strip() for s in parts if s.strip()]`: at most as many items as pieces, and every item is non-empty and stripped |
| PyStr.StripNonEmptyFree | backend/main.py:268 | No item of the comprehension holds a character that no piece holds |
| PyStr.StripNonEmptyAppend | backend/main.py:268 | The comprehension works piece by piece: it distributes over concatenation |
| PyStr.StripNonEmptyBlank | backend/main.py:268-270 | The comprehension is empty exactly when every piece strips to the empty string |
| PyStr.StripNonEmptyFixpoint | backend/langchainWorkflow.py:524 | Non-empty stripped items pass through unchanged |
| PyStr.Split | backend/langchainWorkflow.py:522 | `s.split(sep)` gives at least one piece, no piece holds the separator, and joining the pieces with the separator gives `s` back |
| PyStr.SplitJoin | backend/main.py:268 | Splitting the join of separator-free pieces gives the pieces back |
| PyStr.SplitPrefix | backend/langchainWorkflow.py:522 | A separator-free prefix extends the first piece and leaves the rest alone |
| PyStr.TakeWord | backend/langchainWorkflow.py:523 | The first word is a whitespace-free prefix, ended by whitespace or by the end of the string |
| PyStr.Words | backend/langchainWorkflow.py:523 | `s.split()`: every word is non-empty and whitespace-free |
| PyStr.WordsJoin | backend/langchainWorkflow.py:523 | Splitting space-joined words gives the words back |
| PyStr.WordsStart | backend/langchainWorkflow.py:523 | A word followed by whitespace or by the end becomes the first item |
| PyStr.WordsSpace | backend/langchainWorkflow.py:523 | Leading whitespace produces no word |
| PyStr.FirstBreak | backend/langchainWorkflow.py:368 | The index of the first line boundary, with no boundary before it |
| PyStr.SplitLines | backend/langchainWorkflow.py:368 | `splitlines()`: no line holds a line boundary |
| PyStr.SplitLinesJoin | backend/langchainWorkflow.py:368 | Non-empty-ended lines without line boundaries, joined with newlines, split back into those lines |
| Workflow.NoBreakFirstBreak | backend/langchainWorkflow.py:368 | A string without line boundaries has its first boundary at its end |
| PyStr.UpperIsUpper | backend/main.py:268 | `upper()` leaves no lower-case letter and is idempotent |
| PyStr.UpperFixpoint | backend/main.py:317 | An upper-case string is its own `upper()` |
| PyStr.UpperKeepsOthers | backend/main.py:268 | A character that is not a letter occurs in `upper(s)` exactly when it occurs in `s` |
| PyStr.UpperKeepsStripped | backend/main.py:268 | `upper()` keeps a string stripped, and non-empty when it was non-empty |
| PyStr.ContainsAt | backend/sec.py:29 | A string holding the needle at some index contains it |
| PyStr.NatToString | backend/sec.py:30 | `str(n)` is a non-empty run of digits without a leading zero |
| PyStr.NatToStringValue | backend/sec.py:30 | The digits of `str(n)` denote `n` |
| PyStr.ZFill | backend/sec.py:30 | `zfill(width)` pads to `width`, or leaves longer strings as they are |
| PyStr.PaddedNumber | backend/sec.py:30 | `str(n).zfill(w)` holds only digits, is at least `w` long, is exactly `w` long when `str(n)` fits, and still denotes `n` |
| Messages.ExtractText | backend/langchainWorkflow.py:27-44 | The loop over the blocks returns the normalised text: a string unchanged, the text blocks and bare strings of a list joined with newlines in order, and `str()` of any other value or `""` when it is falsy |
| Messages.TextPartsAppend | backend/langchainWorkflow.py:38-42 | Each block contributes on its own and in order: the parts of a concatenation are the concatenated parts |
| Messages.DroppedBlock | backend/langchainWorkflow.py:38-42 | Inserting a block that is neither a dict with "text" nor a string anywhere leaves the text unchanged |
| Messages.TextBlocksParts | backend/langchainWorkflow.py:39-40 | A list of text blocks gives back exactly their texts |
| Messages.BlocksMatchString | backend/langchainWorkflow.py:34-43 | A list of text blocks normalises to the same text as the single string that joins them with newlines |
| Messages.NormalizedTextSplits | backend/langchainWorkflow.py:43 | When no part holds a newline, splitting the normalised text on newlines gives the parts back |
| Workflow.Apply | backend/langchainWorkflow.py:137-141 | The reducers append the update's messages and add its counters |
| Workflow.ApplyTwice | backend/langchainWorkflow.py:137-141 | Two updates in a row amount to one merged update |
| Workflow.ToolsNode | backend/langchainWorkflow.py:181-185 | The tools node answers every tool call of the last message with one tool message, and its update adds exactly 1 to `tool_iterations` |
| Workflow.ShouldContinueSpec | backend/langchainWorkflow.py:169-179 | The tools run exactly when the count is below 8 and the last message requests tool calls: the cap is checked first |
| Workflow.InvokeSubAgent | backend/langchainWorkflow.py:161-194 | The loop ends in the state the compiled sub-agent graph defines (`SubAgentRun`: the agent node, then tools and agent again while `should_continue` says "tools"); it starts from 0 tool rounds, always makes its first model call, runs at most 8 tool rounds with one model call after each, only appends, and ends on the message the agent's model returns for the system prompt and everything before; a tool request is left unanswered only at the cap |
| Workflow.LastAIIndex | backend/langchainWorkflow.py:325 | The index of the last AI message, or -1 when there is none |
| Workflow.SubAgentReply | backend/langchainWorkflow.py:320-331 | One AI message named "sub_agent", with no tool calls, holding the normalised text of the last AI message, or "Sub-agent produced no response." when there is none |
| Workflow.SubAgentReplyFallback | backend/langchainWorkflow.py:326-330 | The fallback text is used when no AI message exists, and otherwise the text of the last AI message |
| Workflow.WorkerNode | backend/langchainWorkflow.py:320-346 | A worker node runs its own sub-agent (research or quant, by worker) on the whole message list, giving exactly the run of that sub-agent's graph, and returns one message named "sub_agent" with the text of the sub-agent's final model message, adding exactly 1 to `delegation_count` |
| Workflow.FirstDirective | backend/langchainWorkflow.py:368-375 | The index of the first line that carries a directive, with none before it |
| Workflow.RouterCap | backend/langchainWorkflow.py:360-365 | At the delegation cap the router never picks a worker; it picks synthesis exactly when some message is named "sub_agent", otherwise END |
| Workflow.SynthesizeOnlyAtCap | backend/langchainWorkflow.py:349-382 | Synthesis is reached only at the cap and only with a sub-agent reply present |
| Workflow.RouterFallback | backend/langchainWorkflow.py:377-382 | Below the cap, with no line that strips to exactly a token, the router ends whether or not sub-agent replies exist |
| Workflow.FirstTokenIs | backend/langchainWorkflow.py:368-375 | The first directive line carries a directive exactly when that directive's line comes before any line of the other directive |
| Workflow.FirstDirectiveOf | backend/langchainWorkflow.py:368-375 | A directive whose line precedes every line of the other directive is the one found first |
| Workflow.RouterTokens | backend/langchainWorkflow.py:367-375 | Below the cap the router picks the sentiment worker (or the quant worker) exactly when the first exact token line names it |
| Workflow.WorkerOnlyBelowCap | backend/langchainWorkflow.py:359-375 | A worker is picked only below the delegation cap |
| Workflow.ContainedTokenIsIgnored | backend/langchainWorkflow.py:368-375 | A one-line reply that merely contains a token, without stripping to exactly that token, ends the run |
| Workflow.RunGraph | backend/langchainWorkflow.py:420-445 | The final state and the routes are those of the compiled orchestrator graph (`GraphRun`: the orchestrator node, then, while the router picks a worker, that worker's node and the orchestrator again; synthesis then END, or END); moreover every route but the last is a worker, the last is not, there are at most 10 delegations, synthesis comes only after 10, each delegation adds one "sub_agent" message, the initial messages are kept as a prefix, and the run ends on a model message |
| Workflow.WorkerTurns | backend/langchainWorkflow.py:427-440 | The worker loop stops on the first non-worker route, having taken only worker routes before it, one per delegation and at most 10, keeping the graph's shape, and what remains of the run is the rest of the graph's run |
| Workflow.GraphEnds | backend/langchainWorkflow.py:427-441 | Ending on a non-worker route, with or without synthesis, gives the route count, the delegation bound and the message shape `RunGraph` promises |
| Workflow.SynthesisAppends | backend/langchainWorkflow.py:383-414 | The synthesis node appends one unnamed model message and changes no counter |
| Workflow.GraphShapeStep | backend/langchainWorkflow.py:439-440 | A worker turn followed by an orchestrator turn keeps the prefix, adds one "sub_agent" message per delegation and ends on a model message |
| Workflow.ContinuesRunStep | backend/langchainWorkflow.py:427-440 | After a worker route and the next orchestrator turn, the rest of the graph's run continues from the new state |
| Workflow.ContinuesRunEnd | backend/langchainWorkflow.py:427-441 | On a non-worker route the graph's run ends there: synthesis when the route is synthesize, otherwise the state as it is |
| Workflow.Delegate | backend/langchainWorkflow.py:439-440 | One worker turn applies that worker's node update (`WorkerUpdate`): it appends one "sub_agent" message and adds 1 delegation |
| Workflow.Orchestrate | backend/langchainWorkflow.py:310-317 | One orchestrator turn appends one unnamed model message and leaves the counters alone |
| Workflow.FinalReplySkipsNamed | backend/langchainWorkflow.py:466-470 | The reply `chat` picks skips named messages at the end and returns the text of the last model message |
| Workflow.LastUnnamedAIIndex | backend/langchainWorkflow.py:467-468 | The index of the last AI message without a name, or -1 when there is none |
| Workflow.Chat | backend/langchainWorkflow.py:452-470 | `chat` runs the orchestrator graph (`GraphRun`) on the history plus the user's message, which stay as a prefix, with at most 10 worker runs; it ends the run on a model message and returns that message's text |
| Workflow.GenerateReport | backend/langchainWorkflow.py:491-508 | The report is the text of the last message of the orchestrator graph's run (`GraphRun`) on the one message holding the prompt around the inputs joined with ", " |
| Workflow.ParseStockInput | backend/langchainWorkflow.py:511-524 | Every item is non-empty and stripped; with a comma in the input no item holds a comma, and without one no item holds whitespace |
| Workflow.CommaRoundTrip | backend/langchainWorkflow.py:521-522 | Two or more clean, comma-free items joined with ", " parse back to those items |
| Workflow.TightCommaRoundTrip | backend/langchainWorkflow.py:521-522 | Two or more clean, comma-free items joined with "," parse back to those items |
| Workflow.SpaceRoundTrip | backend/langchainWorkflow.py:523-524 | Whitespace-free, comma-free words joined with spaces parse back to those words |
| Workflow.CommaSplit | backend/langchainWorkflow.py:522 | Joining comma-free items with ", " yields a comma, and splitting on commas gives them back with a space in front of all but the first |
| Workflow.JoinCommaSpace | backend/langchainWorkflow.py:501 | `", ".join` is `",".join` with a space in front of every item but the first |
| Workflow.ParseSingleExample | backend/langchainWorkflow.py:516 | 'NVDA' parses to ['NVDA'] |
| Workflow.ParseCommaSpaceExample | backend/langchainWorkflow.py:517 | 'NVDA, AAPL' parses to ['NVDA', 'AAPL'] |
| Workflow.ParseWordsExample | backend/langchainWorkflow.py:518 | 'Nvidia Apple' parses to ['Nvidia', 'Apple'] |
| Workflow.ParseCommaExample | backend/langchainWorkflow.py:519 | 'NVDA,AAPL,TSLA' parses to ['NVDA', 'AAPL', 'TSLA'] |
| Sec.Rows | backend/sec.py:52 | `zip` yields as many rows as the shortest of the four lists |
| Sec.RemoveDashes | backend/sec.py:64 | `replace('-', '')` leaves no dash and changes a dash-free string not at all |
| Sec.RemoveDashesAppend | backend/sec.py:64 | Dash removal works piece by piece |
| Sec.RemoveDashesKeeps | backend/sec.py:64 | Every character other than a dash stays |
| Sec.FilingUrl | backend/sec.py:62-64 | The filing URL starts with the EDGAR archives prefix |
| Sec.FilingUrlShape | backend/sec.py:62-64 | After the prefix comes the decimal cik, a slash, the accession number without dashes, a slash and the document |
| Sec.Entry | backend/sec.py:57-65 | An entry keeps its row's form and filing date |
| Sec.InYearsOf | backend/sec.py:69 | A year is in the list of 10-K years exactly when some 10-K has it |
| Sec.TenKRow | backend/sec.py:68-70 | A 10-K row appends an entry exactly when no entry of its year is present, and touches nothing else |
| Sec.TenKRowStep | backend/sec.py:68-70 | One row keeps the 10-K years distinct, only appends, and leaves a 10-K row's year present |
| Sec.TenKDistinct | backend/sec.py:68-70 | Distinct 10-K years stay distinct, the old list is a prefix of the new one, every entry added is a 10-K of its own year, and every 10-K row's year is present afterwards |
| Sec.EightKAppended | backend/sec.py:72-74 | Every 8-K row is appended in order: the old list is a prefix, and the count grows by the number of 8-K rows |
| Sec.FoundOld | backend/sec.py:76-78 | The flag is set after a block exactly when it was set before or some 8-K row is at least a year old: it never clears |
| Sec.CurrentForm4 | backend/sec.py:81 | The current-year Form 4 rows, in order |
| Sec.Form4ThisYear | backend/sec.py:80-82 | Form 4 entries are appended for exactly the Form 4 rows of the current year, in order |
| Sec.Form4Dated | backend/sec.py:80-82 | Every Form 4 entry a block adds is a Form 4 of the current year |
| Sec.OtherFormsIgnored | backend/sec.py:67-82 | Rows of any other form change nothing: a block acts as its 10-K, 8-K and Form 4 rows alone |
| Sec.RequirementsStayMet | backend/sec.py:87-91 | Once two 10-Ks and an old 8-K are held, further rows keep the requirements met |
| Sec.FilingState.constructor | backend/sec.py:95-100 | The state starts empty with the flag cleared |
| Sec.FilingState.ProcessBlock | backend/sec.py:41-84 | The loop over the zipped rows leaves the state as the row-by-row classification of the old state, and keeps distinct 10-K years distinct |
| Sec.FilingState.Finish | backend/sec.py:117-129 | The 10-Ks are sorted newest first and cut to two; the 8-Ks are sorted newest first |
| Sec.InsertDesc | backend/sec.py:118-122 | Insertion adds the element and keeps the rest: multisets add up |
| Sec.InsertDescSorted | backend/sec.py:118-122 | Inserting into a list sorted newest first keeps it sorted |
| Sec.InsertDescBounded | backend/sec.py:118-122 | Inserting keeps every key within a common bound |
| Sec.SortDesc | backend/sec.py:118-129 | `sorted(..., reverse=True)`: a permutation, sorted by filing date descending |
| Sec.Take | backend/sec.py:122 | `[:n]` has length min(n, length) |
| Sec.TakeNewest | backend/sec.py:118-122 | The first n of a sorted list are sorted, taken from the list, and at least as new as every element dropped |
| Sec.FinalShape | backend/sec.py:117-129 | At most two 10-Ks, newest first, taken from those collected and at least as new as every one dropped; the 8-Ks are the collected ones newest first; Form 4s and the flag as collected |
| Sec.CollectSnoc | backend/sec.py:110-112 | Fetching one more block processes its rows after those already collected |
| Sec.FetchStep | backend/sec.py:110-115 | A block fetched after an unmet, failure-free prefix extends that prefix |
| Sec.PagedLog | backend/sec.py:108-111 | The older URLs are the base URL followed by the names listed in the main block, in order |
| Sec.FetchOlder | backend/sec.py:106-115 | The loop fetches the listed older files in order, processing each; it stops at the first failure, or at the first block after which the requirements hold, or when the list runs out |
| Sec.GetRequiredFilings | backend/sec.py:94-131 | The main file is fetched first, then older files only while the requirements are unmet; every fetch but the last succeeded; a failed fetch is the result's failure; on success the fetching stopped because the requirements held or the list ran out, and the result is the sorted, truncated state of all blocks fetched |
| Sec.FirstMatch | backend/sec.py:28-30 | The index of the first entry whose lower-cased title contains the lower-cased name, or -1 exactly when none does |
| Sec.GetCikFromCompanyName | backend/sec.py:18-32 | No result exactly when no title matches; otherwise the cik of the first match padded to 10 digits, which still denotes the cik, and that entry's title |
| QuantTool.FindTicker | backend/quant_tool.py:51 | The index of the first row with the ticker, or -1 exactly when none has it |
| QuantTool.MergeInserts | backend/quant_tool.py:62-64 | An absent ticker is inserted as one row holding the given values and `now`, rowcount 1 |
| QuantTool.MergeOverwritesStale | backend/quant_tool.py:53-60 | A row older than one day is overwritten with the given values and `now`, rowcount 1 |
| QuantTool.MergeSkipsFresh | backend/quant_tool.py:53-77 | A row at most one day old leaves the table unchanged, rowcount 0 |
| QuantTool.MergeKeepsOthers | backend/quant_tool.py:51-64 | Rows of other tickers are untouched, and at most one row, for this ticker, is added |
| QuantTool.MergeUnique | backend/quant_tool.py:51-64 | Ticker keys stay unique |
| QuantTool.MergeRowcount | backend/quant_tool.py:76-79 | The rowcount is 0 exactly when the table is unchanged |
| QuantTool.MergeLeavesFresh | backend/quant_tool.py:38-79 | Afterwards the ticker has a row at most one day old, which is the given data when the rowcount is 1 |
| QuantTool.MergeIdempotent | backend/quant_tool.py:53-60 | Repeating the upsert at the same time changes nothing, rowcount 0 |
| QuantTool.MergeWithinDay | backend/quant_tool.py:53 | After a write, any upsert within one day changes nothing, rowcount 0 |
| QuantTool.StocksTable.constructor | backend/quant_tool.py:24-35 | The table starts empty |
| QuantTool.StocksTable.Upsert | backend/quant_tool.py:38-79 | The table and the rowcount are those of the MERGE on the old table, and ticker keys stay unique |
| QuantTool.MaxYear | backend/quant_tool.py:108-109 | `max` of the years: bounds every year and is attained |
| QuantTool.KeepLatestTwo | backend/quant_tool.py:114-117 | The filter keeps at most as many 10-Ks as it is given |
| QuantTool.KeepLatestTwoAppend | backend/quant_tool.py:114-117 | The filter works element by element, keeping order |
| QuantTool.KeepLatestTwoMembers | backend/quant_tool.py:114-117 | A 10-K is kept exactly when it is listed and its year is the latest or the one before it |
| QuantTool.LatestAndPriorSpec | backend/quant_tool.py:108-117 | An empty 10-K list fails with ValueError; otherwise the result is non-empty and holds exactly the 10-Ks of the maximum year or the year before it |
| QuantTool.LatestAndPriorAtMostTwo | backend/quant_tool.py:108-117 | With distinct years, at most two 10-Ks are kept |
| QuantTool.KeepLatestTwoDistinct | backend/quant_tool.py:114-117 | The filter keeps years distinct and keeps only the two latest years |
| QuantTool.RunPipeline | backend/quant_tool.py:86-154 | The outcome, the steps and the new table are those of `Pipeline` on the old table, and, when the filings are fetched, the filings are `get_required_filings`'s own result from the fetches it made |
| QuantTool.RunSecStage | backend/quant_tool.py:99-122 | The SEC stage's steps and exception are `SecStage` of the filings fetched, which are `get_required_filings`'s result whenever the JSON file is absent |
| QuantTool.RunInsiderAndMetricsStages | backend/quant_tool.py:125-154 | The insider stage, then the metrics and the upsert, as the stage functions define them on the old table |
| QuantTool.RunMetricsStage | backend/quant_tool.py:134-154 | The metrics step, the connection and the MERGE, as `MetricsStage` defines them on the old table |
| QuantTool.FetchRaised | backend/sec.py:35-38 | A fetch failure is raised as a ValueError exactly when it is invalid JSON, never as SystemExit, and otherwise keeps its message |
| QuantTool.PipelineLooksUpFirst | backend/quant_tool.py:88-92 | Every run starts with the lookup of the upper-cased ticker, and it is the only step exactly when the ticker is unresolved, which exits with SystemExit and the table untouched |
| QuantTool.PipelineAbortKeepsTable | backend/quant_tool.py:86-154 | A run that raises leaves the table unchanged |
| QuantTool.PipelineCompleted | backend/quant_tool.py:136-154 | A completed run returns the lookup's ticker and name and the metrics' results, needed a working connection, and its table is the MERGE of the old one, with the upsert as its last step |
| QuantTool.PipelineSavesLatestAndPrior | backend/quant_tool.py:104-122 | When the filings are fetched, the second step is the fetch; an empty 10-K list after enrichment ends the run with ValueError right there; otherwise the third step saves the 10-Ks of the latest and prior fiscal years with the 8-Ks and Form 4s as enriched |
| QuantTool.PipelineFetchFails | backend/quant_tool.py:104-105 | A failed filing fetch ends the run after the fetch step with its exception, a ValueError exactly when the response was invalid JSON |
| QuantTool.PipelineCachedFilings | backend/quant_tool.py:100-102 | With the SEC JSON present the run does not depend on the filings, and neither fetches nor saves them |
| Api.UpperAll | backend/main.py:268 | Upper-casing item by item keeps the count |
| Api.UpperAllTickers | backend/main.py:268 | Upper-cased clean, comma-free pieces are tickers: non-empty, stripped, upper-case, comma-free |
| Api.ParseTickerList | backend/main.py:268 | Every parsed item is non-empty, stripped, upper-case and comma-free |
| Api.CleanTickersAppend | backend/main.py:268 | Parsing works piece by piece, keeping input order |
| Api.CleanTickersEmpty | backend/main.py:268-270 | The parsed list is empty exactly when every piece strips to nothing |
| Api.ParseRoundTrip | backend/main.py:268 | Tickers joined with "," parse back to themselves |
| Api.ParseIdempotent | backend/main.py:268 | Re-parsing the comma-joined result gives the same list |
| Api.ErrorText | backend/main.py:288-292 | The error text is "Ticker not found." for SystemExit and ValueError, the exception text otherwise |
| Api.PartitionCount | backend/main.py:275-292 | Every ticker contributes exactly one result or one error |
| Api.PartitionAppend | backend/main.py:275-292 | Results and errors are collected in ticker order |
| Api.FailuresNamed | backend/main.py:288-292 | Every error names a failing ticker with its error text, and every failing ticker has its error recorded |
| Api.NoSuccesses | backend/main.py:294 | There are no results exactly when every ticker fails |
| Api.BatchRules | backend/main.py:268-301 | 400 exactly when no ticker is parsed, 422 exactly when tickers were parsed and all fail; otherwise both lists, with at least one result |
| Api.RunBatch | backend/main.py:403-437 | The loop of the batch endpoints gives the response the partition rules define for the parsed tickers |
| Api.StockAttempt | backend/main.py:277-292 | A completed pipeline run is a result with its ticker, name, scores, short interest and insider trading; an abort is a failure with its exception |
| Api.GetStocks | backend/main.py:268-301 | `/stocks` is the batch over the pipeline |
| Api.GetStock | backend/main.py:317-334 | `/stocks/{ticker}` runs the pipeline on the upper-cased ticker: a completed run is returned, SystemExit or ValueError is 404 naming the upper-cased ticker, and any other failure is 500 |
| Api.InvalidJsonIsNotFound | backend/main.py:288-289 | A run aborted by invalid JSON from EDGAR is "Ticker not found." in the batch and 404 naming the upper-cased ticker from `/stocks/{ticker}` |
| Api.GetHealthScore | backend/main.py:453-472 | `/health-score/{ticker}`: health data when it is computed, 404 naming the upper-cased ticker for SystemExit or ValueError, and 500 otherwise |
| Api.ParseSingle | backend/main.py:317 | A ticker parses as a list of itself |
| Api.BatchOfOne | backend/main.py:275-292 | A batch of one ticker gives one result or one error |
| Api.SingleMatchesBatch | backend/main.py:310-334 | The single-ticker endpoint finds a ticker exactly when the batch of that one ticker has a result, and otherwise the batch fails with that ticker's error |
| Api.GetReport | backend/main.py:362-373 | 400 exactly when no ticker is parsed; the report for the parsed tickers when generation succeeds; 500 otherwise |

## Left out

- LLM and tool calls (`get_llm`, `bind_tools`, `llm.invoke`, `ToolNode`, `yahoo_news`, `compute_fraud_scores`) are oracle parameters. Prompt wording is kept only as opaque text, and the grounding rules inside the prompts cannot be stated.
- `stream_chat`: a generator over graph events, which is streaming I/O. The events it yields are the steps `RunGraph` already takes.
- `fetch_json`, the ticker file, Databricks connections and cursors, ElevenLabs, file uploads and Twilio are I/O. They become oracles or parameters (`fetch`, the ticker entries, the `StocksTable` rows).
- `datetime.today()` and `current_timestamp()` are the parameters `today` and `now`.
- Sec.FilingState.ProcessBlock: `strptime` parsing is not modelled. A date arrives already parsed, so a malformed date string, which raises in the source, cannot occur. `int(cik)` is likewise a `nat` already.
- Sec.SortDesc: sorts on the numeric date key. For valid dates this equals the order of the `YYYY-MM-DD` text the source sorts on. The stability of `sorted` is not stated.
- PyStr.Upper: ASCII letters only; Python's full Unicode case mapping is not modelled. PyStr.Lower likewise.
- `get_cik_from_ticker`, `enrich_with_metrics`, `process_form4_insiders` and `quant_metrics`: none is part of this model. They are oracles of `QuantTool.RunPipeline`.
- QuantTool.RunPipeline: the file cache (`os.path.exists`) is the `fileExists` oracle and JSON writing is a `SaveSecJson` step that cannot fail. The message text of the ValueError that `max` raises is not modelled. Of the `requests` failures only the split between invalid JSON (a `ValueError`) and every other exception (its `str`) is kept. The MERGE statement itself never fails; a failing `get_connection` or `ensure_table` is the `database` oracle. A `KeyError` from printing the metrics is not modelled.
- QuantTool.StocksTable.Upsert: requires unique tickers, which the MERGE itself preserves (`MergeUnique`) from the empty table. With duplicate target rows every stale match would be updated, which is not modelled. SQL NULL scores are not modelled.
- Api.StockAttempt: short interest and insider trading are carried as opaque `Detail` text of the metrics oracle's result; `.get` giving None for a missing key is not modelled. The health metrics are likewise an opaque value.
- `backend/stock_health.py` and `backend/quant_metrics.py`: floating-point statistics, not modelled.
- FastAPI wiring, CORS, static files, exception handlers, `/health`, `/audio`, `/twiml` and `/call` are presentation plumbing and are not modelled.
- Api.GetReport: `generate_report` is an oracle here. Its model is `Workflow.GenerateReport`, and any exception it raises is a `Failure`.
