/** The orchestrator / sub-agent state machine of backend/langchainWorkflow.py.

    The language model and the tools are oracles: total functions from what
    they are shown to what they answer. Everything else is the deterministic
    machinery around them: the state reducers, the sub-agent's agent/tools
    loop bounded by MaxToolIterations, the router after each orchestrator
    turn, the orchestrator/worker loop bounded by MaxDelegations, and the
    reply pickers. */
module Workflow {
  import opened Wrappers
  import opened PyStr
  import opened Messages

  const MaxDelegations: nat := 10
  const MaxToolIterations: nat := 8

  const SubAgentName: string := "sub_agent"
  const NoResponse: string := "Sub-agent produced no response."
  const SentimentToken: string := "DELEGATE:sentiment_research"
  const QuantToken: string := "DELEGATE:quant"

  // ---------------------------------------------------------------------------
  // Oracles and configuration
  // ---------------------------------------------------------------------------

  /** What a model call answers: its content and any tool calls it requests. */
  datatype Reply = Reply(content: Content, toolCalls: seq<ToolCall>)

  /** A compiled sub-agent: its system prompt, its tool-bound model, and its
      tools (a tool's result text, errors included, for each requested call). */
  datatype SubAgent = SubAgent(systemPrompt: string, model: seq<Message> -> Reply, tool: ToolCall -> string)

  /** The whole graph: the orchestrator model, the synthesis model, and the
      two sub-agents. The prompts are parameters; their wording is not modelled. */
  datatype Config = Config(
    orchestratorPrompt: string,
    orchestrator: seq<Message> -> Content,
    synthesisPrompt: string,
    synthesizer: seq<Message> -> Content,
    sentimentResearch: SubAgent,
    quant: SubAgent)

  function SystemMessage(text: string): Message {
    Message(System, Text(text), None, [])
  }

  function HumanMessage(text: string): Message {
    Message(Human, Text(text), None, [])
  }

  /** The AIMessage a model call yields: no `name` set. */
  function AIMessage(content: Content, calls: seq<ToolCall>): Message {
    Message(AI, content, None, calls)
  }

  // ---------------------------------------------------------------------------
  // AgentState and its reducers
  // ---------------------------------------------------------------------------

  /** `AgentState`: the shared state flowing through both graphs. */
  datatype AgentState = AgentState(messages: seq<Message>, delegationCount: nat, toolIterations: nat)

  /** What a node returns. A key the node leaves out of its dict is an empty
      list or zero here, which the reducers treat as "no change". */
  datatype Update = Update(messages: seq<Message>, delegationCount: nat, toolIterations: nat)

  /** The reducers of `AgentState`: `operator.add` on the message list and
      `a + b` on both counters. Nothing is ever removed or decremented. */
  function Apply(st: AgentState, u: Update): (r: AgentState)
    ensures |r.messages| == |st.messages| + |u.messages|
    ensures r.messages[..|st.messages|] == st.messages
    ensures r.messages[|st.messages|..] == u.messages
    ensures r.delegationCount >= st.delegationCount && r.toolIterations >= st.toolIterations
  {
    AgentState(st.messages + u.messages, st.delegationCount + u.delegationCount,
               st.toolIterations + u.toolIterations)
  }

  /** Two updates applied one after the other amount to their merge. */
  lemma ApplyTwice(st: AgentState, u: Update, v: Update)
    ensures Apply(Apply(st, u), v)
         == Apply(st, Update(u.messages + v.messages, u.delegationCount + v.delegationCount,
                             u.toolIterations + v.toolIterations))
  {
  }

  // ---------------------------------------------------------------------------
  // Sub-agent graph: agent <-> tools
  // ---------------------------------------------------------------------------

  /** `agent_node`: call the model with the system prompt prepended. */
  function AgentNode(agent: SubAgent, st: AgentState): Update {
    var reply := agent.model([SystemMessage(agent.systemPrompt)] + st.messages);
    Update([AIMessage(reply.content, reply.toolCalls)], 0, 0)
  }

  function ToolMessages(agent: SubAgent, calls: seq<ToolCall>): (r: seq<Message>)
    ensures |r| == |calls|
    ensures forall i :: 0 <= i < |r| ==> r[i].role == Tool
  {
    if calls == [] then []
    else [Message(Tool, Text(agent.tool(calls[0])), Some(calls[0].name), [])]
         + ToolMessages(agent, calls[1..])
  }

  /** `tool_node_with_counter`: run every tool call of the last message, one
      tool message per call, and add exactly one to `tool_iterations`. */
  function ToolsNode(agent: SubAgent, st: AgentState): (u: Update)
    requires |st.messages| > 0
    ensures |u.messages| == |Last(st.messages).toolCalls|
    ensures u.delegationCount == 0 && u.toolIterations == 1
  {
    Update(ToolMessages(agent, Last(st.messages).toolCalls), 0, 1)
  }

  datatype SubRoute = RunTools | Done

  /** `should_continue`: the iteration cap is checked before the tool calls. */
  function ShouldContinue(st: AgentState): SubRoute
    requires |st.messages| > 0
  {
    if st.toolIterations >= MaxToolIterations then Done
    else if Last(st.messages).toolCalls != [] then RunTools
    else Done
  }

  /** The cap wins over any requested tool call, and below the cap the tools
      run exactly when the last message requests some. */
  lemma ShouldContinueSpec(st: AgentState)
    requires |st.messages| > 0
    ensures ShouldContinue(st) == RunTools
        <==> st.toolIterations < MaxToolIterations && Last(st.messages).toolCalls != []
  {
  }

  /** The model's own AI message: unnamed, carrying its tool calls. */
  predicate IsModelMessage(m: Message) {
    m.role == AI && m.name == None
  }

  /** The message the agent node appends after `prior`: the model's answer
      to the system prompt followed by `prior`. */
  function ModelMessage(agent: SubAgent, prior: seq<Message>): Message {
    var reply := agent.model([SystemMessage(agent.systemPrompt)] + prior);
    AIMessage(reply.content, reply.toolCalls)
  }

  /** The last message is the model's answer to the messages before it. */
  predicate ModelAnswered(agent: SubAgent, msgs: seq<Message>) {
    |msgs| > 0 && Last(msgs) == ModelMessage(agent, msgs[..|msgs| - 1])
  }

  /** The sub-agent graph from a state just after an agent turn: while
      `should_continue` says so, a tools turn and then an agent turn. */
  function SubAgentLoop(agent: SubAgent, st: AgentState): AgentState
    requires |st.messages| > 0
    decreases MaxToolIterations - st.toolIterations
  {
    if ShouldContinue(st) == RunTools then
      var tooled := Apply(st, ToolsNode(agent, st));
      SubAgentLoop(agent, Apply(tooled, AgentNode(agent, tooled)))
    else st
  }

  /** The whole sub-agent run from `{"messages": input, "tool_iterations": 0}`:
      the first agent turn, then the loop. */
  function SubAgentRun(agent: SubAgent, input: seq<Message>): AgentState {
    var start := AgentState(input, 0, 0);
    SubAgentLoop(agent, Apply(start, AgentNode(agent, start)))
  }

  /** Invoking a compiled sub-agent graph from `{"messages": input,
      "tool_iterations": 0}` until it reaches END: the run `SubAgentRun`
      describes. The first model call always happens; each tools round adds
      exactly one to the counter; at most MaxToolIterations rounds run; the
      run ends on the model's answer to everything before it, whose tool
      calls are left unexecuted only when the cap was reached. */
  method InvokeSubAgent(agent: SubAgent, input: seq<Message>)
    returns (final: AgentState, toolRounds: nat, modelCalls: nat)
    ensures final == SubAgentRun(agent, input)
    ensures modelCalls == toolRounds + 1
    ensures final.toolIterations == toolRounds <= MaxToolIterations
    ensures final.delegationCount == 0
    ensures |final.messages| > |input| && final.messages[..|input|] == input
    ensures IsModelMessage(Last(final.messages)) && ModelAnswered(agent, final.messages)
    ensures ShouldContinue(final) == Done
    ensures Last(final.messages).toolCalls != [] ==> toolRounds == MaxToolIterations
  {
    var st := AgentState(input, 0, 0);
    st := Apply(st, AgentNode(agent, st));
    toolRounds, modelCalls := 0, 1;
    while ShouldContinue(st) == RunTools
      invariant st.toolIterations == toolRounds <= MaxToolIterations
      invariant modelCalls == toolRounds + 1
      invariant st.delegationCount == 0
      invariant |st.messages| > |input| && st.messages[..|input|] == input
      invariant IsModelMessage(Last(st.messages)) && ModelAnswered(agent, st.messages)
      invariant SubAgentLoop(agent, st) == SubAgentRun(agent, input)
      decreases MaxToolIterations - st.toolIterations
    {
      var before := st.messages;
      st := Apply(st, ToolsNode(agent, st));
      assert st.messages[..|input|] == before[..|input|];
      toolRounds := toolRounds + 1;
      before := st.messages;
      st := Apply(st, AgentNode(agent, st));
      assert st.messages[..|input|] == before[..|input|];
      assert st.messages[..|st.messages| - 1] == before;
      modelCalls := modelCalls + 1;
    }
    final := st;
  }

  // ---------------------------------------------------------------------------
  // Reply pickers
  // ---------------------------------------------------------------------------

  /** Index of the last AI message (named or not), or -1 when there is none. */
  function LastAIIndex(msgs: seq<Message>): (r: int)
    ensures -1 <= r < |msgs|
    ensures r >= 0 ==> msgs[r].role == AI
    ensures forall j :: r < j < |msgs| ==> msgs[j].role != AI
  {
    if msgs == [] then -1
    else if Last(msgs).role == AI then |msgs| - 1
    else LastAIIndex(msgs[..|msgs| - 1])
  }

  /** The one message `_run_sub_agent` returns: named "sub_agent", holding the
      normalised text of the last AI message, or the fallback text. */
  function SubAgentReply(msgs: seq<Message>): (m: Message)
    ensures m.role == AI && m.name == Some(SubAgentName) && m.toolCalls == []
    ensures m.content == Text(if LastAIIndex(msgs) >= 0
                              then NormalizedText(msgs[LastAIIndex(msgs)].content)
                              else NoResponse)
  {
    var i := LastAIIndex(msgs);
    if i >= 0 then Message(AI, Text(NormalizedText(msgs[i].content)), Some(SubAgentName), [])
    else Message(AI, Text(NoResponse), Some(SubAgentName), [])
  }

  /** The fallback text appears exactly when no AI message exists. */
  lemma SubAgentReplyFallback(msgs: seq<Message>)
    ensures SubAgentReply(msgs).content == Text(NoResponse)
        <== forall i :: 0 <= i < |msgs| ==> msgs[i].role != AI
    ensures (exists i :: 0 <= i < |msgs| && msgs[i].role == AI)
        ==> SubAgentReply(msgs).content == Text(NormalizedText(msgs[LastAIIndex(msgs)].content))
  {
  }

  /** Python's `not getattr(msg, "name", None)`: no name, or an empty one. */
  predicate Unnamed(m: Message) {
    m.name == None || m.name == Some("")
  }

  /** Index of the last unnamed AI message, or -1 when there is none. */
  function LastUnnamedAIIndex(msgs: seq<Message>): (r: int)
    ensures -1 <= r < |msgs|
    ensures r >= 0 ==> msgs[r].role == AI && Unnamed(msgs[r])
    ensures forall j :: r < j < |msgs| ==> !(msgs[j].role == AI && Unnamed(msgs[j]))
  {
    if msgs == [] then -1
    else if Last(msgs).role == AI && Unnamed(Last(msgs)) then |msgs| - 1
    else LastUnnamedAIIndex(msgs[..|msgs| - 1])
  }

  /** The reply `chat` returns from the final message list: the text of the
      last unnamed AI message, else the text of the last message. */
  function FinalReply(msgs: seq<Message>): string
    requires |msgs| > 0
  {
    var i := LastUnnamedAIIndex(msgs);
    if i >= 0 then NormalizedText(msgs[i].content) else NormalizedText(Last(msgs).content)
  }

  /** Sub-agent replies are skipped: a named AI message at the end does not
      hide an earlier unnamed one. */
  lemma {:induction false} FinalReplySkipsNamed(msgs: seq<Message>, tail: seq<Message>)
    requires |msgs| > 0 && IsModelMessage(Last(msgs))
    requires forall j :: 0 <= j < |tail| ==> !Unnamed(tail[j])
    ensures FinalReply(msgs + tail) == NormalizedText(Last(msgs).content)
  {
    var all := msgs + tail;
    var i := LastUnnamedAIIndex(all);
    assert all[|msgs| - 1] == Last(msgs);
  }

  // ---------------------------------------------------------------------------
  // Worker nodes
  // ---------------------------------------------------------------------------

  datatype Worker = SentimentResearchWorker | QuantWorker

  function AgentOf(cfg: Config, w: Worker): SubAgent {
    match w
    case SentimentResearchWorker => cfg.sentimentResearch
    case QuantWorker => cfg.quant
  }

  /** The update of a worker node: the reply of its own sub-agent run on the
      whole message list, and one delegation. */
  function WorkerUpdate(cfg: Config, w: Worker, st: AgentState): Update {
    Update([SubAgentReply(SubAgentRun(AgentOf(cfg, w), st.messages).messages)], 1, 0)
  }

  /** `sentiment_research_node` / `quant_node` (`_run_sub_agent` inside): run
      the worker's sub-agent on the whole message list with a fresh
      iteration counter, return one message named "sub_agent" with the text
      of the sub-agent's final model message, and count one delegation. */
  method WorkerNode(cfg: Config, w: Worker, st: AgentState) returns (u: Update, sub: AgentState)
    ensures sub == SubAgentRun(AgentOf(cfg, w), st.messages)
    ensures u == WorkerUpdate(cfg, w, st)
    ensures u.delegationCount == 1 && u.toolIterations == 0
    ensures |u.messages| == 1
    ensures u.messages[0] == SubAgentReply(sub.messages)
    ensures |sub.messages| > |st.messages| && sub.messages[..|st.messages|] == st.messages
    ensures IsModelMessage(Last(sub.messages))
    ensures u.messages[0].content == Text(NormalizedText(Last(sub.messages).content))
    ensures sub.toolIterations <= MaxToolIterations
  {
    var rounds, calls;
    sub, rounds, calls := InvokeSubAgent(AgentOf(cfg, w), st.messages);
    u := Update([SubAgentReply(sub.messages)], 1, 0);
  }

  // ---------------------------------------------------------------------------
  // Orchestrator nodes and the router
  // ---------------------------------------------------------------------------

  /** `orchestrator_node`: one model call with the orchestrator prompt. */
  function OrchestratorNode(cfg: Config, st: AgentState): Update {
    Update([AIMessage(cfg.orchestrator([SystemMessage(cfg.orchestratorPrompt)] + st.messages), [])], 0, 0)
  }

  /** `synthesize_node`: one model call with the synthesis prompt. */
  function SynthesizeNode(cfg: Config, st: AgentState): Update {
    Update([AIMessage(cfg.synthesizer([SystemMessage(cfg.synthesisPrompt)] + st.messages), [])], 0, 0)
  }

  datatype Route = ToSentimentResearch | ToQuant | ToSynthesize | ToEnd

  predicate IsWorkerRoute(r: Route) {
    r == ToSentimentResearch || r == ToQuant
  }

  function WorkerOf(r: Route): Worker
    requires IsWorkerRoute(r)
  {
    if r == ToSentimentResearch then SentimentResearchWorker else QuantWorker
  }

  /** Some message, of any kind, is named "sub_agent". */
  predicate HasSubAgentReply(msgs: seq<Message>) {
    exists i :: 0 <= i < |msgs| && msgs[i].name == Some(SubAgentName)
  }

  /** The two delegation directives a line can carry. */
  datatype Directive = SentimentDirective | QuantDirective

  function Other(d: Directive): Directive {
    if d == SentimentDirective then QuantDirective else SentimentDirective
  }

  /** The directive a line carries: its stripped text must be exactly a
      token. */
  function LineDirective(line: string): Option<Directive> {
    var stripped := Strip(line);
    if stripped == SentimentToken then Some(SentimentDirective)
    else if stripped == QuantToken then Some(QuantDirective)
    else None
  }

  predicate IsTokenLine(line: string) {
    LineDirective(line).Some?
  }

  /** The directive of every line, in order. */
  function Directives(lines: seq<string>): (ds: seq<Option<Directive>>)
    ensures |ds| == |lines|
  {
    seq(|lines|, k requires 0 <= k < |lines| => LineDirective(lines[k]))
  }

  /** Index of the first line that carries a directive, or the number of
      lines when there is none. */
  function FirstDirective(ds: seq<Option<Directive>>): (i: nat)
    ensures i <= |ds|
    ensures i < |ds| ==> ds[i].Some?
    ensures forall k :: 0 <= k < i ==> ds[k].None?
  {
    if ds == [] then 0
    else if ds[0].Some? then 0
    else 1 + FirstDirective(ds[1..])
  }

  /** The text the router reads: the last message, normalised, in lines. */
  function DirectiveLines(st: AgentState): seq<string>
    requires |st.messages| > 0
  {
    SplitLines(NormalizedText(Last(st.messages).content))
  }

  /** `route_after_orchestrator`. Both branches of the source's fallback
      return END, so without a token the route is END whether or not a
      sub-agent reply exists. */
  function RouteAfterOrchestrator(st: AgentState): Route
    requires |st.messages| > 0
  {
    if st.delegationCount >= MaxDelegations then
      if HasSubAgentReply(st.messages) then ToSynthesize else ToEnd
    else
      var ds := Directives(DirectiveLines(st));
      var i := FirstDirective(ds);
      if i == |ds| then ToEnd
      else if ds[i] == Some(SentimentDirective) then ToSentimentResearch
      else ToQuant
  }

  /** At the cap no worker is chosen: synthesis when a sub-agent has
      replied, END otherwise. */
  lemma RouterCap(st: AgentState)
    requires |st.messages| > 0 && st.delegationCount >= MaxDelegations
    ensures !IsWorkerRoute(RouteAfterOrchestrator(st))
    ensures RouteAfterOrchestrator(st) == ToSynthesize <==> HasSubAgentReply(st.messages)
  {
  }

  /** Synthesis is reached only through the cap. */
  lemma SynthesizeOnlyAtCap(st: AgentState)
    requires |st.messages| > 0 && RouteAfterOrchestrator(st) == ToSynthesize
    ensures st.delegationCount >= MaxDelegations && HasSubAgentReply(st.messages)
  {
  }

  /** Below the cap, with no line that is exactly a token once stripped, the
      route is END, whether or not sub-agent data exists. */
  lemma RouterFallback(st: AgentState)
    requires |st.messages| > 0 && st.delegationCount < MaxDelegations
    requires forall k :: 0 <= k < |DirectiveLines(st)| ==> !IsTokenLine(DirectiveLines(st)[k])
    ensures RouteAfterOrchestrator(st) == ToEnd
  {
    var ds := Directives(DirectiveLines(st));
    assert forall k :: 0 <= k < |ds| ==> ds[k].None?;
  }

  /** Line `i` carries directive `d` and no earlier line carries the other
      one. */
  predicate DirectiveFirstAt(ds: seq<Option<Directive>>, d: Directive, i: int) {
    0 <= i < |ds| && ds[i] == Some(d) && forall k :: 0 <= k < i ==> ds[k] != Some(Other(d))
  }

  /** The first line carrying a directive carries `d` exactly when some line
      carries `d` and no earlier line carries the other directive. */
  lemma FirstTokenIs(ds: seq<Option<Directive>>, d: Directive)
    ensures (FirstDirective(ds) < |ds| && ds[FirstDirective(ds)] == Some(d))
        <==> exists i :: DirectiveFirstAt(ds, d, i)
  {
    var f := FirstDirective(ds);
    if f < |ds| && ds[f] == Some(d) {
      assert DirectiveFirstAt(ds, d, f);
    }
    if exists i :: DirectiveFirstAt(ds, d, i) {
      var i :| DirectiveFirstAt(ds, d, i);
      FirstDirectiveOf(ds, d, i);
    }
  }

  lemma FirstDirectiveOf(ds: seq<Option<Directive>>, d: Directive, i: int)
    requires DirectiveFirstAt(ds, d, i)
    ensures FirstDirective(ds) < |ds| && ds[FirstDirective(ds)] == Some(d)
  {
    var f := FirstDirective(ds);
    assert f <= i;
    if f < i {
      var v: Directive := ds[f].value;
      assert ds[f] == Some(v) && v != Other(d);
      assert v == SentimentDirective || v == QuantDirective;
    }
  }

  /** Below the cap the first token line decides: the route is the sentiment
      worker exactly when some line is the sentiment token once stripped and
      no earlier line is the quant token, and symmetrically for the quant
      worker. */
  lemma RouterTokens(st: AgentState)
    requires |st.messages| > 0 && st.delegationCount < MaxDelegations
    ensures RouteAfterOrchestrator(st) == ToSentimentResearch
        <==> exists i :: DirectiveFirstAt(Directives(DirectiveLines(st)), SentimentDirective, i)
    ensures RouteAfterOrchestrator(st) == ToQuant
        <==> exists i :: DirectiveFirstAt(Directives(DirectiveLines(st)), QuantDirective, i)
  {
    FirstTokenIs(Directives(DirectiveLines(st)), SentimentDirective);
    FirstTokenIs(Directives(DirectiveLines(st)), QuantDirective);
  }

  /** A worker is only ever chosen below the cap. */
  lemma WorkerOnlyBelowCap(st: AgentState)
    requires |st.messages| > 0 && IsWorkerRoute(RouteAfterOrchestrator(st))
    ensures st.delegationCount < MaxDelegations
  {
  }

  /** A one-line directive that is not exactly a token once stripped is no
      delegation, even when it contains a token. */
  lemma ContainedTokenIsIgnored(st: AgentState, text: string)
    requires |st.messages| > 0 && st.delegationCount < MaxDelegations
    requires Last(st.messages).content == Text(text)
    requires text != [] && forall k :: 0 <= k < |text| ==> !IsLineBreak(text[k])
    requires Contains(text, QuantToken) && !IsTokenLine(text)
    ensures RouteAfterOrchestrator(st) == ToEnd
  {
    NoBreakFirstBreak(text);
    assert DirectiveLines(st) == [text];
  }

  lemma {:induction false} NoBreakFirstBreak(s: string)
    requires forall k :: 0 <= k < |s| ==> !IsLineBreak(s[k])
    ensures FirstBreak(s) == |s|
  {
    if s != [] {
      NoBreakFirstBreak(s[1..]);
    }
  }

  // ---------------------------------------------------------------------------
  // The orchestrator graph and chat
  // ---------------------------------------------------------------------------

  function CountNamed(msgs: seq<Message>, name: string): nat {
    if msgs == [] then 0
    else CountNamed(msgs[..|msgs| - 1], name) + (if Last(msgs).name == Some(name) then 1 else 0)
  }

  lemma CountNamedSnoc(a: seq<Message>, m: Message, name: string)
    ensures CountNamed(a + [m], name) == CountNamed(a, name) + if m.name == Some(name) then 1 else 0
  {
    assert (a + [m])[..|a|] == a;
  }

  /** The orchestrator graph from a state just after an orchestrator turn:
      the router decides; a worker route runs that worker and another
      orchestrator turn, and the graph goes on; synthesis runs the
      synthesizer and ends; END ends. The result is the final state and the
      router's decisions, in order. */
  function GraphLoop(cfg: Config, st: AgentState): (AgentState, seq<Route>)
    requires |st.messages| > 0
    decreases MaxDelegations - st.delegationCount
  {
    var route := RouteAfterOrchestrator(st);
    if IsWorkerRoute(route) then
      var delegated := Apply(st, WorkerUpdate(cfg, WorkerOf(route), st));
      var rest := GraphLoop(cfg, Apply(delegated, OrchestratorNode(cfg, delegated)));
      (rest.0, [route] + rest.1)
    else if route == ToSynthesize then (Apply(st, SynthesizeNode(cfg, st)), [route])
    else (st, [route])
  }

  /** The whole graph from `init` with both counters at zero: the first
      orchestrator turn, then the loop. */
  function GraphRun(cfg: Config, init: seq<Message>): (AgentState, seq<Route>) {
    var start := AgentState(init, 0, 0);
    GraphLoop(cfg, Apply(start, OrchestratorNode(cfg, start)))
  }

  /** The messages after `st.delegationCount` worker turns, each followed by
      an orchestrator turn, and the first orchestrator turn: `init`, then two
      messages per worker turn and one more, one "sub_agent" reply per
      worker turn, and the orchestrator's own message last. */
  predicate GraphShape(init: seq<Message>, st: AgentState) {
    && |st.messages| == |init| + 2 * st.delegationCount + 1
    && st.messages[..|init|] == init
    && CountNamed(st.messages, SubAgentName) == CountNamed(init, SubAgentName) + st.delegationCount
    && IsModelMessage(Last(st.messages))
    && st.toolIterations == 0
  }

  lemma GraphShapeStep(init: seq<Message>, before: AgentState, mid: AgentState, after: AgentState)
    requires GraphShape(init, before)
    requires |mid.messages| == |before.messages| + 1 && mid.messages[..|before.messages|] == before.messages
    requires CountNamed(mid.messages, SubAgentName) == CountNamed(before.messages, SubAgentName) + 1
    requires mid.delegationCount == before.delegationCount + 1 && mid.toolIterations == before.toolIterations
    requires |after.messages| == |mid.messages| + 1 && after.messages[..|mid.messages|] == mid.messages
    requires CountNamed(after.messages, SubAgentName) == CountNamed(mid.messages, SubAgentName)
    requires IsModelMessage(Last(after.messages))
    requires after.delegationCount == mid.delegationCount && after.toolIterations == mid.toolIterations
    ensures GraphShape(init, after)
  {
    PrefixOfPrefix(before.messages, mid.messages, init);
    PrefixOfPrefix(mid.messages, after.messages, init);
  }

  predicate AllWorkerRoutes(rs: seq<Route>) {
    forall i :: 0 <= i < |rs| ==> IsWorkerRoute(rs[i])
  }

  lemma AllWorkerRoutesSnoc(rs: seq<Route>, r: Route)
    requires AllWorkerRoutes(rs) && IsWorkerRoute(r)
    ensures AllWorkerRoutes(rs + [r])
  {
  }

  /** After the decisions `done`, the rest of the graph from `st` finishes
      the run `run`: it ends in the same state, and its decisions follow
      `done`. */
  predicate ContinuesRun(cfg: Config, run: (AgentState, seq<Route>), st: AgentState, done: seq<Route>)
    requires |st.messages| > 0
  {
    GraphLoop(cfg, st).0 == run.0 && done + GraphLoop(cfg, st).1 == run.1
  }

  /** A worker route: the graph goes on from the state after that worker's
      turn and the next orchestrator turn, one decision further. */
  lemma GraphLoopStep(cfg: Config, st: AgentState)
    requires |st.messages| > 0 && IsWorkerRoute(RouteAfterOrchestrator(st))
    ensures var delegated := Apply(st, WorkerUpdate(cfg, WorkerOf(RouteAfterOrchestrator(st)), st));
      var next := Apply(delegated, OrchestratorNode(cfg, delegated));
      GraphLoop(cfg, st) == (GraphLoop(cfg, next).0, [RouteAfterOrchestrator(st)] + GraphLoop(cfg, next).1)
  {
  }

  lemma AppendAssoc<T>(a: seq<T>, b: seq<T>, c: seq<T>)
    ensures a + (b + c) == (a + b) + c
  {
  }

  /** One worker turn and one orchestrator turn advance the run by one
      decision. */
  lemma ContinuesRunStep(cfg: Config, run: (AgentState, seq<Route>), st: AgentState, done: seq<Route>, next: AgentState)
    requires |st.messages| > 0 && IsWorkerRoute(RouteAfterOrchestrator(st)) && ContinuesRun(cfg, run, st, done)
    requires next == Apply(Apply(st, WorkerUpdate(cfg, WorkerOf(RouteAfterOrchestrator(st)), st)),
                           OrchestratorNode(cfg, Apply(st, WorkerUpdate(cfg, WorkerOf(RouteAfterOrchestrator(st)), st))))
    ensures |next.messages| > 0
    ensures ContinuesRun(cfg, run, next, done + [RouteAfterOrchestrator(st)])
  {
    GraphLoopStep(cfg, st);
    AppendAssoc(done, [RouteAfterOrchestrator(st)], GraphLoop(cfg, next).1);
  }

  /** When the router names no worker, the decisions so far and this one
      are the run's. */
  lemma ContinuesRunEnd(cfg: Config, run: (AgentState, seq<Route>), st: AgentState, done: seq<Route>)
    requires |st.messages| > 0 && !IsWorkerRoute(RouteAfterOrchestrator(st)) && ContinuesRun(cfg, run, st, done)
    ensures run.1 == done + [RouteAfterOrchestrator(st)]
    ensures run.0 == if RouteAfterOrchestrator(st) == ToSynthesize then Apply(st, SynthesizeNode(cfg, st)) else st
  {
  }

  /** Running the orchestrator graph from `{"messages": init,
      "delegation_count": 0, "tool_iterations": 0}` until END.

      `routes` lists the router's decision after each orchestrator turn:
      every decision but the last dispatched a worker, and the last is
      synthesis or END. The graph always terminates; there are as many
      worker runs as the final delegation count, at most MaxDelegations;
      synthesis happens only once the cap is reached; each worker run adds
      exactly one "sub_agent" message; the run ends on a model message. */
  method RunGraph(cfg: Config, init: seq<Message>) returns (final: AgentState, routes: seq<Route>)
    ensures (final, routes) == GraphRun(cfg, init)
    ensures |routes| == final.delegationCount + 1
    ensures final.delegationCount <= MaxDelegations
    ensures forall i :: 0 <= i < |routes| - 1 ==> IsWorkerRoute(routes[i])
    ensures !IsWorkerRoute(Last(routes))
    ensures Last(routes) == ToSynthesize ==> final.delegationCount == MaxDelegations
    ensures |final.messages| == |init| + |routes| + final.delegationCount
                                 + (if Last(routes) == ToSynthesize then 1 else 0)
    ensures final.messages[..|init|] == init
    ensures CountNamed(final.messages, SubAgentName) == CountNamed(init, SubAgentName) + final.delegationCount
    ensures IsModelMessage(Last(final.messages))
    ensures final.toolIterations == 0
  {
    ghost var run := GraphRun(cfg, init);
    var st := Orchestrate(cfg, AgentState(init, 0, 0));
    ghost var done;
    st, routes, done := WorkerTurns(cfg, init, run, st);
    ContinuesRunEnd(cfg, run, st, done);
    GraphEnds(cfg, init, st, done, routes);
    if RouteAfterOrchestrator(st) == ToSynthesize {
      final := Apply(st, SynthesizeNode(cfg, st));
    } else {
      final := st;
    }
  }

  /** What the graph looks like once the router names no worker: END leaves
      the state as it is, synthesis appends the synthesizer's message. */
  lemma GraphEnds(cfg: Config, init: seq<Message>, st: AgentState, done: seq<Route>, routes: seq<Route>)
    requires GraphShape(init, st) && routes == done + [RouteAfterOrchestrator(st)]
    requires !IsWorkerRoute(RouteAfterOrchestrator(st))
    requires |done| == st.delegationCount <= MaxDelegations && AllWorkerRoutes(done)
    ensures var final := if RouteAfterOrchestrator(st) == ToSynthesize then Apply(st, SynthesizeNode(cfg, st)) else st;
      && |routes| == final.delegationCount + 1
      && final.delegationCount <= MaxDelegations
      && (forall i :: 0 <= i < |routes| - 1 ==> IsWorkerRoute(routes[i]))
      && !IsWorkerRoute(Last(routes))
      && (Last(routes) == ToSynthesize ==> final.delegationCount == MaxDelegations)
      && |final.messages| == |init| + |routes| + final.delegationCount
                               + (if Last(routes) == ToSynthesize then 1 else 0)
      && final.messages[..|init|] == init
      && CountNamed(final.messages, SubAgentName) == CountNamed(init, SubAgentName) + final.delegationCount
      && IsModelMessage(Last(final.messages))
      && final.toolIterations == 0
  {
    assert forall i :: 0 <= i < |routes| - 1 ==> routes[i] == done[i];
    if RouteAfterOrchestrator(st) == ToSynthesize {
      SynthesizeOnlyAtCap(st);
      SynthesisAppends(cfg, init, st);
    }
  }

  /** The synthesis turn appends one unnamed model message and changes no
      counter. */
  lemma SynthesisAppends(cfg: Config, init: seq<Message>, st: AgentState)
    requires |init| <= |st.messages| && st.messages[..|init|] == init
    ensures var final := Apply(st, SynthesizeNode(cfg, st));
      && |final.messages| == |st.messages| + 1 && final.messages[..|init|] == init
      && CountNamed(final.messages, SubAgentName) == CountNamed(st.messages, SubAgentName)
      && IsModelMessage(Last(final.messages))
      && final.delegationCount == st.delegationCount && final.toolIterations == st.toolIterations
  {
    var u := SynthesizeNode(cfg, st);
    CountNamedSnoc(st.messages, u.messages[0], SubAgentName);
    assert st.messages + u.messages == st.messages + [u.messages[0]];
    PrefixOfPrefix(st.messages, Apply(st, u).messages, init);
  }

  /** The worker turns of the graph after its first orchestrator turn:
      while the router names a worker, that worker's turn and another
      orchestrator turn. `done` are the decisions that named a worker;
      `routes` adds the last one, which names none. */
  method WorkerTurns(cfg: Config, init: seq<Message>, ghost run: (AgentState, seq<Route>), first: AgentState)
    returns (st: AgentState, routes: seq<Route>, ghost done: seq<Route>)
    requires first.delegationCount == 0 && GraphShape(init, first) && ContinuesRun(cfg, run, first, [])
    ensures GraphShape(init, st) && ContinuesRun(cfg, run, st, done)
    ensures routes == done + [RouteAfterOrchestrator(st)] && !IsWorkerRoute(RouteAfterOrchestrator(st))
    ensures |done| == st.delegationCount <= MaxDelegations && AllWorkerRoutes(done)
  {
    st := first;
    var route := RouteAfterOrchestrator(st);
    routes := [route];
    done := [];
    while IsWorkerRoute(route)
      invariant |st.messages| > 0 && route == RouteAfterOrchestrator(st)
      invariant routes == done + [route] && |done| == st.delegationCount
      invariant st.delegationCount <= MaxDelegations
      invariant AllWorkerRoutes(done)
      invariant GraphShape(init, st)
      invariant ContinuesRun(cfg, run, st, done)
      decreases MaxDelegations - st.delegationCount
    {
      WorkerOnlyBelowCap(st);
      var before := st;
      st := Delegate(cfg, WorkerOf(route), st);
      var mid := st;
      st := Orchestrate(cfg, st);
      ContinuesRunStep(cfg, run, before, done, st);
      AllWorkerRoutesSnoc(done, route);
      done := done + [route];
      GraphShapeStep(init, before, mid, st);
      route := RouteAfterOrchestrator(st);
      routes := routes + [route];
    }
  }

  /** One worker turn: the worker node's update applied to the state. */
  method Delegate(cfg: Config, w: Worker, st: AgentState) returns (r: AgentState)
    ensures r == Apply(st, WorkerUpdate(cfg, w, st))
    ensures |r.messages| == |st.messages| + 1 && r.messages[..|st.messages|] == st.messages
    ensures CountNamed(r.messages, SubAgentName) == CountNamed(st.messages, SubAgentName) + 1
    ensures r.delegationCount == st.delegationCount + 1 && r.toolIterations == st.toolIterations
  {
    var u, sub := WorkerNode(cfg, w, st);
    CountNamedSnoc(st.messages, u.messages[0], SubAgentName);
    assert st.messages + u.messages == st.messages + [u.messages[0]];
    r := Apply(st, u);
  }

  /** One orchestrator turn: append its unnamed model message. */
  method Orchestrate(cfg: Config, st: AgentState) returns (r: AgentState)
    ensures r == Apply(st, OrchestratorNode(cfg, st))
    ensures |r.messages| == |st.messages| + 1 && r.messages[..|st.messages|] == st.messages
    ensures CountNamed(r.messages, SubAgentName) == CountNamed(st.messages, SubAgentName)
    ensures IsModelMessage(Last(r.messages))
    ensures r.delegationCount == st.delegationCount && r.toolIterations == st.toolIterations
  {
    var u := OrchestratorNode(cfg, st);
    CountNamedSnoc(st.messages, u.messages[0], SubAgentName);
    assert st.messages + u.messages == st.messages + [u.messages[0]];
    r := Apply(st, u);
  }

  lemma PrefixOfPrefix(a: seq<Message>, b: seq<Message>, p: seq<Message>)
    requires |p| <= |a| <= |b| && a[..|p|] == p && b[..|a|] == a
    ensures b[..|p|] == p
  {
    assert b[..|p|] == b[..|a|][..|p|];
  }

  /** `chat`: append the user's message to the history, run the graph, and
      return the text of the last unnamed AI message. Since the graph always
      ends on the orchestrator's or the synthesizer's own message, that is the
      text of the final message. */
  method Chat(cfg: Config, userInput: string, history: seq<Message>)
    returns (reply: string, final: AgentState, routes: seq<Route>)
    ensures (final, routes) == GraphRun(cfg, history + [HumanMessage(userInput)])
    ensures |final.messages| > |history| + 1
    ensures final.messages[..|history| + 1] == history + [HumanMessage(userInput)]
    ensures |routes| == final.delegationCount + 1 <= MaxDelegations + 1
    ensures !IsWorkerRoute(Last(routes))
    ensures IsModelMessage(Last(final.messages))
    ensures reply == NormalizedText(Last(final.messages).content)
  {
    var init := history + [HumanMessage(userInput)];
    final, routes := RunGraph(cfg, init);
    FinalReplySkipsNamed(final.messages, []);
    assert final.messages + [] == final.messages;
    reply := FinalReply(final.messages);
  }

  // ---------------------------------------------------------------------------
  // generate_report and parse_stock_input
  // ---------------------------------------------------------------------------

  /** The text `generate_report` puts before and after the joined inputs. */
  const ReportLead: string := "Generate a comprehensive financial analysis report for the following companies/tickers: "
  const ReportTail: string := ". For each one, gather news sentiment data and any available quantitative risk metrics."

  /** The user message `generate_report` builds around the joined inputs. */
  function ReportPrompt(stockInputs: seq<string>): string {
    ReportLead + Join(", ", stockInputs) + ReportTail
  }

  /** `generate_report`: one `chat` call with a fresh history. */
  method GenerateReport(cfg: Config, stockInputs: seq<string>)
    returns (report: string, final: AgentState, routes: seq<Route>)
    ensures (final, routes) == GraphRun(cfg, [HumanMessage(ReportPrompt(stockInputs))])
    ensures |final.messages| > 1 && final.messages[0] == HumanMessage(ReportPrompt(stockInputs))
    ensures |routes| <= MaxDelegations + 1
    ensures report == NormalizedText(Last(final.messages).content)
  {
    var prompt := ReportPrompt(stockInputs);
    report, final, routes := Chat(cfg, prompt, []);
    assert [] + [HumanMessage(prompt)] == [HumanMessage(prompt)];
    assert final.messages[0] == final.messages[..1][0];
  }

  /** `parse_stock_input`: split on commas when there is one, otherwise on
      whitespace, and keep the stripped non-empty pieces. */
  function ParseStockInput(raw: string): (r: seq<string>)
    ensures forall i :: 0 <= i < |r| ==> r[i] != [] && IsStripped(r[i])
    ensures ',' in raw ==> forall i :: 0 <= i < |r| ==> ',' !in r[i]
    ensures ',' !in raw ==> forall i :: 0 <= i < |r| ==> NoSpace(r[i])
  {
    if ',' in raw then
      StripNonEmptyFree(Split(raw, ','), ',');
      StripNonEmpty(Split(raw, ','))
    else
      var ws := Words(raw);
      WordsStripped(ws);
      StripNonEmpty(ws)
  }

  lemma WordsStripped(ws: seq<string>)
    requires forall i :: 0 <= i < |ws| ==> ws[i] != [] && NoSpace(ws[i])
    ensures StripNonEmpty(ws) == ws
  {
    StripNonEmptyFixpoint(ws);
  }

  /** `", ".join(xs)` is `",".join` of the same items with a space in front
      of every item but the first. */
  function SpacePrefixed(xs: seq<string>): (r: seq<string>)
    ensures |r| == |xs|
  {
    if xs == [] then [] else [" " + xs[0]] + SpacePrefixed(xs[1..])
  }

  lemma {:induction false} JoinCommaSpace(xs: seq<string>)
    requires |xs| >= 1
    ensures Join(", ", xs) == Join(",", [xs[0]] + SpacePrefixed(xs[1..]))
  {
    if |xs| > 1 {
      JoinCommaSpace(xs[1..]);
      assert ([xs[0]] + SpacePrefixed(xs[1..]))[1..] == SpacePrefixed(xs[1..]);
      assert SpacePrefixed(xs[1..]) == [" " + xs[1]] + SpacePrefixed(xs[2..]);
      assert xs[1..][1..] == xs[2..];
    }
  }

  lemma {:induction false} StripSpacePrefixed(xs: seq<string>)
    requires forall i :: 0 <= i < |xs| ==> xs[i] != [] && IsStripped(xs[i])
    ensures StripNonEmpty(SpacePrefixed(xs)) == xs
  {
    if xs != [] {
      StripSpacePrefix(xs[0]);
      StripSpacePrefixed(xs[1..]);
      assert [xs[0]] + xs[1..] == xs;
    }
  }

  /** The comma round trip: `", ".join` of two or more comma-free, non-empty,
      stripped items parses back to those items. */
  lemma CommaRoundTrip(xs: seq<string>)
    requires |xs| >= 2
    requires forall i :: 0 <= i < |xs| ==> xs[i] != [] && IsStripped(xs[i]) && ',' !in xs[i]
    ensures ParseStockInput(Join(", ", xs)) == xs
  {
    CommaSplit(xs);
    CommaPiecesStripped(xs);
  }

  lemma CommaSplit(xs: seq<string>)
    requires |xs| >= 2
    requires forall i :: 0 <= i < |xs| ==> ',' !in xs[i]
    ensures ',' in Join(", ", xs)
    ensures Split(Join(", ", xs), ',') == [xs[0]] + SpacePrefixed(xs[1..])
  {
    var parts := [xs[0]] + SpacePrefixed(xs[1..]);
    JoinCommaSpace(xs);
    var raw := Join(",", parts);
    CommaPiecesFree(xs);
    SplitJoin(parts, ',');
    assert raw == parts[0] + "," + Join(",", parts[1..]);
    assert raw[|parts[0]|] == ',';
  }

  lemma CommaPiecesStripped(xs: seq<string>)
    requires |xs| >= 1
    requires forall i :: 0 <= i < |xs| ==> xs[i] != [] && IsStripped(xs[i])
    ensures StripNonEmpty([xs[0]] + SpacePrefixed(xs[1..])) == xs
  {
    var parts := [xs[0]] + SpacePrefixed(xs[1..]);
    StrippedFixpoint(xs[0]);
    StripSpacePrefixed(xs[1..]);
    assert parts[1..] == SpacePrefixed(xs[1..]);
    assert [xs[0]] + xs[1..] == xs;
  }

  lemma CommaPiecesFree(xs: seq<string>)
    requires |xs| >= 1
    requires forall i :: 0 <= i < |xs| ==> ',' !in xs[i]
    ensures forall i :: 0 <= i < |[xs[0]] + SpacePrefixed(xs[1..])| ==> ',' !in ([xs[0]] + SpacePrefixed(xs[1..]))[i]
  {
    var parts := [xs[0]] + SpacePrefixed(xs[1..]);
    SpacePrefixedAt(xs[1..]);
    forall i | 1 <= i < |parts| ensures ',' !in parts[i] {
      assert parts[i] == SpacePrefixed(xs[1..])[i - 1] == " " + xs[i];
    }
  }

  lemma {:induction false} SpacePrefixedAt(xs: seq<string>)
    ensures forall i :: 0 <= i < |xs| ==> SpacePrefixed(xs)[i] == " " + xs[i]
  {
    if xs != [] {
      SpacePrefixedAt(xs[1..]);
    }
  }

  /** The whitespace round trip: space-joined words without commas or
      whitespace parse back to those words. */
  lemma SpaceRoundTrip(ws: seq<string>)
    requires forall i :: 0 <= i < |ws| ==> ws[i] != [] && NoSpace(ws[i]) && ',' !in ws[i]
    ensures ParseStockInput(Join(" ", ws)) == ws
  {
    WordsJoin(ws);
    WordsStripped(ws);
    assert ',' !in Join(" ", ws) by { JoinFree(" ", ws, ','); }
  }

  /** The tight comma round trip: `",".join` of two or more comma-free,
      non-empty, stripped items parses back to those items. */
  lemma TightCommaRoundTrip(xs: seq<string>)
    requires |xs| >= 2
    requires forall i :: 0 <= i < |xs| ==> xs[i] != [] && IsStripped(xs[i]) && ',' !in xs[i]
    ensures ParseStockInput(Join(",", xs)) == xs
  {
    var raw := Join(",", xs);
    assert [','] == ",";
    SplitJoin(xs, ',');
    assert raw == xs[0] + "," + Join(",", xs[1..]);
    assert raw[|xs[0]|] == ',';
    StripNonEmptyFixpoint(xs);
  }

  /** The examples of the `parse_stock_input` docstring, one lemma each. */
  lemma ParseSingleExample()
    ensures ParseStockInput("NVDA") == ["NVDA"]
  {
    assert Join(" ", ["NVDA"]) == "NVDA";
    SpaceRoundTrip(["NVDA"]);
  }

  lemma ParseCommaSpaceExample()
    ensures ParseStockInput("NVDA, AAPL") == ["NVDA", "AAPL"]
  {
    assert Join(", ", ["NVDA", "AAPL"]) == "NVDA, AAPL";
    CommaRoundTrip(["NVDA", "AAPL"]);
  }

  lemma ParseWordsExample()
    ensures ParseStockInput("Nvidia Apple") == ["Nvidia", "Apple"]
  {
    assert Join(" ", ["Nvidia", "Apple"]) == "Nvidia Apple";
    SpaceRoundTrip(["Nvidia", "Apple"]);
  }

  lemma ParseCommaExample()
    ensures ParseStockInput("NVDA,AAPL,TSLA") == ["NVDA", "AAPL", "TSLA"]
  {
    assert Join(",", ["NVDA", "AAPL", "TSLA"]) == "NVDA,AAPL,TSLA";
    TightCommaRoundTrip(["NVDA", "AAPL", "TSLA"]);
  }

  lemma {:induction false} JoinFree(sep: string, parts: seq<string>, c: char)
    requires c !in sep
    requires forall i :: 0 <= i < |parts| ==> c !in parts[i]
    ensures c !in Join(sep, parts)
  {
    if |parts| > 1 {
      JoinFree(sep, parts[1..], c);
    }
  }
}
