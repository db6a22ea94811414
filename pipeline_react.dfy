/**
 * The ReAct pipeline `MultiAgentsReAct.run`: the four steps of the plain pipeline, where the
 * inventory and order agents run in a bounded loop that executes the tool each reply calls
 * and feeds its result back, until a reply calls no tool or the iterations run out.
 */
module PipelineReact {
  import opened Wrappers
  import opened PyStr
  import PyDict
  import opened Json
  import opened AgentOutputs
  import opened ReactExecutor
  import opened McpClient
  import GetProducts
  import CreateOrder
  import InvokeAgents
  import Pipeline

  /**
   * An agent in its session: its reply to the prompts sent there so far, the latest last
   * (the text of the first event, "" when it has none), or the exception that run raises.
   */
  type Conversation = seq<string> -> Result<string, string>

  /**
   * `MultiAgentsReAct`: the four agents, and the MCP transport behind the two tool functions
   * the executor runs.
   */
  datatype MultiAgentsReAct = MultiAgentsReAct(codec: Codec, analysis: InvokeAgents.Runner, inventory: Conversation,
                                               order: Conversation, consultant: InvokeAgents.Runner,
                                               transport: Transport)

  /** `max_iterations` of both tool-supported stages. */
  const MaxIterations := 3

  /** The UnboundLocalError of returning `response_text` when the loop never ran. */
  const Unbound := "cannot access local variable 'response_text' " + "where it is not associated with a value"

  /**
   * `check_inventory_detail` and `create_customer_order` called with keyword arguments that
   * bind; both answer with text on every path.
   */
  function PipelineTools(codec: Codec, transport: Transport): (string, PyDict.Entries<Json>) -> ToolOutcome {
    (name: string, args: PyDict.Entries<Json>) =>
      if name == "check_inventory_detail" then
        Returned(GetProducts.InventoryReply(codec, transport, PyDict.GetOr(args, "product", JNull),
                                            PyDict.GetOr(args, "storage", JNull), PyDict.GetOr(args, "color", JNull)))
      else Returned(CreateOrder.CustomerOrderReply(codec, transport, PyDict.GetOr(args, "order_details", JNull)))
  }

  /** The executor `__init__` builds over the two tool functions. */
  function Exec(r: MultiAgentsReAct): Executor {
    PipelineExecutor(PipelineTools(r.codec, r.transport))
  }

  /** The prompt that answers a tool call with the tool's result. */
  function FollowUp(toolName: string, toolOutput: string): string {
    "Bạn đã gọi tool " + Quoted(toolName) + " và nhận được kết quả:\n" + toolOutput + FollowUpTail
  }

  const FollowUpTail := "\n\n" + ("Hãy sử dụng kết quả này để hoàn thành " + "nhiệm vụ và trả về JSON như yêu cầu.")

  /** What the loop reads off `process_agent_output`'s dict: no call, or the tool's name and result. */
  datatype Observed = NoToolCall | ToolUsed(toolName: string, toolOutput: string)

  /** `process_agent_output` as the loop sees it, an exception included. */
  function ObserveReply(exec: Executor, codec: Codec, response: string): Result<Observed, string> {
    match ToolCallOf(codec, response)
    case Failure(e) => Failure(e)
    case Success(None) => Success(NoToolCall)
    case Success(Some(call)) => Success(ToolUsed(call.toolName, ExecuteTool(exec, codec, call)))
  }

  function Observe(exec: Executor, codec: Codec): string -> Result<Observed, string> {
    (response: string) => ObserveReply(exec, codec, response)
  }

  /** What the tool loop gives, and every prompt it sent to the agent's session, in order. */
  datatype Turns = Turns(reply: Result<string, string>, sent: seq<string>)

  /**
   * The loop from the moment `prompt` is about to be sent, with `remaining` iterations left
   * and `sent` already in the session; `observe` parses a reply and runs the tool it calls,
   * `followUp` builds the prompt that hands a tool's result back to the agent.
   */
  function LoopFrom(observe: string -> Result<Observed, string>, followUp: (string, string) -> string, agent: Conversation,
                    sent: seq<string>, prompt: string, remaining: nat): Turns
    requires remaining >= 1
    decreases remaining
  {
    var history := sent + [prompt];
    match agent(history)
    case Failure(e) => Turns(Failure(e), history)
    case Success(response) =>
      match observe(response)
      case Failure(e) => Turns(Failure(e), history)
      case Success(NoToolCall) => Turns(Success(response), history)
      case Success(ToolUsed(name, output)) =>
        if remaining == 1 then Turns(Success(response), history)
        else LoopFrom(observe, followUp, agent, history, followUp(name, output), remaining - 1)
  }

  /** What `_run_agent_with_tool_support` returns, or raises, for that agent in a fresh session. */
  function ToolSupport(exec: Executor, codec: Codec, agent: Conversation, prompt: string, maxIterations: int): Turns {
    if maxIterations <= 0 then Turns(Failure(Unbound), [])
    else LoopFrom(Observe(exec, codec), FollowUp, agent, [], prompt, maxIterations)
  }

  /** `_run_agent_with_tool_support`: up to `maxIterations` rounds of reply, parse, run the tool. */
  method RunAgentWithToolSupport(exec: Executor, codec: Codec, agent: Conversation, prompt: string, maxIterations: int)
    returns (reply: Result<string, string>, sent: seq<string>)
    ensures Turns(reply, sent) == ToolSupport(exec, codec, agent, prompt, maxIterations)
  {
    reply, sent := ToolLoop(Observe(exec, codec), FollowUp, agent, prompt, maxIterations);
  }

  /**
   * The loop of `_run_agent_with_tool_support`, for any step `observe` that parses a reply and
   * runs the tool it calls (`Observation` shows the executor's is one) and any builder
   * `followUp` of the prompt that hands the tool's result back.
   */
  method ToolLoop(observe: string -> Result<Observed, string>, followUp: (string, string) -> string, agent: Conversation,
                  prompt: string, maxIterations: int)
    returns (reply: Result<string, string>, sent: seq<string>)
    ensures maxIterations <= 0 ==> Turns(reply, sent) == Turns(Failure(Unbound), [])
    ensures maxIterations > 0 ==> Turns(reply, sent) == LoopFrom(observe, followUp, agent, [], prompt, maxIterations)
  {
    var currentPrompt := prompt;
    sent := [];
    var responseText: Option<string> := None;
    var iteration := 0;
    while iteration < maxIterations
      invariant 0 <= iteration && (iteration > 0 ==> iteration <= maxIterations)
      invariant |sent| == iteration && (iteration == 0 <==> responseText.None?)
      invariant iteration == 0 ==> currentPrompt == prompt
      invariant 0 < iteration < maxIterations ==>
        LoopFrom(observe, followUp, agent, [], prompt, maxIterations)
        == LoopFrom(observe, followUp, agent, sent, currentPrompt, maxIterations - iteration)
      invariant 0 < iteration == maxIterations ==>
        LoopFrom(observe, followUp, agent, [], prompt, maxIterations) == Turns(Success(responseText.value), sent)
      decreases maxIterations - iteration
    {
      sent := sent + [currentPrompt];
      var answer := agent(sent);
      if answer.Failure? {
        return Failure(answer.error), sent;
      }
      var response := answer.value;
      responseText := Some(response);
      var toolResult := observe(response);
      if toolResult.Failure? {
        return Failure(toolResult.error), sent;
      }
      if toolResult.value.NoToolCall? {
        return Success(response), sent;
      }
      currentPrompt := followUp(toolResult.value.toolName, toolResult.value.toolOutput);
      iteration := iteration + 1;
    }
    if responseText.None? {
      return Failure(Unbound), sent;
    }
    return Success(responseText.value), sent;
  }

  /** `process_agent_output` on a reply, read the way the loop reads its dict. */
  method Observation(exec: Executor, codec: Codec, response: string) returns (seen: Result<Observed, string>)
    ensures seen == Observe(exec, codec)(response)
  {
    var toolResult := ProcessAgentOutput(exec, codec, response);
    if toolResult.Failure? {
      return Failure(toolResult.error);
    }
    if !toolResult.value.toolCalled {
      return Success(NoToolCall);
    }
    return Success(ToolUsed(toolResult.value.toolName.value, toolResult.value.toolResult.value));
  }

  /** The `i`-th prompt answers the tool call in the reply to the prompts before it. */
  ghost predicate FollowsToolCall(observe: string -> Result<Observed, string>, followUp: (string, string) -> string,
                                  agent: Conversation, sent: seq<string>, i: nat)
    requires 1 <= i < |sent|
  {
    var a := agent(sent[..i]);
    a.Success? && var c := observe(a.value);
    c.Success? && c.value.ToolUsed? && sent[i] == followUp(c.value.toolName, c.value.toolOutput)
  }

  /**
   * The loop sends `prompt` first and at most `remaining` prompts in all, each later prompt
   * answering the previous reply's tool call; it returns the first reply that calls no tool,
   * or the last reply when the iterations ran out, and raises what the agent raised on the
   * last prompt or what the parse of its last reply raised.
   */
  lemma {:induction false} LoopTurns(observe: string -> Result<Observed, string>, followUp: (string, string) -> string,
                                     agent: Conversation, sent: seq<string>, prompt: string, remaining: nat)
    requires remaining >= 1
    ensures var t := LoopFrom(observe, followUp, agent, sent, prompt, remaining);
      && |sent| < |t.sent| <= |sent| + remaining
      && t.sent[..|sent|] == sent && t.sent[|sent|] == prompt
      && (forall i :: |sent| < i < |t.sent| ==> FollowsToolCall(observe, followUp, agent, t.sent, i))
      && (t.reply.Failure? ==> agent(t.sent) == t.reply
                               || (agent(t.sent).Success? && observe(agent(t.sent).value) == Failure(t.reply.error)))
      && (t.reply.Success? ==> agent(t.sent) == t.reply)
      && (t.reply.Success? && observe(t.reply.value) != Success(NoToolCall) ==> |t.sent| == |sent| + remaining)
    decreases remaining
  {
    var history := sent + [prompt];
    var a := agent(history);
    var c := if a.Success? then observe(a.value) else Failure(a.error);
    if a.Success? && c.Success? && c.value.ToolUsed? && remaining > 1 {
      var next := followUp(c.value.toolName, c.value.toolOutput);
      LoopTurns(observe, followUp, agent, history, next, remaining - 1);
      var t := LoopFrom(observe, followUp, agent, history, next, remaining - 1);
      assert t == LoopFrom(observe, followUp, agent, sent, prompt, remaining);
      assert t.sent[..|history|] == history;
      assert t.sent[..|sent|] == t.sent[..|history|][..|sent|];
      assert t.sent[|sent|] == t.sent[..|history|][|sent|];
      forall i | |sent| < i < |t.sent|
        ensures FollowsToolCall(observe, followUp, agent, t.sent, i)
      {
        if i == |history| {
          assert t.sent[..i] == history;
        }
      }
    }
  }

  /**
   * `_run_agent_with_tool_support` calls the agent at most `maxIterations` times, first with
   * the given prompt and then with each tool's result; it returns the first reply without a
   * tool call, or the last reply once every iteration called a tool, and raises what the
   * agent's last run or the parse of its last reply raised. With no iteration at all it raises.
   */
  lemma ToolLoopMeaning(exec: Executor, codec: Codec, agent: Conversation, prompt: string, maxIterations: int)
    ensures var t := ToolSupport(exec, codec, agent, prompt, maxIterations);
      && (maxIterations <= 0 ==> t == Turns(Failure(Unbound), []))
      && (maxIterations > 0 ==> 1 <= |t.sent| <= maxIterations && t.sent[0] == prompt)
      && (forall i :: 0 < i < |t.sent| ==> FollowsToolCall(Observe(exec, codec), FollowUp, agent, t.sent, i))
      && (maxIterations > 0 && t.reply.Failure? ==>
            agent(t.sent) == t.reply
            || (agent(t.sent).Success? && ObserveReply(exec, codec, agent(t.sent).value) == Failure(t.reply.error)))
      && (t.reply.Success? ==> agent(t.sent) == t.reply)
      && (t.reply.Success? && ObserveReply(exec, codec, t.reply.value) != Success(NoToolCall) ==> |t.sent| == maxIterations)
  {
    if maxIterations > 0 {
      LoopTurns(Observe(exec, codec), FollowUp, agent, [], prompt, maxIterations);
    }
  }

  /**
   * What the loop observes is the executor's: a reply without a parsed call is no tool call,
   * a parsed call yields that tool's name and `execute_tool`'s text, and a parse that raises
   * is passed on.
   */
  lemma ObserveMeaning(exec: Executor, codec: Codec, response: string)
    ensures ObserveReply(exec, codec, response).Failure? <==> ToolCallOf(codec, response).Failure?
    ensures ObserveReply(exec, codec, response) == Success(NoToolCall) <==> ToolCallOf(codec, response) == Success(None)
    ensures ObserveReply(exec, codec, response).Success? && ObserveReply(exec, codec, response).value.ToolUsed? ==>
      var call := ToolCallOf(codec, response).value.value;
      ObserveReply(exec, codec, response).value == ToolUsed(call.toolName, ExecuteTool(exec, codec, call))
  {
  }

  /** The follow-up prompt names the tool, quoted, and carries its result. */
  lemma FollowUpEmbeds(toolName: string, toolOutput: string)
    ensures Contains(FollowUp(toolName, toolOutput), Quoted(toolName))
    ensures Contains(FollowUp(toolName, toolOutput), toolOutput)
  {
    var head := "Bạn đã gọi tool ";
    var q := Quoted(toolName);
    var mid := " và nhận được kết quả:\n";
    ContainsLast(head, q);
    ContainsPrefix(head + q, mid, q);
    ContainsPrefix(head + q + mid, toolOutput, q);
    ContainsPrefix(head + q + mid + toolOutput, FollowUpTail, q);
    ContainsLast(head + q + mid, toolOutput);
    ContainsPrefix(head + q + mid + toolOutput, FollowUpTail, toolOutput);
  }

  // ---------------------------------------------------------------- the stages

  function InventoryPrompt(analysisResult: string): string {
    "Dựa trên kết quả phân tích sau, " + "hãy kiểm tra tồn kho:\n" + analysisResult + "\n\n"
    + "Hãy gọi tool check_inventory_detail " + "với format:\n"
    + "TOOL_CALL: check_inventory_detail\n"
    + "ARGS: {\"product\": \"...\", " + "\"storage\": \"...\", \"color\": \"...\"}"
  }

  function OrderPrompt(codec: Codec, analysisResult: string, inventoryResult: string, ctx: Option<PyDict.Entries<Json>>): string {
    Pipeline.OrderHeader
    + Pipeline.Line("Analysis: ", analysisResult)
    + Pipeline.Line("Inventory: ", Pipeline.OrElse(inventoryResult, Pipeline.NoInventoryForOrder))
    + Pipeline.ContextLine(codec, ctx)
    + ("\nHãy gọi tool create_customer_order " + "với format:\n"
       + "TOOL_CALL: create_customer_order\n" + "ARGS: {\"order_details\": {...}}")
  }

  /** A stage's result: None when not requested, else the tool loop's reply or what it raised. */
  function StageOf(requested: bool, exec: Executor, codec: Codec, agent: Conversation, prompt: string): Result<Option<string>, string> {
    if !requested then Success(None)
    else match ToolSupport(exec, codec, agent, prompt, MaxIterations).reply
      case Success(t) => Success(Some(t))
      case Failure(e) => Failure(e)
  }

  function InventoryStage(r: MultiAgentsReAct, data: PyDict.Entries<Json>, analysisResult: string): Result<Option<string>, string> {
    StageOf(Requested(data, "requires_inventory_check"), Exec(r), r.codec, r.inventory, InventoryPrompt(analysisResult))
  }

  function OrderStage(r: MultiAgentsReAct, data: PyDict.Entries<Json>, analysisResult: string, inventoryResult: string,
                      ctx: Option<PyDict.Entries<Json>>): Result<Option<string>, string>
  {
    StageOf(Requested(data, "requires_order_placement"), Exec(r), r.codec, r.order,
            OrderPrompt(r.codec, analysisResult, inventoryResult, ctx))
  }

  /** What `run` returns. */
  function RunOf(r: MultiAgentsReAct, query: string, ctx: Option<PyDict.Entries<Json>>,
                 sessionId: Option<string>, freshUuid: string): Pipeline.RunOutcome
  {
    match r.analysis(Pipeline.AnalysisPrompt(r.codec, query, ctx))
    case Failure(e) => Pipeline.Failed(e)
    case Success(analysisResult) =>
      var data := Pipeline.AnalysisDataOf(r.codec, analysisResult);
      if !data.JObj? then Pipeline.Failed(NoAttribute(data, "get"))
      else StagesOf(r, query, ctx, SessionIdOf(sessionId, freshUuid), analysisResult, data.fields)
  }

  /** What `run` returns once the analysis gave a dict. */
  function StagesOf(r: MultiAgentsReAct, query: string, ctx: Option<PyDict.Entries<Json>>, sid: string,
                    analysisResult: string, data: PyDict.Entries<Json>): Pipeline.RunOutcome
  {
    match InventoryStage(r, data, analysisResult)
    case Failure(e) => Pipeline.Failed(e)
    case Success(inv) => AfterInventory(r, query, ctx, sid, analysisResult, data, inv)
  }

  /** What `run` returns once the inventory stage gave `inv`. */
  function AfterInventory(r: MultiAgentsReAct, query: string, ctx: Option<PyDict.Entries<Json>>, sid: string,
                          analysisResult: string, data: PyDict.Entries<Json>, inv: Option<string>): Pipeline.RunOutcome
  {
    match OrderStage(r, data, analysisResult, inv.GetOr(""), ctx)
    case Failure(e) => Pipeline.Failed(e)
    case Success(ord) =>
      match r.consultant(Pipeline.ConsultantPrompt(r.codec, query, analysisResult, inv.GetOr(""), ord.GetOr(""), ctx))
      case Failure(e) => Pipeline.Failed(e)
      case Success(final) => Pipeline.Completion(Audit(Pipeline.Names, analysisResult, inv, ord, final), final, sid)
  }

  /** `MultiAgentsReAct.run`, step by step; `freshUuid` is the uuid it would draw. */
  method Run(r: MultiAgentsReAct, query: string, ctx: Option<PyDict.Entries<Json>>, sessionId: Option<string>, freshUuid: string)
    returns (out: Pipeline.RunOutcome)
    ensures out == RunOf(r, query, ctx, sessionId, freshUuid)
  {
    var sid := freshUuid;
    if sessionId.Some? {
      sid := sessionId.value;
    }
    var analysis := r.analysis(Pipeline.AnalysisPrompt(r.codec, query, ctx));
    if analysis.Failure? {
      return Pipeline.Failed(analysis.error);
    }
    var analysisResult := analysis.value;
    var analysisData := JObj([]);
    if analysisResult != "" {
      var parsed := r.codec.loads(analysisResult);
      if parsed.Success? {
        analysisData := parsed.value;
      }
    }
    assert analysisData == Pipeline.AnalysisDataOf(r.codec, analysisResult);
    if !analysisData.JObj? {
      return Pipeline.Failed(NoAttribute(analysisData, "get"));
    }
    out := Steps(r, query, ctx, sid, analysisResult, analysisData.fields);
  }

  /** The tool-supported stages, the consultant and the envelope; a raising stage ends the run. */
  method Steps(r: MultiAgentsReAct, query: string, ctx: Option<PyDict.Entries<Json>>, sid: string,
               analysisResult: string, data: PyDict.Entries<Json>)
    returns (out: Pipeline.RunOutcome)
    ensures out == StagesOf(r, query, ctx, sid, analysisResult, data)
  {
    var agentOutputs := [AgentOutput(Pipeline.Names.analysis, analysisResult)];
    var inv := InventoryStep(r, data, analysisResult);
    if inv.Failure? {
      return Pipeline.Failed(inv.error);
    }
    if inv.value.Some? {
      agentOutputs := agentOutputs + [AgentOutput(Pipeline.Names.inventory, inv.value.value)];
    }
    out := Finish(r, query, ctx, sid, analysisResult, data, inv.value, agentOutputs);
  }

  /** The order stage, the consultant and the envelope, after the inventory stage gave `inv`. */
  method Finish(r: MultiAgentsReAct, query: string, ctx: Option<PyDict.Entries<Json>>, sid: string,
                analysisResult: string, data: PyDict.Entries<Json>, inv: Option<string>, outs: seq<AgentOutput>)
    returns (out: Pipeline.RunOutcome)
    requires outs == [AgentOutput(Pipeline.Names.analysis, analysisResult)] + Optional(Pipeline.Names.inventory, inv)
    ensures out == AfterInventory(r, query, ctx, sid, analysisResult, data, inv)
  {
    var agentOutputs := outs;
    var inventoryResult := inv.GetOr("");
    var ord := OrderStep(r, data, analysisResult, inventoryResult, ctx);
    if ord.Failure? {
      return Pipeline.Failed(ord.error);
    }
    if ord.value.Some? {
      agentOutputs := agentOutputs + [AgentOutput(Pipeline.Names.order, ord.value.value)];
    }
    var orderResult := ord.value.GetOr("");
    var final := r.consultant(Pipeline.ConsultantPrompt(r.codec, query, analysisResult, inventoryResult, orderResult, ctx));
    if final.Failure? {
      return Pipeline.Failed(final.error);
    }
    var finalResponse := final.value;
    agentOutputs := agentOutputs + [AgentOutput(Pipeline.Names.consultant, finalResponse)];
    assert agentOutputs == Audit(Pipeline.Names, analysisResult, inv, ord.value, finalResponse);
    out := Pipeline.Completion(agentOutputs, finalResponse, sid);
  }

  /** Step 2: the inventory agent in its tool loop, when the analysis asks for it. */
  method InventoryStep(r: MultiAgentsReAct, data: PyDict.Entries<Json>, analysisResult: string)
    returns (result: Result<Option<string>, string>)
    ensures result == InventoryStage(r, data, analysisResult)
  {
    result := Success(None);
    if Truthy(PyDict.GetOr(data, "requires_inventory_check", JNull)) {
      var reply, sent := RunAgentWithToolSupport(Exec(r), r.codec, r.inventory, InventoryPrompt(analysisResult), MaxIterations);
      if reply.Failure? {
        return Failure(reply.error);
      }
      result := Success(Some(reply.value));
    }
  }

  /** Step 3: the order agent in its tool loop, when the analysis asks for it. */
  method OrderStep(r: MultiAgentsReAct, data: PyDict.Entries<Json>, analysisResult: string, inventoryResult: string,
                   ctx: Option<PyDict.Entries<Json>>)
    returns (result: Result<Option<string>, string>)
    ensures result == OrderStage(r, data, analysisResult, inventoryResult, ctx)
  {
    result := Success(None);
    if Truthy(PyDict.GetOr(data, "requires_order_placement", JNull)) {
      var reply, sent := RunAgentWithToolSupport(Exec(r), r.codec, r.order,
                                                 OrderPrompt(r.codec, analysisResult, inventoryResult, ctx), MaxIterations);
      if reply.Failure? {
        return Failure(reply.error);
      }
      result := Success(Some(reply.value));
    }
  }

  // ---------------------------------------------------------------- what a run promises

  /**
   * The error envelope carries the exception's text and no session id, the success envelope
   * the given or freshly drawn session id; an analysis agent that raises ends the run with its
   * exception, an analysis that decodes to something that is no dict with the `AttributeError`
   * of its `.get`, and a dict hands its entries to the stages.
   */
  lemma RunOutcomeCases(r: MultiAgentsReAct, query: string, ctx: Option<PyDict.Entries<Json>>,
                        sessionId: Option<string>, freshUuid: string)
    ensures var out := RunOf(r, query, ctx, sessionId, freshUuid);
      var analysis := r.analysis(Pipeline.AnalysisPrompt(r.codec, query, ctx));
      && (out.Errored? ==> out.status == "error" && out.customerResponse == Pipeline.ErrorPrefix + out.error)
      && (out.Completed? ==> out.status == "success" && out.sessionId == (if sessionId.Some? then sessionId.value else freshUuid))
      && (analysis.Failure? ==> out == Pipeline.Failed(analysis.error))
      && (analysis.Success? && !Pipeline.AnalysisDataOf(r.codec, analysis.value).JObj? ==>
            out == Pipeline.Failed(NoAttribute(Pipeline.AnalysisDataOf(r.codec, analysis.value), "get")))
      && (analysis.Success? && Pipeline.AnalysisDataOf(r.codec, analysis.value).JObj? ==>
            out == StagesOf(r, query, ctx, SessionIdOf(sessionId, freshUuid), analysis.value,
                            Pipeline.AnalysisDataOf(r.codec, analysis.value).fields))
  {
    var analysis := r.analysis(Pipeline.AnalysisPrompt(r.codec, query, ctx));
    if analysis.Success? {
      var data := Pipeline.AnalysisDataOf(r.codec, analysis.value);
      if data.JObj? {
        StagesEnvelope(r, query, ctx, SessionIdOf(sessionId, freshUuid), analysis.value, data.fields);
      }
    }
  }

  /** Past the analysis, the envelope is an error one with the exception's text, or a success one under `sid`. */
  lemma StagesEnvelope(r: MultiAgentsReAct, query: string, ctx: Option<PyDict.Entries<Json>>, sid: string,
                       analysisResult: string, data: PyDict.Entries<Json>)
    ensures var out := StagesOf(r, query, ctx, sid, analysisResult, data);
      && (out.Errored? ==> out.status == "error" && out.customerResponse == Pipeline.ErrorPrefix + out.error)
      && (out.Completed? ==> out.status == "success" && out.sessionId == sid)
  {
    var inv := InventoryStage(r, data, analysisResult);
    if inv.Success? {
      assert StagesOf(r, query, ctx, sid, analysisResult, data) == AfterInventory(r, query, ctx, sid, analysisResult, data, inv.value);
    }
  }

  /**
   * Past the analysis, a run fails exactly when a requested tool-supported stage or the
   * consultant raises, with the first such exception: the inventory stage's, else the order
   * stage's, else the consultant's; otherwise it completes under `sid`.
   */
  lemma StageFailureEndsRun(r: MultiAgentsReAct, query: string, ctx: Option<PyDict.Entries<Json>>, sid: string,
                            analysisResult: string, data: PyDict.Entries<Json>)
    ensures var out := StagesOf(r, query, ctx, sid, analysisResult, data);
      var inv := InventoryStage(r, data, analysisResult);
      && (inv.Failure? ==> out == Pipeline.Failed(inv.error))
      && (inv.Success? ==>
            var ord := OrderStage(r, data, analysisResult, inv.value.GetOr(""), ctx);
            && (ord.Failure? ==> out == Pipeline.Failed(ord.error))
            && (ord.Success? ==>
                  var final := r.consultant(Pipeline.ConsultantPrompt(r.codec, query, analysisResult, inv.value.GetOr(""),
                                                                      ord.value.GetOr(""), ctx));
                  && (final.Failure? ==> out == Pipeline.Failed(final.error))
                  && (final.Success? ==> out.Completed? && out.sessionId == sid)))
  {
  }

  /**
   * A requested stage that raises does so because its tool loop raised: the agent raised on
   * its last prompt, or its last reply carried a tool call whose arguments decode to something
   * that is no object.
   */
  lemma StageFailure(requested: bool, exec: Executor, codec: Codec, agent: Conversation, prompt: string)
    requires StageOf(requested, exec, codec, agent, prompt).Failure?
    ensures requested
    ensures var t := ToolSupport(exec, codec, agent, prompt, MaxIterations);
      && t.reply == Failure(StageOf(requested, exec, codec, agent, prompt).error)
      && (agent(t.sent) == t.reply || (agent(t.sent).Success? && ToolCallOf(codec, agent(t.sent).value) == Failure(t.reply.error)))
  {
    var t := ToolSupport(exec, codec, agent, prompt, MaxIterations);
    ToolLoopMeaning(exec, codec, agent, prompt, MaxIterations);
  }

  /**
   * An empty or undecodable analysis runs neither tool-supported stage: the slots hold the
   * analysis and the consultant only, whatever the inventory and order agents and the tools
   * would do.
   */
  lemma UnparsedAnalysisSkipsStages(r: MultiAgentsReAct, query: string, ctx: Option<PyDict.Entries<Json>>,
                                    sessionId: Option<string>, freshUuid: string,
                                    other: MultiAgentsReAct)
    requires other.codec == r.codec && other.analysis == r.analysis && other.consultant == r.consultant
    requires var a := r.analysis(Pipeline.AnalysisPrompt(r.codec, query, ctx));
      a.Success? && (a.value == "" || r.codec.loads(a.value).Failure?)
    ensures var out := RunOf(r, query, ctx, sessionId, freshUuid);
      var analysisResult := r.analysis(Pipeline.AnalysisPrompt(r.codec, query, ctx)).value;
      var final := r.consultant(Pipeline.ConsultantPrompt(r.codec, query, analysisResult, "", "", ctx));
      && out == (if final.Failure? then Pipeline.Failed(final.error)
                 else Pipeline.Completion([AgentOutput("analysis_agent", analysisResult), AgentOutput("consultant_agent", final.value)],
                                          final.value, SessionIdOf(sessionId, freshUuid)))
      && (out.Completed? ==> out.task3Output.None? && out.task4Output.None?)
      && out == RunOf(other, query, ctx, sessionId, freshUuid)
  {
    UnparsedRun(r, query, ctx, sessionId, freshUuid);
    UnparsedRun(other, query, ctx, sessionId, freshUuid);
  }

  /** With an empty or undecodable analysis, `run` goes straight to the consultant. */
  lemma UnparsedRun(r: MultiAgentsReAct, query: string, ctx: Option<PyDict.Entries<Json>>,
                    sessionId: Option<string>, freshUuid: string)
    requires var a := r.analysis(Pipeline.AnalysisPrompt(r.codec, query, ctx));
      a.Success? && (a.value == "" || r.codec.loads(a.value).Failure?)
    ensures var analysisResult := r.analysis(Pipeline.AnalysisPrompt(r.codec, query, ctx)).value;
      RunOf(r, query, ctx, sessionId, freshUuid) == AfterInventory(r, query, ctx, SessionIdOf(sessionId, freshUuid), analysisResult, [], None)
      && OrderStage(r, [], analysisResult, "", ctx) == Success(None)
  {
    var analysisResult := r.analysis(Pipeline.AnalysisPrompt(r.codec, query, ctx)).value;
    assert Pipeline.AnalysisDataOf(r.codec, analysisResult) == JObj([]);
  }

  /**
   * Once both tool-supported stages gave their result, the run completes exactly when the
   * consultant answers; the success envelope's task slots then mirror the audit list analysis,
   * [inventory], [order], consultant by index, and the customer sees the consultant's reply or
   * the apology.
   */
  lemma CompletedSlots(r: MultiAgentsReAct, query: string, ctx: Option<PyDict.Entries<Json>>, sid: string,
                       analysisResult: string, data: PyDict.Entries<Json>)
    requires InventoryStage(r, data, analysisResult).Success?
    requires OrderStage(r, data, analysisResult, InventoryStage(r, data, analysisResult).value.GetOr(""), ctx).Success?
    ensures var out := StagesOf(r, query, ctx, sid, analysisResult, data);
      var inv := InventoryStage(r, data, analysisResult).value;
      var ord := OrderStage(r, data, analysisResult, inv.GetOr(""), ctx).value;
      var final := r.consultant(Pipeline.ConsultantPrompt(r.codec, query, analysisResult, inv.GetOr(""), ord.GetOr(""), ctx));
      && (inv.Some? <==> Requested(data, "requires_inventory_check"))
      && (ord.Some? <==> Requested(data, "requires_order_placement"))
      && (final.Failure? ==> out == Pipeline.Failed(final.error))
      && (final.Success? ==>
            && out.Completed? && out.sessionId == sid
            && out.task1Output == Some(AgentOutput("analysis_agent", analysisResult))
            && out.task2Output == (if inv.Some? then Some(AgentOutput("inventory_agent", inv.value))
                                   else if ord.Some? then Some(AgentOutput("order_agent", ord.value))
                                   else Some(AgentOutput("consultant_agent", final.value)))
            && (out.task4Output.Some? <==> inv.Some? && ord.Some?)
            && out.customerResponse == (if final.value != "" then final.value else Pipeline.Apology))
  {
    var inv := InventoryStage(r, data, analysisResult).value;
    var ord := OrderStage(r, data, analysisResult, inv.GetOr(""), ctx).value;
    var final := r.consultant(Pipeline.ConsultantPrompt(r.codec, query, analysisResult, inv.GetOr(""), ord.GetOr(""), ctx));
    if final.Success? {
      AuditSlots(Pipeline.Names, analysisResult, inv, ord, final.value);
    }
  }

  /**
   * The executor runs the two tool functions `__init__` hands it: a call to
   * `check_inventory_detail` or `create_customer_order` whose arguments bind answers with that
   * tool's text, product, storage and color, or the order details, taken from the arguments.
   */
  lemma PipelineToolsRun(r: MultiAgentsReAct, call: ToolCall)
    ensures call.toolName == "check_inventory_detail" && BindError(call.toolName, ["product", "storage", "color"], call.args).None? ==>
      ExecuteTool(Exec(r), r.codec, call)
      == GetProducts.InventoryReply(r.codec, r.transport, PyDict.GetOr(call.args, "product", JNull),
                                    PyDict.GetOr(call.args, "storage", JNull), PyDict.GetOr(call.args, "color", JNull))
    ensures call.toolName == "create_customer_order" && BindError(call.toolName, ["order_details"], call.args).None? ==>
      ExecuteTool(Exec(r), r.codec, call)
      == CreateOrder.CustomerOrderReply(r.codec, r.transport, PyDict.GetOr(call.args, "order_details", JNull))
  {
    var exec := Exec(r);
    PyDict.GetFirst(exec.tools, 0, "check_inventory_detail");
    PyDict.GetFirst(exec.tools, 1, "create_customer_order");
  }

  /** The order agent sees the inventory reply, or "Không có" without one. */
  lemma OrderPromptPlaceholder(codec: Codec, analysisResult: string, inventoryResult: string, ctx: Option<PyDict.Entries<Json>>)
    ensures Contains(OrderPrompt(codec, analysisResult, inventoryResult, ctx),
                     Pipeline.Line("Inventory: ", if inventoryResult == "" then "Không có" else inventoryResult))
  {
    var h := Pipeline.OrderHeader + Pipeline.Line("Analysis: ", analysisResult);
    var i := Pipeline.Line("Inventory: ", Pipeline.OrElse(inventoryResult, Pipeline.NoInventoryForOrder));
    var cl := Pipeline.ContextLine(codec, ctx);
    ContainsLast(h, i);
    ContainsPrefix(h + i, cl, i);
    ContainsPrefix(h + i + cl, "\nHãy gọi tool create_customer_order " + "với format:\n"
                               + "TOOL_CALL: create_customer_order\n" + "ARGS: {\"order_details\": {...}}", i);
  }
}
