/**
 * The four-step pipeline `MultiAgents.run`: analysis, then the inventory and order agents
 * when the parsed analysis asks for them, then the consultant, answered with the four task
 * slots of the audit list, or with the error envelope when a step raises.
 */
module Pipeline {
  import opened Wrappers
  import opened PyStr
  import PyDict
  import opened Json
  import opened AgentOutputs
  import InvokeAgents

  /** `MultiAgents`: the four agents, each answering the one prompt of its fresh session. */
  datatype MultiAgents = MultiAgents(codec: Codec, analysis: InvokeAgents.Runner, inventory: InvokeAgents.Runner,
                                     order: InvokeAgents.Runner, consultant: InvokeAgents.Runner)

  /** The dict `run` returns: the success envelope with its task slots, or the error envelope. */
  datatype RunOutcome =
    | Completed(customerResponse: string, task1Output: Option<AgentOutput>, task2Output: Option<AgentOutput>,
                task3Output: Option<AgentOutput>, task4Output: Option<AgentOutput>, sessionId: string, status: string)
    | Errored(customerResponse: string, status: string, error: string)

  const Names := StageNames("analysis_agent", "inventory_agent", "order_agent", "consultant_agent")
  const Apology := "Xin lỗi, tôi không thể xử lý " + "yêu cầu của bạn lúc này."
  const ErrorPrefix := "Xin lỗi, đã xảy ra lỗi khi " + "xử lý yêu cầu của bạn: "
  const NoInventoryForOrder := "Không có"
  const NoInventoryPlaceholder := "Không kiểm tra"
  const NoOrderPlaceholder := "Chưa tạo đơn"

  /** `initial_context_data` is truthy: given and not empty. */
  predicate HasContext(ctx: Option<PyDict.Entries<Json>>) {
    ctx.Some? && ctx.value != []
  }

  /** `s or placeholder` for a string. */
  function OrElse(s: string, placeholder: string): string {
    if s != "" then s else placeholder
  }

  /** The analysis prompt: the bare query, or the query behind the serialised context. */
  function AnalysisPrompt(codec: Codec, query: string, ctx: Option<PyDict.Entries<Json>>): string {
    if !HasContext(ctx) then query
    else "Context: " + codec.dumps(JObj(ctx.value), Unicode) + "\nCâu hỏi khách hàng: " + query
  }

  /** `json.loads(analysis_result) if analysis_result else {}`, a decode error giving `{}` too. */
  function AnalysisDataOf(codec: Codec, analysisResult: string): Json {
    if analysisResult == "" then JObj([])
    else match codec.loads(analysisResult)
      case Success(v) => v
      case Failure(_) => JObj([])
  }

  /** The customer-context line of the order and consultant prompts; empty without a context. */
  function ContextLine(codec: Codec, ctx: Option<PyDict.Entries<Json>>): string {
    if HasContext(ctx) then "Customer context: " + codec.dumps(JObj(ctx.value), Unicode) + "\n" else ""
  }

  /** One `key value` line of a prompt. */
  function Line(key: string, value: string): string {
    key + value + "\n"
  }

  function InventoryPrompt(analysisResult: string): string {
    "Dựa trên kết quả phân tích sau, " + "hãy kiểm tra tồn kho:\n" + analysisResult + "\n"
    + "Nếu cần gọi hàm, hãy sử dụng " + "check_inventory_detail như hướng dẫn."
  }

  const OrderHeader := "Khởi tạo đơn hàng dựa trên " + "thông tin sau:\n"

  function OrderPrompt(codec: Codec, analysisResult: string, inventoryResult: string, ctx: Option<PyDict.Entries<Json>>): string {
    OrderHeader
    + Line("Analysis: ", analysisResult)
    + Line("Inventory: ", OrElse(inventoryResult, NoInventoryForOrder))
    + ContextLine(codec, ctx)
    + ("Nếu thiếu thông tin, trả về " + "thông báo lỗi dạng JSON.")
  }

  /** The opening line of the consultant's prompt. */
  const ConsultantHeader := "Sinh câu trả lời cuối cùng " + "cho khách hàng dựa trên thông tin:\n"

  /** The consultant's prompt, a placeholder standing in for each stage that gave nothing. */
  function ConsultantPrompt(codec: Codec, query: string, analysisResult: string, inventoryResult: string,
                            orderResult: string, ctx: Option<PyDict.Entries<Json>>): string
  {
    ConsultantHeader
    + Line("Customer query: ", query)
    + Line("Analysis: ", analysisResult)
    + Line("Inventory: ", OrElse(inventoryResult, NoInventoryPlaceholder))
    + Line("Order: ", OrElse(orderResult, NoOrderPlaceholder))
    + ContextLine(codec, ctx)
    + "Trả lời thân thiện bằng tiếng Việt."
  }

  /** The success envelope over the audit list `outs`. */
  function Completion(outs: seq<AgentOutput>, final: string, sid: string): RunOutcome {
    Completed(OrElse(final, Apology), TaskSlot(outs, 0), TaskSlot(outs, 1), TaskSlot(outs, 2), TaskSlot(outs, 3), sid, "success")
  }

  /** The error envelope for an exception whose `str` is `e`. */
  function Failed(e: string): RunOutcome {
    Errored(ErrorPrefix + e, "error", e)
  }

  /**
   * What an optional stage gives: nothing when the analysis does not ask for it, else the
   * agent's reply or the exception its run raises.
   */
  function StageReply(requested: bool, agent: InvokeAgents.Runner, prompt: string): Result<Option<string>, string> {
    if !requested then Success(None)
    else match agent(prompt)
      case Success(s) => Success(Some(s))
      case Failure(e) => Failure(e)
  }

  /** What `run` returns. */
  function RunOf(m: MultiAgents, query: string, ctx: Option<PyDict.Entries<Json>>,
                 sessionId: Option<string>, freshUuid: string): RunOutcome
  {
    match m.analysis(AnalysisPrompt(m.codec, query, ctx))
    case Failure(e) => Failed(e)
    case Success(analysisResult) =>
      var data := AnalysisDataOf(m.codec, analysisResult);
      if !data.JObj? then Failed(NoAttribute(data, "get"))
      else StagesOf(m, query, ctx, SessionIdOf(sessionId, freshUuid), analysisResult, data.fields)
  }

  /** What `run` returns once the analysis gave a dict. */
  function StagesOf(m: MultiAgents, query: string, ctx: Option<PyDict.Entries<Json>>, sid: string,
                    analysisResult: string, data: PyDict.Entries<Json>): RunOutcome
  {
    match StageReply(Requested(data, "requires_inventory_check"), m.inventory, InventoryPrompt(analysisResult))
    case Failure(e) => Failed(e)
    case Success(inv) => AfterInventory(m, query, ctx, sid, analysisResult, data, inv)
  }

  /** What `run` returns once the inventory stage gave `inv`. */
  function AfterInventory(m: MultiAgents, query: string, ctx: Option<PyDict.Entries<Json>>, sid: string,
                          analysisResult: string, data: PyDict.Entries<Json>, inv: Option<string>): RunOutcome
  {
    match StageReply(Requested(data, "requires_order_placement"), m.order, OrderPrompt(m.codec, analysisResult, inv.GetOr(""), ctx))
    case Failure(e) => Failed(e)
    case Success(ord) => Consulted(m, query, ctx, sid, analysisResult, inv, ord)
  }

  /** The consultant's step and the envelope, once the optional stages gave `inv` and `ord`. */
  function Consulted(m: MultiAgents, query: string, ctx: Option<PyDict.Entries<Json>>, sid: string,
                     analysisResult: string, inv: Option<string>, ord: Option<string>): RunOutcome
  {
    match m.consultant(ConsultantPrompt(m.codec, query, analysisResult, inv.GetOr(""), ord.GetOr(""), ctx))
    case Failure(e) => Failed(e)
    case Success(final) => Completion(Audit(Names, analysisResult, inv, ord, final), final, sid)
  }

  /** `MultiAgents.run`, step by step; `freshUuid` is the uuid it would draw. */
  method Run(m: MultiAgents, query: string, ctx: Option<PyDict.Entries<Json>>, sessionId: Option<string>, freshUuid: string)
    returns (r: RunOutcome)
    ensures r == RunOf(m, query, ctx, sessionId, freshUuid)
  {
    var sid := freshUuid;
    if sessionId.Some? {
      sid := sessionId.value;
    }
    var analysis := m.analysis(AnalysisPrompt(m.codec, query, ctx));
    if analysis.Failure? {
      return Failed(analysis.error);
    }
    var analysisResult := analysis.value;
    var analysisData := JObj([]);
    if analysisResult != "" {
      var parsed := m.codec.loads(analysisResult);
      if parsed.Success? {
        analysisData := parsed.value;
      }
    }
    assert analysisData == AnalysisDataOf(m.codec, analysisResult);
    if !analysisData.JObj? {
      return Failed(NoAttribute(analysisData, "get"));
    }
    r := Steps(m, query, ctx, sid, analysisResult, analysisData.fields);
  }

  /** The optional steps, the consultant and the envelope, appending each step's record. */
  method Steps(m: MultiAgents, query: string, ctx: Option<PyDict.Entries<Json>>, sid: string,
               analysisResult: string, data: PyDict.Entries<Json>)
    returns (r: RunOutcome)
    ensures r == StagesOf(m, query, ctx, sid, analysisResult, data)
  {
    var agentOutputs := [AgentOutput(Names.analysis, analysisResult)];
    var inventoryResult := "";
    ghost var inv: Option<string> := None;
    if Truthy(PyDict.GetOr(data, "requires_inventory_check", JNull)) {
      var reply := m.inventory(InventoryPrompt(analysisResult));
      if reply.Failure? {
        return Failed(reply.error);
      }
      inventoryResult := reply.value;
      agentOutputs := agentOutputs + [AgentOutput(Names.inventory, inventoryResult)];
      inv := Some(inventoryResult);
    }
    assert StageReply(Requested(data, "requires_inventory_check"), m.inventory, InventoryPrompt(analysisResult)) == Success(inv);
    assert agentOutputs == [AgentOutput(Names.analysis, analysisResult)] + Optional(Names.inventory, inv);
    var orderResult := "";
    ghost var ord: Option<string> := None;
    if Truthy(PyDict.GetOr(data, "requires_order_placement", JNull)) {
      var reply := m.order(OrderPrompt(m.codec, analysisResult, inventoryResult, ctx));
      if reply.Failure? {
        return Failed(reply.error);
      }
      orderResult := reply.value;
      agentOutputs := agentOutputs + [AgentOutput(Names.order, orderResult)];
      ord := Some(orderResult);
    }
    assert StageReply(Requested(data, "requires_order_placement"), m.order, OrderPrompt(m.codec, analysisResult, inv.GetOr(""), ctx)) == Success(ord);
    assert agentOutputs == [AgentOutput(Names.analysis, analysisResult)] + Optional(Names.inventory, inv) + Optional(Names.order, ord);
    var final := m.consultant(ConsultantPrompt(m.codec, query, analysisResult, inventoryResult, orderResult, ctx));
    if final.Failure? {
      return Failed(final.error);
    }
    var finalResponse := final.value;
    agentOutputs := agentOutputs + [AgentOutput(Names.consultant, finalResponse)];
    assert agentOutputs == Audit(Names, analysisResult, inv, ord, finalResponse);
    r := Completion(agentOutputs, finalResponse, sid);
  }

  // ---------------------------------------------------------------- what a run promises

  /**
   * A stage that is not asked for gives nothing and calls no agent; one that is asked for
   * gives its agent's reply, or raises what the agent's run raises.
   */
  lemma StageReplyMeaning(requested: bool, agent: InvokeAgents.Runner, prompt: string, other: InvokeAgents.Runner)
    ensures StageReply(requested, agent, prompt) == Success(None) <==> !requested
    ensures !requested ==> StageReply(requested, agent, prompt) == StageReply(requested, other, prompt)
    ensures StageReply(requested, agent, prompt).Failure? <==> requested && agent(prompt).Failure?
    ensures requested && agent(prompt).Success? ==> StageReply(requested, agent, prompt) == Success(Some(agent(prompt).value))
    ensures requested && agent(prompt).Failure? ==> StageReply(requested, agent, prompt).error == agent(prompt).error
  {
  }

  /**
   * A run whose analysis agent raises ends in the error envelope with that exception; so does
   * an analysis that decodes to something that is no dict, with the `AttributeError` of its
   * `.get`; a dict hands its entries to the stages. The error envelope carries the exception's
   * text and no session id, the success envelope the given session id, or the freshly drawn
   * one only when none is given.
   */
  lemma RunOutcomeCases(m: MultiAgents, query: string, ctx: Option<PyDict.Entries<Json>>,
                        sessionId: Option<string>, freshUuid: string)
    ensures var r := RunOf(m, query, ctx, sessionId, freshUuid);
      var analysis := m.analysis(AnalysisPrompt(m.codec, query, ctx));
      && (analysis.Failure? ==> r == Failed(analysis.error))
      && (analysis.Success? && !AnalysisDataOf(m.codec, analysis.value).JObj? ==>
            && analysis.value != "" && m.codec.loads(analysis.value).Success?
            && r == Failed(NoAttribute(m.codec.loads(analysis.value).value, "get")))
      && (analysis.Success? && AnalysisDataOf(m.codec, analysis.value).JObj? ==>
            r == StagesOf(m, query, ctx, SessionIdOf(sessionId, freshUuid), analysis.value, AnalysisDataOf(m.codec, analysis.value).fields))
      && (r.Errored? ==> r.status == "error" && r.customerResponse == ErrorPrefix + r.error)
      && (r.Completed? ==> r.status == "success" && r.sessionId == (if sessionId.Some? then sessionId.value else freshUuid))
  {
    var analysis := m.analysis(AnalysisPrompt(m.codec, query, ctx));
    if analysis.Success? {
      var data := AnalysisDataOf(m.codec, analysis.value);
      if data.JObj? {
        StagesEnvelope(m, query, ctx, SessionIdOf(sessionId, freshUuid), analysis.value, data.fields);
      }
    }
  }

  /** Past the analysis, the envelope is an error one with the exception's text, or a success one under `sid`. */
  lemma StagesEnvelope(m: MultiAgents, query: string, ctx: Option<PyDict.Entries<Json>>, sid: string,
                       analysisResult: string, data: PyDict.Entries<Json>)
    ensures var r := StagesOf(m, query, ctx, sid, analysisResult, data);
      && (r.Errored? ==> r.status == "error" && r.customerResponse == ErrorPrefix + r.error)
      && (r.Completed? ==> r.status == "success" && r.sessionId == sid)
  {
    var inv := StageReply(Requested(data, "requires_inventory_check"), m.inventory, InventoryPrompt(analysisResult));
    if inv.Success? {
      assert StagesOf(m, query, ctx, sid, analysisResult, data) == AfterInventory(m, query, ctx, sid, analysisResult, data, inv.value);
      var ord := StageReply(Requested(data, "requires_order_placement"), m.order,
                            OrderPrompt(m.codec, analysisResult, inv.value.GetOr(""), ctx));
      if ord.Success? {
        assert AfterInventory(m, query, ctx, sid, analysisResult, data, inv.value)
            == Consulted(m, query, ctx, sid, analysisResult, inv.value, ord.value);
      }
    }
  }

  /** With a session id given, the uuid the run would draw plays no part. */
  lemma GivenSessionIdKept(m: MultiAgents, query: string, ctx: Option<PyDict.Entries<Json>>,
                           sessionId: string, freshUuid: string, otherUuid: string)
    ensures RunOf(m, query, ctx, Some(sessionId), freshUuid) == RunOf(m, query, ctx, Some(sessionId), otherUuid)
  {
  }

  /**
   * Past the analysis, the run fails exactly when an agent it calls raises: the inventory agent
   * when asked for, else the order agent when asked for, else the consultant, each with its
   * own exception. Otherwise it completes under `sid`.
   */
  lemma StagesOutcome(m: MultiAgents, query: string, ctx: Option<PyDict.Entries<Json>>, sid: string,
                      analysisResult: string, data: PyDict.Entries<Json>)
    ensures var r := StagesOf(m, query, ctx, sid, analysisResult, data);
      var inv := StageReply(Requested(data, "requires_inventory_check"), m.inventory, InventoryPrompt(analysisResult));
      && (inv.Failure? ==> r == Failed(inv.error))
      && (inv.Success? ==>
            var ord := StageReply(Requested(data, "requires_order_placement"), m.order,
                                  OrderPrompt(m.codec, analysisResult, inv.value.GetOr(""), ctx));
            && (ord.Failure? ==> r == Failed(ord.error))
            && (ord.Success? ==>
                  var final := m.consultant(ConsultantPrompt(m.codec, query, analysisResult, inv.value.GetOr(""), ord.value.GetOr(""), ctx));
                  && (final.Failure? ==> r == Failed(final.error))
                  && (final.Success? ==> r.Completed? && r.status == "success" && r.sessionId == sid)))
  {
  }

  /**
   * The consultant's step completes exactly when the consultant answers, and then the task
   * slots mirror the audit list by index and the customer sees the reply or the apology.
   */
  lemma ConsultedSlots(m: MultiAgents, query: string, ctx: Option<PyDict.Entries<Json>>, sid: string,
                       analysisResult: string, inv: Option<string>, ord: Option<string>)
    ensures var r := Consulted(m, query, ctx, sid, analysisResult, inv, ord);
      var final := m.consultant(ConsultantPrompt(m.codec, query, analysisResult, inv.GetOr(""), ord.GetOr(""), ctx));
      && (r.Completed? <==> final.Success?)
      && (r.Completed? ==>
            var outs := Audit(Names, analysisResult, inv, ord, final.value);
            && [r.task1Output, r.task2Output, r.task3Output, r.task4Output]
               == [TaskSlot(outs, 0), TaskSlot(outs, 1), TaskSlot(outs, 2), TaskSlot(outs, 3)]
            && r.task1Output == Some(AgentOutput("analysis_agent", analysisResult))
            && (r.task4Output.Some? <==> inv.Some? && ord.Some?)
            && (inv.Some? ==> r.task2Output == Some(AgentOutput("inventory_agent", inv.value)))
            && r.customerResponse == (if final.value != "" then final.value else Apology))
  {
    var final := m.consultant(ConsultantPrompt(m.codec, query, analysisResult, inv.GetOr(""), ord.GetOr(""), ctx));
    if final.Success? {
      AuditSlots(Names, analysisResult, inv, ord, final.value);
    }
  }

  /**
   * A completed run got a dict from the analysis and a reply from every agent it called; each
   * optional stage is present exactly when the analysis asked for it, and the slots are those
   * of the consultant's step.
   */
  lemma CompletedSlots(m: MultiAgents, query: string, ctx: Option<PyDict.Entries<Json>>, sessionId: Option<string>,
                       freshUuid: string)
    ensures var r := RunOf(m, query, ctx, sessionId, freshUuid);
      var analysis := m.analysis(AnalysisPrompt(m.codec, query, ctx));
      r.Completed? ==> (analysis.Success? && AnalysisDataOf(m.codec, analysis.value).JObj? &&
        var analysisResult := analysis.value;
        var data := AnalysisDataOf(m.codec, analysisResult).fields;
        var inv := StageReply(Requested(data, "requires_inventory_check"), m.inventory, InventoryPrompt(analysisResult));
        inv.Success? &&
        var ord := StageReply(Requested(data, "requires_order_placement"), m.order,
                              OrderPrompt(m.codec, analysisResult, inv.value.GetOr(""), ctx));
        ord.Success?
        && (inv.value.Some? <==> Requested(data, "requires_inventory_check"))
        && (ord.value.Some? <==> Requested(data, "requires_order_placement"))
        && r == Consulted(m, query, ctx, SessionIdOf(sessionId, freshUuid), analysisResult, inv.value, ord.value))
  {
  }

  /**
   * An empty or undecodable analysis runs neither optional stage: the run is the consultant's
   * step over two empty stage results, its slots hold the analysis and the consultant only,
   * and it does not depend on what the inventory and order agents would do.
   */
  lemma UnparsedAnalysisSkipsStages(m: MultiAgents, query: string, ctx: Option<PyDict.Entries<Json>>,
                                    sessionId: Option<string>, freshUuid: string,
                                    otherInventory: InvokeAgents.Runner, otherOrder: InvokeAgents.Runner)
    requires var a := m.analysis(AnalysisPrompt(m.codec, query, ctx)); a.Success? && (a.value == "" || m.codec.loads(a.value).Failure?)
    ensures var r := RunOf(m, query, ctx, sessionId, freshUuid);
      var analysisResult := m.analysis(AnalysisPrompt(m.codec, query, ctx)).value;
      var final := m.consultant(ConsultantPrompt(m.codec, query, analysisResult, "", "", ctx));
      && r == (if final.Failure? then Failed(final.error)
               else Completion([AgentOutput("analysis_agent", analysisResult), AgentOutput("consultant_agent", final.value)],
                               final.value, SessionIdOf(sessionId, freshUuid)))
      && (r.Completed? ==> r.task3Output.None? && r.task4Output.None?)
      && r == RunOf(m.(inventory := otherInventory, order := otherOrder), query, ctx, sessionId, freshUuid)
  {
    var analysisResult := m.analysis(AnalysisPrompt(m.codec, query, ctx)).value;
    assert AnalysisDataOf(m.codec, analysisResult) == JObj([]);
  }

  /**
   * The order agent sees the inventory reply, or "Không có" without one; the consultant sees
   * each stage's reply, or "Không kiểm tra" / "Chưa tạo đơn" for a stage that gave nothing.
   */
  lemma PromptPlaceholders(codec: Codec, query: string, analysisResult: string, inventoryResult: string,
                           orderResult: string, ctx: Option<PyDict.Entries<Json>>)
    ensures Contains(OrderPrompt(codec, analysisResult, inventoryResult, ctx),
                     Line("Inventory: ", if inventoryResult == "" then "Không có" else inventoryResult))
    ensures var p := ConsultantPrompt(codec, query, analysisResult, inventoryResult, orderResult, ctx);
      && Contains(p, Line("Inventory: ", if inventoryResult == "" then "Không kiểm tra" else inventoryResult))
      && Contains(p, Line("Order: ", if orderResult == "" then "Chưa tạo đơn" else orderResult))
  {
    var a := Line("Analysis: ", analysisResult);
    var i := Line("Inventory: ", OrElse(inventoryResult, NoInventoryForOrder));
    var cl := ContextLine(codec, ctx);
    ContainsLast(OrderHeader + a, i);
    ContainsPrefix(OrderHeader + a + i, cl, i);
    ContainsPrefix(OrderHeader + a + i + cl, "Nếu thiếu thông tin, trả về " + "thông báo lỗi dạng JSON.", i);
    var h := ConsultantHeader + Line("Customer query: ", query) + a;
    var ci := Line("Inventory: ", OrElse(inventoryResult, NoInventoryPlaceholder));
    var co := Line("Order: ", OrElse(orderResult, NoOrderPlaceholder));
    var closing := "Trả lời thân thiện bằng tiếng Việt.";
    ContainsLast(h, ci);
    ContainsPrefix(h + ci, co, ci);
    ContainsPrefix(h + ci + co, cl, ci);
    ContainsPrefix(h + ci + co + cl, closing, ci);
    ContainsLast(h + ci, co);
    ContainsPrefix(h + ci + co, cl, co);
    ContainsPrefix(h + ci + co + cl, closing, co);
  }
}
