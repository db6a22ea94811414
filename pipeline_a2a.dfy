/**
 * The agent-card pipeline: analysis, then the inventory and order agents through the
 * handlers the registry holds for them, then the consultant, collected into one envelope.
 */
module PipelineA2A {
  import opened Wrappers
  import opened PyStr
  import PyDict
  import opened Json
  import opened McpClient
  import opened AgentsA2A
  import opened InvokeAgents
  import opened AgentOutputs

  /**
   * A registered handler closure, by the keyword arguments it takes: `(query, context)` or
   * `(query, inventory_info, customer_info)`. The order closure also takes the uuid its
   * handler draws; either closure answers with its reply or with the exception it raises.
   */
  datatype Handler =
    | InventoryHandler(inventoryCall: (Json, string) -> Result<string, string>)
    | OrderHandler(orderCall: (Json, string, string, string) -> Result<string, string>)

  /** The dict `run` returns. */
  datatype RunResult = RunResult(customerResponse: string, agentOutputs: seq<AgentOutput>, sessionId: string, status: string)

  const Apology := "Xin lỗi, tôi không thể " + "xử lý yêu cầu lúc này."
  const NoInventoryPlaceholder := "Không kiểm tra"
  const NoOrderPlaceholder := "Không tạo đơn"

  /** What an analysis that is no JSON is replaced by. */
  const AnalysisDefaults: Json := JObj([("requires_inventory_check", JBool(false)), ("requires_order_placement", JBool(false))])

  /** `json.loads(analysis_result)`, any failure replaced by the defaults. */
  function AnalysisData(codec: Codec, analysisResult: string): Json {
    match codec.loads(analysisResult)
    case Success(v) => v
    case Failure(_) => AnalysisDefaults
  }

  /** `customer_context or {"customer_name": "Khách hàng", "conversation_id": session_id}`. */
  function CustomerInfo(customerContext: Option<PyDict.Entries<Json>>, sessionId: string): Json {
    if customerContext.Some? && customerContext.value != [] then JObj(customerContext.value)
    else JObj([("customer_name", JStr("Khách hàng")), ("conversation_id", JStr(sessionId))])
  }

  /** `analysis_data.get("product_details") or query`. */
  function StageQuery(data: PyDict.Entries<Json>, query: string): Json {
    Or(PyDict.GetOr(data, "product_details", JNull), JStr(query))
  }

  /**
   * The inventory stage's result, None when it is not requested, no handler is registered,
   * or the handler raises (a handler of the other kind rejects the keyword arguments).
   */
  function InventoryStage(codec: Codec, handler: Option<Handler>,
                          data: PyDict.Entries<Json>, query: string): Option<string>
  {
    if !Requested(data, "requires_inventory_check") then None
    else match handler
      case Some(InventoryHandler(call)) =>
        (match call(StageQuery(data, query), codec.dumps(JObj(data), Unicode))
         case Success(s) => Some(s)
         case Failure(_) => None)
      case _ => None
  }

  /** `inventory_result or json.dumps({})`. */
  function InventoryInfo(codec: Codec, inventoryResult: string): string {
    if inventoryResult != "" then inventoryResult else codec.dumps(JObj([]), Unicode)
  }

  /**
   * The order stage's result, None when it is not requested, no order handler is registered,
   * or the handler raises.
   */
  function OrderStage(codec: Codec, handler: Option<Handler>, data: PyDict.Entries<Json>,
                      query: string, inventoryResult: string, customerInfo: Json, convHex: string): Option<string>
  {
    if !Requested(data, "requires_order_placement") then None
    else match handler
      case Some(OrderHandler(call)) =>
        (match call(StageQuery(data, query), InventoryInfo(codec, inventoryResult), codec.dumps(customerInfo, Unicode), convHex)
         case Success(s) => Some(s)
         case Failure(_) => None)
      case _ => None
  }

  /** The opening lines of the consultant's prompt, up to the query. */
  const PromptHeader := "\nTạo câu trả lời cuối cho khách hàng " + "dựa trên:\n\nCustomer Query: "

  /** The consultant's prompt, a placeholder standing in for each stage that gave nothing. */
  function ConsultantPrompt(codec: Codec, query: string, analysisResult: string, inventoryResult: string,
                            orderResult: string, customerInfo: Json): string
  {
    PromptHeader + query
    + "\n\nAnalysis:\n" + analysisResult
    + "\n\nInventory Result:\n" + (if inventoryResult != "" then inventoryResult else NoInventoryPlaceholder)
    + "\n\nOrder Result:\n" + (if orderResult != "" then orderResult else NoOrderPlaceholder)
    + "\n\nCustomer Info:\n" + ConsultantTail(codec, customerInfo)
  }

  /** The customer info, indented by two, and the closing instructions. */
  function ConsultantTail(codec: Codec, customerInfo: Json): string {
    codec.dumps(customerInfo, UnicodeIndented(2))
    + "\n\nHãy trả lời thân thiện bằng tiếng Việt.\n"
    + "Không sử dụng /*PLANNING*/, "
    + "không đưa mã nguồn hoặc pseudo-code, "
    + "chỉ trả lời bằng đoạn văn hoàn chỉnh.\n"
  }

  /** The names this pipeline files its stages under. */
  const Names := StageNames("analysis", "inventory", "order", "consultant")

  /** What `run` returns, or the exception it raises, given the two handlers the registry holds. */
  function RunOf(codec: Codec, analysisRunner: Runner, consultantRunner: Runner,
                 inventoryHandler: Option<Handler>, orderHandler: Option<Handler>,
                 query: string, sessionId: Option<string>, customerContext: Option<PyDict.Entries<Json>>,
                 freshUuid: string, convHex: string): Result<RunResult, string>
  {
    var sid := SessionIdOf(sessionId, freshUuid);
    match analysisRunner(query)
    case Failure(e) => Failure(e)
    case Success(analysisResult) =>
      var data := AnalysisData(codec, analysisResult);
      if !data.JObj? then Failure(NoAttribute(data, "get"))
      else
        var customerInfo := CustomerInfo(customerContext, sid);
        var inv := InventoryStage(codec, inventoryHandler, data.fields, query);
        var ord := OrderStage(codec, orderHandler, data.fields, query, inv.GetOr(""), customerInfo, convHex);
        Finished(consultantRunner(ConsultantPrompt(codec, query, analysisResult, inv.GetOr(""), ord.GetOr(""), customerInfo)),
                 analysisResult, inv, ord, sid)
  }

  /** The consultant's exception, or the envelope built around its reply. */
  function Finished(final: Result<string, string>, analysisResult: string, inv: Option<string>, ord: Option<string>,
                    sid: string): Result<RunResult, string>
  {
    match final
    case Failure(e) => Failure(e)
    case Success(f) => Success(Envelope(analysisResult, inv, ord, f, sid))
  }

  /** `RunOf` of an analysis that parses to a dict, stage by stage. */
  lemma RunOfStages(codec: Codec, analysisRunner: Runner, consultantRunner: Runner,
                    inventoryHandler: Option<Handler>, orderHandler: Option<Handler>,
                    query: string, sessionId: Option<string>, customerContext: Option<PyDict.Entries<Json>>,
                    freshUuid: string, convHex: string)
    requires analysisRunner(query).Success? && AnalysisData(codec, analysisRunner(query).value).JObj?
    ensures var sid := SessionIdOf(sessionId, freshUuid);
      var analysisResult := analysisRunner(query).value;
      var data := AnalysisData(codec, analysisResult).fields;
      var customerInfo := CustomerInfo(customerContext, sid);
      var inv := InventoryStage(codec, inventoryHandler, data, query);
      var ord := OrderStage(codec, orderHandler, data, query, inv.GetOr(""), customerInfo, convHex);
      var final := consultantRunner(ConsultantPrompt(codec, query, analysisResult, inv.GetOr(""), ord.GetOr(""), customerInfo));
      RunOf(codec, analysisRunner, consultantRunner, inventoryHandler, orderHandler, query, sessionId, customerContext, freshUuid, convHex)
        == Finished(final, analysisResult, inv, ord, sid)
  {
  }

  /** The result dict of a run that got through, from what each stage gave. */
  function Envelope(analysisResult: string, inv: Option<string>, ord: Option<string>, final: string, sid: string): RunResult {
    RunResult(if final != "" then final else Apology, Audit(Names, analysisResult, inv, ord, final), sid, "success")
  }

  /** The inventory closure `__init__` registers. */
  function InventoryCall(codec: Codec, runner: Runner, transport: Transport): (Json, string) -> Result<string, string> {
    (query: Json, context: string) => InventoryReplyOf(codec, runner, transport, query, context)
  }

  /** The order closure `__init__` registers. */
  function OrderCall(codec: Codec, runner: Runner, transport: Transport): (Json, string, string, string) -> Result<string, string> {
    (query: Json, inventoryInfo: string, customerInfo: string, convHex: string) =>
      OrderReplyOf(codec, runner, transport, query, inventoryInfo, customerInfo, convHex)
  }

  /** `A2APipeline`: the four agents' runners and the registry of the two callable ones. */
  class A2APipeline {
    const codec: Codec
    const transport: Transport
    const analysisRunner: Runner
    const inventoryRunner: Runner
    const orderRunner: Runner
    const consultantRunner: Runner
    var registry: AgentRegistry<Runner, Handler>

    ghost predicate Valid()
      reads this, registry
    {
      registry.Valid()
    }

    /** `__init__`: the inventory and order cards are registered with their handlers. */
    constructor (codec: Codec, transport: Transport, analysisRunner: Runner, inventoryRunner: Runner,
                 orderRunner: Runner, consultantRunner: Runner)
      ensures Valid() && fresh(registry)
      ensures this.codec == codec && this.transport == transport && this.analysisRunner == analysisRunner
      ensures this.inventoryRunner == inventoryRunner && this.orderRunner == orderRunner && this.consultantRunner == consultantRunner
      ensures registry.GetHandler("inventory_agent") == Some(InventoryHandler(InventoryCall(codec, inventoryRunner, transport)))
      ensures registry.GetHandler("order_agent") == Some(OrderHandler(OrderCall(codec, orderRunner, transport)))
      ensures registry.GetRunner("inventory_agent") == Some(inventoryRunner) && registry.GetRunner("order_agent") == Some(orderRunner)
      ensures PyDict.Keys(registry.cards) == ["inventory_agent", "order_agent"]
    {
      this.codec := codec;
      this.transport := transport;
      this.analysisRunner := analysisRunner;
      this.inventoryRunner := inventoryRunner;
      this.orderRunner := orderRunner;
      this.consultantRunner := consultantRunner;
      var reg := new AgentRegistry<Runner, Handler>();
      reg.Register(InventoryCard, inventoryRunner, InventoryHandler(InventoryCall(codec, inventoryRunner, transport)));
      reg.Register(OrderCard, orderRunner, OrderHandler(OrderCall(codec, orderRunner, transport)));
      registry := reg;
    }

    /** `list_registered_agents`. */
    function ListRegisteredAgents(): (r: seq<AgentCard>)
      reads this, registry
      requires Valid()
      ensures |r| == |registry.cards| && forall i :: 0 <= i < |r| ==> r[i].name == PyDict.Keys(registry.cards)[i]
      ensures forall i :: 0 <= i < |r| ==> registry.GetCard(r[i].name) == Some(r[i])
    {
      registry.ListAgents()
    }

    /** `run`, stage by stage; `freshUuid` and `convHex` are the uuids it would draw. */
    method Run(query: string, sessionId: Option<string>, customerContext: Option<PyDict.Entries<Json>>,
               freshUuid: string, convHex: string)
      returns (r: Result<RunResult, string>)
      requires Valid()
      ensures r == RunOf(codec, analysisRunner, consultantRunner,
                         registry.GetHandler("inventory_agent"), registry.GetHandler("order_agent"),
                         query, sessionId, customerContext, freshUuid, convHex)
    {
      var hInv := registry.GetHandler("inventory_agent");
      var hOrd := registry.GetHandler("order_agent");
      var sid := freshUuid;
      if sessionId.Some? {
        sid := sessionId.value;
      }
      assert sid == SessionIdOf(sessionId, freshUuid);
      var analysis := analysisRunner(query);
      if analysis.Failure? {
        return Failure(analysis.error);
      }
      var analysisResult := analysis.value;
      var analysisData := AnalysisDefaults;
      var parsed := codec.loads(analysisResult);
      if parsed.Success? {
        analysisData := parsed.value;
      }
      assert analysisData == AnalysisData(codec, analysisResult);
      if !analysisData.JObj? {
        return Failure(NoAttribute(analysisData, "get"));
      }
      RunOfStages(codec, analysisRunner, consultantRunner, hInv, hOrd, query, sessionId, customerContext, freshUuid, convHex);
      r := Stages(hInv, hOrd, query, analysisResult, analysisData.fields, sid, customerContext, convHex);
    }

    /** What `run` does once the analysis parsed to a dict: the stages, then the envelope. */
    method Stages(hInv: Option<Handler>, hOrd: Option<Handler>, query: string, analysisResult: string,
                  data: PyDict.Entries<Json>, sid: string, customerContext: Option<PyDict.Entries<Json>>, convHex: string)
      returns (result: Result<RunResult, string>)
      ensures var customerInfo := CustomerInfo(customerContext, sid);
        var inv := InventoryStage(codec, hInv, data, query);
        var ord := OrderStage(codec, hOrd, data, query, inv.GetOr(""), customerInfo, convHex);
        var final := consultantRunner(ConsultantPrompt(codec, query, analysisResult, inv.GetOr(""), ord.GetOr(""), customerInfo));
        result == Finished(final, analysisResult, inv, ord, sid)
    {
      var agentOutputs := [AgentOutput("analysis", analysisResult)];
      var inv := InventoryStep(hInv, data, query);
      if inv.Some? {
        agentOutputs := agentOutputs + [AgentOutput("inventory", inv.value)];
      }
      assert agentOutputs == [AgentOutput("analysis", analysisResult)] + Optional("inventory", inv);
      var inventoryResult := inv.GetOr("");
      var customerInfo := CustomerInfo(customerContext, sid);
      var ord := OrderStep(hOrd, data, query, inventoryResult, customerInfo, convHex);
      if ord.Some? {
        agentOutputs := agentOutputs + [AgentOutput("order", ord.value)];
      }
      assert agentOutputs == [AgentOutput("analysis", analysisResult)] + Optional("inventory", inv) + Optional("order", ord);
      var final := Consult(query, analysisResult, inventoryResult, ord.GetOr(""), customerInfo);
      if final.Failure? {
        return Failure(final.error);
      }
      var finalResponse := final.value;
      agentOutputs := agentOutputs + [AgentOutput("consultant", finalResponse)];
      result := Success(RunResult(if finalResponse != "" then finalResponse else Apology, agentOutputs, sid, "success"));
    }

    /** Step 2: the inventory handler, when the analysis asks for it and one is registered. */
    method InventoryStep(handler: Option<Handler>, data: PyDict.Entries<Json>, query: string)
      returns (result: Option<string>)
      ensures result == InventoryStage(codec, handler, data, query)
    {
      result := None;
      if Truthy(PyDict.GetOr(data, "requires_inventory_check", JNull)) && handler.Some? && handler.value.InventoryHandler? {
        var reply := handler.value.inventoryCall(StageQuery(data, query), codec.dumps(JObj(data), Unicode));
        if reply.Success? {
          result := Some(reply.value);
        }
      }
    }

    /** Step 3: the order handler, when the analysis asks for it and one is registered. */
    method OrderStep(handler: Option<Handler>, data: PyDict.Entries<Json>, query: string,
                     inventoryResult: string, customerInfo: Json, convHex: string)
      returns (result: Option<string>)
      ensures result == OrderStage(codec, handler, data, query, inventoryResult, customerInfo, convHex)
    {
      result := None;
      if Truthy(PyDict.GetOr(data, "requires_order_placement", JNull)) && handler.Some? && handler.value.OrderHandler? {
        var inventoryInfo := if inventoryResult != "" then inventoryResult else codec.dumps(JObj([]), Unicode);
        var reply := handler.value.orderCall(StageQuery(data, query), inventoryInfo, codec.dumps(customerInfo, Unicode), convHex);
        if reply.Success? {
          result := Some(reply.value);
        }
      }
    }

    /** Step 4: the consultant asked with the prompt built from the stages' results. */
    method Consult(query: string, analysisResult: string, inventoryResult: string, orderResult: string, customerInfo: Json)
      returns (finalResponse: Result<string, string>)
      ensures finalResponse == consultantRunner(ConsultantPrompt(codec, query, analysisResult, inventoryResult, orderResult, customerInfo))
    {
      var consultantPrompt := ConsultantPrompt(codec, query, analysisResult, inventoryResult, orderResult, customerInfo);
      finalResponse := consultantRunner(consultantPrompt);
    }
  }

  // ---------------------------------------------------------------- what a run promises

  /**
   * `run` raises exactly when the analysis agent raises, when the analysis parses to something
   * else than a dict, or when the consultant raises; a failing inventory or order handler is
   * swallowed. Otherwise it answers with the envelope of what each stage gave, under the given
   * or fresh session id.
   */
  lemma RunEnvelope(codec: Codec, analysisRunner: Runner, consultantRunner: Runner,
                    hInv: Option<Handler>, hOrd: Option<Handler>, query: string, sessionId: Option<string>,
                    customerContext: Option<PyDict.Entries<Json>>, freshUuid: string, convHex: string)
    ensures var r := RunOf(codec, analysisRunner, consultantRunner, hInv, hOrd, query, sessionId, customerContext, freshUuid, convHex);
      var analysis := analysisRunner(query);
      && (analysis.Failure? ==> r == Failure(analysis.error))
      && (analysis.Success? && !AnalysisData(codec, analysis.value).JObj? ==>
            codec.loads(analysis.value).Success? && r == Failure(NoAttribute(AnalysisData(codec, analysis.value), "get")))
    ensures var r := RunOf(codec, analysisRunner, consultantRunner, hInv, hOrd, query, sessionId, customerContext, freshUuid, convHex);
      var analysis := analysisRunner(query);
      analysis.Success? && AnalysisData(codec, analysis.value).JObj? ==>
        var data := AnalysisData(codec, analysis.value);
        var sid := if sessionId.Some? then sessionId.value else freshUuid;
        var customerInfo := CustomerInfo(customerContext, sid);
        var inv := InventoryStage(codec, hInv, data.fields, query);
        var ord := OrderStage(codec, hOrd, data.fields, query, inv.GetOr(""), customerInfo, convHex);
        var final := consultantRunner(ConsultantPrompt(codec, query, analysis.value, inv.GetOr(""), ord.GetOr(""), customerInfo));
        && (final.Failure? ==> r == Failure(final.error))
        && (final.Success? ==> (r.Success? &&
              var outs := r.value.agentOutputs;
              && r.value.status == "success" && r.value.sessionId == sid
              && |outs| == 2 + (if inv.Some? then 1 else 0) + (if ord.Some? then 1 else 0)
              && outs[0] == AgentOutput("analysis", analysis.value)
              && outs[|outs| - 1] == AgentOutput("consultant", final.value)
              && r.value.customerResponse == (if final.value != "" then final.value else Apology)
              && (inv.Some? <==> AgentOutput("inventory", inv.GetOr("")) in outs)
              && (ord.Some? <==> AgentOutput("order", ord.GetOr("")) in outs)))
  {
    var analysis := analysisRunner(query);
    if analysis.Success? && AnalysisData(codec, analysis.value).JObj? {
      var data := AnalysisData(codec, analysis.value);
      var sid := SessionIdOf(sessionId, freshUuid);
      var customerInfo := CustomerInfo(customerContext, sid);
      var inv := InventoryStage(codec, hInv, data.fields, query);
      var ord := OrderStage(codec, hOrd, data.fields, query, inv.GetOr(""), customerInfo, convHex);
      var final := consultantRunner(ConsultantPrompt(codec, query, analysis.value, inv.GetOr(""), ord.GetOr(""), customerInfo));
      RunOfStages(codec, analysisRunner, consultantRunner, hInv, hOrd, query, sessionId, customerContext, freshUuid, convHex);
      if final.Success? {
        AuditShape(Names, analysis.value, inv, ord, final.value);
      }
    }
  }

  /**
   * An analysis that is no JSON runs neither optional stage, so the consultant sees both
   * placeholders; the registered handlers play no part.
   */
  lemma UnparsedAnalysisSkipsStages(codec: Codec, analysisRunner: Runner, consultantRunner: Runner,
                                    hInv: Option<Handler>, hOrd: Option<Handler>, otherInv: Option<Handler>, otherOrd: Option<Handler>,
                                    query: string, sessionId: Option<string>,
                                    customerContext: Option<PyDict.Entries<Json>>, freshUuid: string, convHex: string)
    requires analysisRunner(query).Success? && codec.loads(analysisRunner(query).value).Failure?
    ensures var r := RunOf(codec, analysisRunner, consultantRunner, hInv, hOrd, query, sessionId, customerContext, freshUuid, convHex);
      var sid := SessionIdOf(sessionId, freshUuid);
      var prompt := ConsultantPrompt(codec, query, analysisRunner(query).value, "", "", CustomerInfo(customerContext, sid));
      var final := consultantRunner(prompt);
      && (r.Success? <==> final.Success?)
      && (final.Success? ==>
            r.value.agentOutputs == [AgentOutput(Names.analysis, analysisRunner(query).value), AgentOutput(Names.consultant, final.value)])
      && r == RunOf(codec, analysisRunner, consultantRunner, otherInv, otherOrd, query, sessionId, customerContext, freshUuid, convHex)
  {
    UnparsedRun(codec, analysisRunner, consultantRunner, hInv, hOrd, query, sessionId, customerContext, freshUuid, convHex);
    UnparsedRun(codec, analysisRunner, consultantRunner, otherInv, otherOrd, query, sessionId, customerContext, freshUuid, convHex);
    var sid := SessionIdOf(sessionId, freshUuid);
    var analysisResult := analysisRunner(query).value;
    var final := consultantRunner(ConsultantPrompt(codec, query, analysisResult, "", "", CustomerInfo(customerContext, sid)));
    if final.Success? {
      AuditOfNone(Names, analysisResult, final.value);
    }
  }

  /** With an analysis that is no JSON, `run` goes straight from the defaults to the consultant. */
  lemma UnparsedRun(codec: Codec, analysisRunner: Runner, consultantRunner: Runner,
                    hInv: Option<Handler>, hOrd: Option<Handler>, query: string, sessionId: Option<string>,
                    customerContext: Option<PyDict.Entries<Json>>, freshUuid: string, convHex: string)
    requires analysisRunner(query).Success? && codec.loads(analysisRunner(query).value).Failure?
    ensures var sid := SessionIdOf(sessionId, freshUuid);
      var analysisResult := analysisRunner(query).value;
      var final := consultantRunner(ConsultantPrompt(codec, query, analysisResult, "", "", CustomerInfo(customerContext, sid)));
      RunOf(codec, analysisRunner, consultantRunner, hInv, hOrd, query, sessionId, customerContext, freshUuid, convHex)
      == Finished(final, analysisResult, None, None, sid)
  {
    var fs := [("requires_inventory_check", JBool(false)), ("requires_order_placement", JBool(false))];
    PyDict.GetFirst(fs, 0, "requires_inventory_check");
    PyDict.GetFirst(fs, 1, "requires_order_placement");
    var sid := SessionIdOf(sessionId, freshUuid);
    assert InventoryStage(codec, hInv, fs, query) == None;
    assert OrderStage(codec, hOrd, fs, query, "", CustomerInfo(customerContext, sid), convHex) == None;
    RunOfStages(codec, analysisRunner, consultantRunner, hInv, hOrd, query, sessionId, customerContext, freshUuid, convHex);
  }

  /**
   * The inventory handler runs only when the analysis asks for it and an inventory handler
   * is registered; it is asked about `product_details`, else the raw query, with the analysis
   * as context, and a handler that raises leaves no result.
   */
  lemma InventoryStageMeaning(codec: Codec, handler: Option<Handler>, data: PyDict.Entries<Json>, query: string)
    ensures var s := InventoryStage(codec, handler, data, query);
      && (s.Some? <==> Requested(data, "requires_inventory_check") && handler.Some? && handler.value.InventoryHandler?
                       && handler.value.inventoryCall(StageQuery(data, query), codec.dumps(JObj(data), Unicode)).Success?)
      && (s.Some? ==> s.value == handler.value.inventoryCall(StageQuery(data, query), codec.dumps(JObj(data), Unicode)).value)
    ensures StageQuery(data, query) == (if Truthy(PyDict.GetOr(data, "product_details", JNull)) then PyDict.GetOr(data, "product_details", JNull) else JStr(query))
  {
  }

  /**
   * The order handler runs whenever the analysis asks for it and an order handler is
   * registered, and a handler that raises leaves no result; it receives the inventory result,
   * or `"{}"` when there is none, and the customer context, or the default customer carrying
   * the session id.
   */
  lemma OrderStageMeaning(codec: Codec, handler: Option<Handler>, data: PyDict.Entries<Json>, query: string,
                          inventoryResult: string, customerContext: Option<PyDict.Entries<Json>>, sid: string, convHex: string)
    ensures var s := OrderStage(codec, handler, data, query, inventoryResult, CustomerInfo(customerContext, sid), convHex);
      && (s.Some? <==> Requested(data, "requires_order_placement") && handler.Some? && handler.value.OrderHandler?
                       && handler.value.orderCall(StageQuery(data, query),
                            if inventoryResult == "" then codec.dumps(JObj([]), Unicode) else inventoryResult,
                            codec.dumps(CustomerInfo(customerContext, sid), Unicode), convHex).Success?)
      && (s.Some? ==> s.value == handler.value.orderCall(StageQuery(data, query),
                                     if inventoryResult == "" then codec.dumps(JObj([]), Unicode) else inventoryResult,
                                     codec.dumps(CustomerInfo(customerContext, sid), Unicode), convHex).value)
    ensures customerContext.None? || customerContext == Some([]) ==>
      CustomerInfo(customerContext, sid) == JObj([("customer_name", JStr("Khách hàng")), ("conversation_id", JStr(sid))])
    ensures customerContext.Some? && customerContext.value != [] ==> CustomerInfo(customerContext, sid) == JObj(customerContext.value)
  {
  }

  /**
   * The handlers `__init__` registers: each stage answers with its handler's reply, or gives
   * nothing when that handler raises.
   */
  lemma RegisteredHandlers(codec: Codec, transport: Transport, inventoryRunner: Runner, orderRunner: Runner,
                           data: PyDict.Entries<Json>, query: string, inventoryResult: string, customerInfo: Json, convHex: string)
    ensures var s := InventoryStage(codec, Some(InventoryHandler(InventoryCall(codec, inventoryRunner, transport))), data, query);
      var reply := InventoryReplyOf(codec, inventoryRunner, transport, StageQuery(data, query), codec.dumps(JObj(data), Unicode));
      s == if Requested(data, "requires_inventory_check") && reply.Success? then Some(reply.value) else None
    ensures var s := OrderStage(codec, Some(OrderHandler(OrderCall(codec, orderRunner, transport))), data, query, inventoryResult, customerInfo, convHex);
      var reply := OrderReplyOf(codec, orderRunner, transport, StageQuery(data, query),
                                InventoryInfo(codec, inventoryResult), codec.dumps(customerInfo, Unicode), convHex);
      s == if Requested(data, "requires_order_placement") && reply.Success? then Some(reply.value) else None
  {
  }

  /** Any three consecutive pieces of a ten-piece text can be found in it. */
  lemma SectionsFound(h: string, query: string, l2: string, analysis: string, l3: string, inv: string,
                      l4: string, ord: string, l5: string, tail: string)
    ensures var p := h + query + l2 + analysis + l3 + inv + l4 + ord + l5 + tail;
      Contains(p, l3 + inv + l4) && Contains(p, l4 + ord + l5) && Contains(p, query + l2 + analysis + l3)
  {
    var a := h + query + l2 + analysis;
    Regroup(a, l3 + inv, l4);
    Regroup(a, l3, inv);
    var upToL4 := a + l3 + inv + l4;
    Regroup(upToL4, ord + l5, tail);
    Regroup(upToL4, ord, l5);
    ContainsMiddle(a, l3 + inv + l4, ord + l5 + tail);
    var upToInv := a + l3 + inv;
    Regroup(upToInv, l4 + ord, l5);
    Regroup(upToInv, l4, ord);
    ContainsMiddle(upToInv, l4 + ord + l5, tail);
    var b := inv + l4 + ord + l5 + tail;
    Regroup(h, query + l2 + analysis + l3, b);
    Regroup(h + query + l2 + analysis + l3, inv + l4 + ord + l5, tail);
    Regroup(h + query + l2 + analysis + l3, inv + l4 + ord, l5);
    Regroup(h + query + l2 + analysis + l3, inv + l4, ord);
    Regroup(h + query + l2 + analysis + l3, inv, l4);
    Regroup(h, query + l2 + analysis, l3);
    Regroup(h, query + l2, analysis);
    Regroup(h, query, l2);
    ContainsMiddle(h, query + l2 + analysis + l3, b);
  }

  /** The consultant sees each stage's result, or that stage's placeholder when it gave nothing. */
  lemma PromptPlaceholders(codec: Codec, query: string, analysisResult: string, inventoryResult: string,
                           orderResult: string, customerInfo: Json)
    ensures var p := ConsultantPrompt(codec, query, analysisResult, inventoryResult, orderResult, customerInfo);
      && Contains(p, "\n\nInventory Result:\n" + (if inventoryResult == "" then "Không kiểm tra" else inventoryResult) + "\n\nOrder Result:\n")
      && Contains(p, "\n\nOrder Result:\n" + (if orderResult == "" then "Không tạo đơn" else orderResult) + "\n\nCustomer Info:\n")
      && Contains(p, query + "\n\nAnalysis:\n" + analysisResult + "\n\nInventory Result:\n")
  {
    SectionsFound(PromptHeader, query,
                  "\n\nAnalysis:\n", analysisResult,
                  "\n\nInventory Result:\n", if inventoryResult != "" then inventoryResult else NoInventoryPlaceholder,
                  "\n\nOrder Result:\n", if orderResult != "" then orderResult else NoOrderPlaceholder,
                  "\n\nCustomer Info:\n", ConsultantTail(codec, customerInfo));
  }
}
