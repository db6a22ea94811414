/**
 * The two A2A handlers: each asks its remote agent (an oracle from the payload it is sent to
 * the agent's reply, or to the exception its run raises) for parameters, repairs what the
 * reply leaves out, calls one MCP tool with retries, and answers with a JSON record.
 */
module InvokeAgents {
  import opened Wrappers
  import opened PyStr
  import PyDict
  import opened Json
  import opened McpClient
  import GetProducts
  import CreateOrder
  import OrderAgent

  /**
   * A remote agent run in a fresh session on one message: the text of the first event the
   * run yields ("" when that event carries none), or the text of the exception the run raises.
   */
  type Runner = string -> Result<string, string>

  // ---------------------------------------------------------------- _json_load

  /** `_json_load`: a dict as it is, a falsy value as `{}`, a string parsed or wrapped, anything else wrapped. */
  function JsonLoad(codec: Codec, raw: Json): Json {
    if raw.JObj? then raw
    else if !Truthy(raw) then JObj([])
    else if raw.JStr? then (match codec.loads(raw.s) case Success(v) => v case Failure(_) => JObj([("raw", raw)]))
    else JObj([("raw", raw)])
  }

  /**
   * The four cases of `_json_load`; only a string that parses to something else than a dict
   * gives a non-dict, and whatever dict it gives is loaded again unchanged.
   */
  lemma JsonLoadCases(codec: Codec, raw: Json)
    ensures raw.JObj? ==> JsonLoad(codec, raw) == raw
    ensures !Truthy(raw) ==> JsonLoad(codec, raw) == (if raw.JObj? then raw else JObj([]))
    ensures raw.JStr? && raw.s != "" ==>
      JsonLoad(codec, raw) == (if codec.loads(raw.s).Success? then codec.loads(raw.s).value else JObj([("raw", raw)]))
    ensures !raw.JStr? && !raw.JObj? && Truthy(raw) ==> JsonLoad(codec, raw) == JObj([("raw", raw)])
    ensures !JsonLoad(codec, raw).JObj? ==> raw.JStr? && codec.loads(raw.s).Success? && !codec.loads(raw.s).value.JObj?
    ensures JsonLoad(codec, raw).JObj? ==> JsonLoad(codec, JsonLoad(codec, raw)) == JsonLoad(codec, raw)
  {
  }

  // ---------------------------------------------------------------- re.search(r'\{.*\}', s, re.DOTALL)

  /** The leftmost occurrence of `c` at or after `from`. */
  function IndexOf(s: string, c: char, from: nat): (r: Option<nat>)
    requires from <= |s|
    ensures r.Some? ==> from <= r.value < |s| && s[r.value] == c && forall k :: from <= k < r.value ==> s[k] != c
    ensures r.None? ==> forall k :: from <= k < |s| ==> s[k] != c
    decreases |s| - from
  {
    if from == |s| then None else if s[from] == c then Some(from) else IndexOf(s, c, from + 1)
  }

  /** The rightmost occurrence of `c` before `upto`. */
  function LastIndexOf(s: string, c: char, upto: nat): (r: Option<nat>)
    requires upto <= |s|
    ensures r.Some? ==> r.value < upto && s[r.value] == c && forall k :: r.value < k < upto ==> s[k] != c
    ensures r.None? ==> forall k :: 0 <= k < upto ==> s[k] != c
    decreases upto
  {
    if upto == 0 then None else if s[upto - 1] == c then Some(upto - 1) else LastIndexOf(s, c, upto - 1)
  }

  /**
   * The greedy match of `\{.*\}`: from the first `{` to the last `}` after it. The match
   * exists exactly when some `}` follows some `{`.
   */
  function BraceSpan(s: string): (r: Option<string>)
    ensures r.Some? <==> exists i, j :: 0 <= i < j < |s| && s[i] == '{' && s[j] == '}'
    ensures r.Some? ==> exists i, j ::
      && 0 <= i < j < |s| && r.value == s[i..j + 1]
      && s[i] == '{' && s[j] == '}'
      && (forall k :: 0 <= k < i ==> s[k] != '{')
      && (forall k :: j < k < |s| ==> s[k] != '}')
  {
    var i := IndexOf(s, '{', 0);
    var j := LastIndexOf(s, '}', |s|);
    if i.Some? && j.Some? && i.value < j.value then Some(s[i.value..j.value + 1])
    else
      assert !exists i', j' :: 0 <= i' < j' < |s| && s[i'] == '{' && s[j'] == '}' by {
        forall i', j' | 0 <= i' < j' < |s| && s[i'] == '{' ensures s[j'] != '}' {
        }
      }
      None
  }

  // ---------------------------------------------------------------- reading the agent's reply

  /**
   * Step 2's `response_data`: the reply loaded with `_json_load`, and when that is no dict,
   * the brace span parsed instead (or `{}` without one). A brace span that is no JSON raises.
   */
  function ResponseData(codec: Codec, agentResponse: string): Result<Json, string> {
    var loaded := JsonLoad(codec, JStr(agentResponse));
    if loaded.JObj? then Success(loaded)
    else match BraceSpan(agentResponse)
      case None => Success(JObj([]))
      case Some(g) => codec.loads(g)
  }

  /** What the inventory tool is asked for. */
  datatype Params = Params(product: Json, storage: Json, color: Json)

  /** `context_data.get("product_details") or query`. */
  function ContextProduct(contextData: Json, query: Json): Result<Json, string> {
    match Get(contextData, "product_details")
    case Failure(e) => Failure(e)
    case Success(d) => Success(Or(d, query))
  }

  /** The product the reply names, if the reply is read as a dict. */
  function ReplyProduct(codec: Codec, agentResponse: string): Option<Json> {
    var rd := ResponseData(codec, agentResponse);
    if rd.Success? && rd.value.JObj? then
      Some(Or(PyDict.GetOr(rd.value.fields, "product_name", JNull), PyDict.GetOr(rd.value.fields, "product", JStr(""))))
    else None
  }

  /** Step 2 of `handle_inventory_agent_call`, its `except` branch included. */
  function ProductParams(codec: Codec, contextData: Json, query: Json, agentResponse: string): Result<Params, string> {
    var rd := ResponseData(codec, agentResponse);
    var tried: Result<Params, string> :=
      if rd.Failure? then Failure(rd.error)
      else if !rd.value.JObj? then Failure(NoAttribute(rd.value, "get"))
      else
        var fs := rd.value.fields;
        var product := Or(PyDict.GetOr(fs, "product_name", JNull), PyDict.GetOr(fs, "product", JStr("")));
        var storage := PyDict.GetOr(fs, "storage", JStr(""));
        var color := PyDict.GetOr(fs, "color", JStr(""));
        if Truthy(product) then Success(Params(product, storage, color))
        else match ContextProduct(contextData, query)
          case Failure(e) => Failure(e)
          case Success(p) => Success(Params(p, storage, color));
    if tried.Success? then tried
    else match ContextProduct(contextData, query)
      case Failure(e) => Failure(e)
      case Success(p) => Success(Params(p, JStr(""), JStr("")))
  }

  /**
   * The product asked for: the one the reply names when it names one, else the context's
   * `product_details`, else the query. With a context that is no dict, the handler raises
   * exactly when the reply names no product.
   */
  lemma ProductFallback(codec: Codec, contextData: Json, query: Json, agentResponse: string)
    ensures var named := ReplyProduct(codec, agentResponse);
      var r := ProductParams(codec, contextData, query, agentResponse);
      && (contextData.JObj? ==> r.Success?)
      && (!contextData.JObj? ==> (r.Success? <==> named.Some? && Truthy(named.value)))
      && (r.Success? ==>
            r.value.product == if named.Some? && Truthy(named.value) then named.value
                               else Or(PyDict.GetOr(contextData.fields, "product_details", JNull), query))
  {
  }

  /** A reply that is no JSON at all is wrapped as `{"raw": …}`, so its text is never searched. */
  lemma ProseReplyIgnored(codec: Codec, agentResponse: string)
    requires agentResponse != "" && codec.loads(agentResponse).Failure?
    ensures ResponseData(codec, agentResponse) == Success(JObj([("raw", JStr(agentResponse))]))
    ensures ReplyProduct(codec, agentResponse) == Some(JStr(""))
  {
    var fs := [("raw", JStr(agentResponse))];
    assert PyDict.Get(fs, "product_name") == None;
    assert PyDict.Get(fs, "product") == None;
  }

  // ---------------------------------------------------------------- the inventory record

  function BaseRecord(p: Params): PyDict.Entries<Json> {
    [("product_name", p.product), ("storage", p.storage), ("color", p.color)]
  }

  function ErrorRecord(p: Params, message: string): PyDict.Entries<Json> {
    BaseRecord(p) + [("stock_status", JStr("error")), ("error", JStr(message))]
  }

  function NotFoundRecord(p: Params): PyDict.Entries<Json> {
    BaseRecord(p) + [("stock_status", JStr("unknown")), ("price", JInt(0)), ("quantity", JInt(0)), ("error", JStr("Product not found"))]
  }

  /** The record for the first product found; `.get` and `> 0` raise on the wrong types. */
  function FirstProductRecord(p: Params, info: Json): Result<PyDict.Entries<Json>, string> {
    if !info.JObj? then Failure(NoAttribute(info, "get"))
    else
      var quantity := PyDict.GetOr(info.fields, "quantity", JInt(0));
      match GreaterThanZero(quantity)
      case Failure(e) => Failure(e)
      case Success(positive) =>
        Success([("product_name", PyDict.GetOr(info.fields, "product", p.product)),
                 ("storage", PyDict.GetOr(info.fields, "storage", p.storage)),
                 ("color", PyDict.GetOr(info.fields, "color", p.color)),
                 ("stock_status", JStr(if positive then "in_stock" else "out_of_stock")),
                 ("price", PyDict.GetOr(info.fields, "price", JInt(0))),
                 ("quantity", quantity)])
  }

  /** Step 3 from the loaded MCP reply on: the record, or the `except` branch's error record. */
  function InventoryRecord(p: Params, mcpData: Json): PyDict.Entries<Json> {
    if !mcpData.JObj? then ErrorRecord(p, "Invalid MCP response")
    else
      var products := PyDict.GetOr(mcpData.fields, "products", JList([]));
      if products.JList? && |products.items| > 0 then
        match FirstProductRecord(p, products.items[0])
        case Success(rec) => rec
        case Failure(e) => ErrorRecord(p, e)
      else NotFoundRecord(p)
  }

  /**
   * With products found, the first one is described: in stock exactly when its quantity is
   * positive, with price and quantity 0 when it gives none, and the asked-for product,
   * storage and colour where it names none.
   */
  lemma FirstProductDescribed(p: Params, mcpData: PyDict.Entries<Json>, info: PyDict.Entries<Json>, rest: seq<Json>)
    requires PyDict.GetOr(mcpData, "products", JList([])) == JList([JObj(info)] + rest)
    requires IsNumber(PyDict.GetOr(info, "quantity", JInt(0)))
    ensures var rec := InventoryRecord(p, JObj(mcpData));
      var q := PyDict.GetOr(info, "quantity", JInt(0));
      && PyDict.Keys(rec) == ["product_name", "storage", "color", "stock_status", "price", "quantity"]
      && rec[3].1 == JStr(if NumberValue(q) > 0 then "in_stock" else "out_of_stock")
      && rec[4].1 == PyDict.GetOr(info, "price", JInt(0))
      && rec[5].1 == q
      && ("quantity" !in PyDict.Keys(info) ==> rec[3].1 == JStr("out_of_stock") && rec[5].1 == JInt(0))
      && ("price" !in PyDict.Keys(info) ==> rec[4].1 == JInt(0))
      && ("product" !in PyDict.Keys(info) ==> rec[0].1 == p.product)
  {
    PyDict.GetSomeIffKey(info, "quantity");
    PyDict.GetSomeIffKey(info, "price");
    PyDict.GetSomeIffKey(info, "product");
  }

  /** No products (missing, empty or not a list) gives the "Product not found" record. */
  lemma NoProductsNotFound(p: Params, mcpData: PyDict.Entries<Json>)
    requires var ps := PyDict.GetOr(mcpData, "products", JList([])); !ps.JList? || ps.items == []
    ensures InventoryRecord(p, JObj(mcpData)) == BaseRecord(p) +
      [("stock_status", JStr("unknown")), ("price", JInt(0)), ("quantity", JInt(0)), ("error", JStr("Product not found"))]
  {
  }

  /** Every record starts with the product, storage and colour it is about. */
  lemma RecordNamesProduct(p: Params, mcpData: Json)
    ensures var rec := InventoryRecord(p, mcpData);
      |rec| >= 5 && PyDict.Keys(rec)[..4] == ["product_name", "storage", "color", "stock_status"]
      && (rec[3].1 == JStr("error") || rec[..3] == BaseRecord(p) || (mcpData.JObj? && rec[3].1 in {JStr("in_stock"), JStr("out_of_stock")}))
  {
  }

  // ---------------------------------------------------------------- handle_inventory_agent_call

  function InventoryRequest(codec: Codec, query: Json, contextData: Json): string {
    codec.dumps(JObj([("query", query), ("analysis_context", contextData)]), Unicode)
  }

  /** What `handle_inventory_agent_call` returns, or the exception it raises. */
  function InventoryReplyOf(codec: Codec, runner: Runner, transport: Transport, query: Json, context: string): Result<string, string> {
    var contextData := JsonLoad(codec, JStr(context));
    match runner(InventoryRequest(codec, query, contextData))
    case Failure(e) => Failure(e)
    case Success(agentResponse) =>
    match ProductParams(codec, contextData, query, agentResponse)
    case Failure(e) => Failure(e)
    case Success(p) =>
      var mcpResult := GetProducts.ProductReply(codec, transport, p.product, p.storage, p.color,
                                                GetProducts.DefaultMaxRetries, GetProducts.DefaultTimeout);
      Success(codec.dumps(JObj(InventoryRecord(p, JsonLoad(codec, JStr(mcpResult)))), Unicode))
  }

  /**
   * `handle_inventory_agent_call`, step by step; the remote agent sees the query and the
   * loaded context, and the MCP lookup asks for the parameters step 2 settled on.
   */
  method HandleInventoryAgentCall(codec: Codec, runner: Runner, transport: Transport, query: Json, context: string)
    returns (r: Result<string, string>, waits: seq<nat>)
    ensures r == InventoryReplyOf(codec, runner, transport, query, context)
  {
    var contextData := JsonLoad(codec, JStr(context));
    var payload := codec.dumps(JObj([("query", query), ("analysis_context", contextData)]), Unicode);
    var reply := runner(payload);
    if reply.Failure? {
      return Failure(reply.error), [];
    }
    var agentResponse := reply.value;

    var product: Json, storage: Json, color: Json;
    var failed := false;
    var responseData := JsonLoad(codec, JStr(agentResponse));
    if !responseData.JObj? {
      var jsonMatch := BraceSpan(agentResponse);
      if jsonMatch.Some? {
        var parsed := codec.loads(jsonMatch.value);
        if parsed.Failure? {
          failed := true;
        } else {
          responseData := parsed.value;
        }
      } else {
        responseData := JObj([]);
      }
    }
    if !failed && !responseData.JObj? {
      failed := true;
    }
    if !failed {
      product := Or(PyDict.GetOr(responseData.fields, "product_name", JNull), PyDict.GetOr(responseData.fields, "product", JStr("")));
      storage := PyDict.GetOr(responseData.fields, "storage", JStr(""));
      color := PyDict.GetOr(responseData.fields, "color", JStr(""));
      if !Truthy(product) {
        var fallback := ContextProduct(contextData, query);
        if fallback.Failure? {
          failed := true;
        } else {
          product := fallback.value;
        }
      }
    }
    if failed {
      var fallback := ContextProduct(contextData, query);
      if fallback.Failure? {
        return Failure(fallback.error), [];
      }
      product := fallback.value;
      storage := JStr("");
      color := JStr("");
    }
    assert ProductParams(codec, contextData, query, agentResponse) == Success(Params(product, storage, color));

    var mcpResult;
    mcpResult, waits := GetProducts.GetProductInfoAsync(codec, transport, product, storage, color,
                                                        GetProducts.DefaultMaxRetries, GetProducts.DefaultTimeout);
    var mcpData := JsonLoad(codec, JStr(mcpResult));
    var result := InventoryRecord(Params(product, storage, color), mcpData);
    r := Success(codec.dumps(JObj(result), Unicode));
  }

  // ---------------------------------------------------------------- the order payload

  /** The MCP order payload, its nested `customer_info` spelled out. */
  datatype Payload = Payload(product: Json, color: Json, storage: Json, quantity: Json, totalPrice: Json,
                             customerName: Json, conversationId: Json)

  function CustomerInfoOf(p: Payload): Json {
    JObj([("customer_name", p.customerName), ("conversation_id", p.conversationId)])
  }

  function PayloadObject(p: Payload): Json {
    JObj([("product", p.product), ("color", p.color), ("storage", p.storage), ("quantity", p.quantity),
          ("total_price", p.totalPrice), ("customer_info", CustomerInfoOf(p))])
  }

  /** `a.get(ka) or b.get(kb, "")`, which looks at `b` only when `a` gives nothing truthy. */
  function PreferFirst(a: Json, ka: string, b: Json, kb: string): Result<Json, string> {
    match Get(a, ka)
    case Failure(e) => Failure(e)
    case Success(x) => if Truthy(x) then Success(x) else GetOr(b, kb, JStr(""))
  }

  /** `s[:n]`. */
  function Take(s: string, n: nat): string {
    if |s| <= n then s else s[..n]
  }

  /**
   * The `order_payload` literal, evaluated in Python's order; `convHex` is the
   * `uuid4().hex` drawn for the default conversation id.
   */
  function OrderPayload(inv: Json, rd: Json, cust: Json, convHex: string): Result<Payload, string> {
    match PreferFirst(inv, "product_name", rd, "product")
    case Failure(e) => Failure(e)
    case Success(product) =>
    match PreferFirst(inv, "color", rd, "color")
    case Failure(e) => Failure(e)
    case Success(color) =>
    match PreferFirst(inv, "storage", rd, "storage")
    case Failure(e) => Failure(e)
    case Success(storage) =>
    match GetOr(rd, "quantity", JInt(1))
    case Failure(e) => Failure(e)
    case Success(quantity) =>
    match GetOr(inv, "price", JInt(0))
    case Failure(e) => Failure(e)
    case Success(price) =>
    match Mul(price, quantity)
    case Failure(e) => Failure(e)
    case Success(total) =>
    match GetOr(cust, "customer_name", JStr(""))
    case Failure(e) => Failure(e)
    case Success(name) =>
    match GetOr(cust, "conversation_id", JStr("conv_" + Take(convHex, 6)))
    case Failure(e) => Failure(e)
    case Success(conv) => Success(Payload(product, color, storage, quantity, total, name, conv))
  }

  /**
   * For dicts, the product, colour and storage come from the inventory record when it has
   * them and from the reply otherwise; the quantity defaults to 1 only when the reply has no
   * `quantity` key; the total is the inventory price (0 by default) times that quantity.
   */
  lemma PayloadFromSources(inv: PyDict.Entries<Json>, rd: PyDict.Entries<Json>, cust: PyDict.Entries<Json>, convHex: string)
    requires Mul(PyDict.GetOr(inv, "price", JInt(0)), PyDict.GetOr(rd, "quantity", JInt(1))).Success?
    ensures var r := OrderPayload(JObj(inv), JObj(rd), JObj(cust), convHex);
      && r.Success?
      && r.value.product == (if Truthy(PyDict.GetOr(inv, "product_name", JNull)) then PyDict.GetOr(inv, "product_name", JNull) else PyDict.GetOr(rd, "product", JStr("")))
      && r.value.color == (if Truthy(PyDict.GetOr(inv, "color", JNull)) then PyDict.GetOr(inv, "color", JNull) else PyDict.GetOr(rd, "color", JStr("")))
      && r.value.storage == (if Truthy(PyDict.GetOr(inv, "storage", JNull)) then PyDict.GetOr(inv, "storage", JNull) else PyDict.GetOr(rd, "storage", JStr("")))
      && r.value.quantity == PyDict.GetOr(rd, "quantity", JInt(1))
      && ("quantity" !in PyDict.Keys(rd) ==> r.value.quantity == JInt(1))
      && r.value.totalPrice == Mul(PyDict.GetOr(inv, "price", JInt(0)), r.value.quantity).value
      && ("price" !in PyDict.Keys(inv) && IsNumber(r.value.quantity) ==> r.value.totalPrice == JInt(0))
  {
    PyDict.GetSomeIffKey(rd, "quantity");
    PyDict.GetSomeIffKey(inv, "price");
  }

  /** `not order_payload["product"] or order_payload["total_price"] == 0`. */
  predicate Blocked(p: Payload) {
    !Truthy(p.product) || EqualsZero(p.totalPrice)
  }

  const GuardReply: PyDict.Entries<Json> :=
    [("order_created", JBool(false)),
     ("error", JStr("Missing product or price information")),
     ("message", JStr("Không thể tạo đơn hàng do thiếu thông tin sản phẩm hoặc giá"))]

  function ParseFailedReply(e: string): PyDict.Entries<Json> {
    [("order_created", JBool(false)), ("error", JStr(e)), ("message", JStr("Lỗi khi xử lý thông tin đơn hàng"))]
  }

  // ---------------------------------------------------------------- re.search(r'order_([a-f0-9]+)_', s)

  /** The group of a match of `order_([a-f0-9]+)_` at `p`: the whole hex run, then `_`. */
  function OrderIdAt(s: string, p: nat): Option<string>
    requires p <= |s|
  {
    if p + 6 <= |s| && s[p..p + 6] == "order_" then
      var e := SkipWhile(s, p + 6, IsLowerHexChar);
      if e > p + 6 && e < |s| && s[e] == '_' then Some(s[p + 6..e]) else None
    else None
  }

  /** The leftmost match position at or after `from`. */
  function OrderIdSearch(s: string, from: nat): (r: Option<nat>)
    requires from <= |s|
    ensures r.Some? ==> from <= r.value <= |s| && OrderIdAt(s, r.value).Some?
    ensures r.Some? ==> forall q :: from <= q < r.value ==> OrderIdAt(s, q).None?
    ensures r.None? ==> forall q :: from <= q <= |s| ==> OrderIdAt(s, q).None?
    decreases |s| - from
  {
    if OrderIdAt(s, from).Some? then Some(from)
    else if from == |s| then None
    else OrderIdSearch(s, from + 1)
  }

  /** The order id reported for an MCP reply. */
  function OrderIdOf(s: string): string {
    if Contains(s, "order_") then
      match OrderIdSearch(s, 0)
      case Some(p) => "order_" + OrderIdAt(s, p).value
      case None => "unknown"
    else "unknown"
  }

  /** A match at `p` spans `order_`, a non-empty run of lower-case hex digits taken whole, and `_`. */
  lemma OrderIdAtShape(s: string, p: nat)
    requires p <= |s| && OrderIdAt(s, p).Some?
    ensures var h := OrderIdAt(s, p).value;
      && h != [] && IsLowerHex(h) && p + 7 + |h| <= |s|
      && s[p..p + 7 + |h|] == "order_" + h + "_"
  {
    var h := OrderIdAt(s, p).value;
    var e := SkipWhile(s, p + 6, IsLowerHexChar);
    assert h == s[p + 6..e];
    assert s[p..p + 7 + |h|] == s[p..p + 6] + h + [s[e]];
  }

  /**
   * The id is "unknown" exactly when the reply holds no `order_<hex>_`; otherwise it is
   * `order_<hex>` for the leftmost such occurrence.
   */
  lemma OrderIdMeaning(s: string)
    ensures OrderIdOf(s) == "unknown" <==> forall q :: 0 <= q <= |s| ==> OrderIdAt(s, q).None?
    ensures OrderIdOf(s) != "unknown" ==> exists p ::
      && 0 <= p <= |s| && OrderIdAt(s, p).Some?
      && OrderIdOf(s) == "order_" + OrderIdAt(s, p).value
      && (forall q :: 0 <= q < p ==> OrderIdAt(s, q).None?)
  {
    match OrderIdSearch(s, 0)
    case None =>
    case Some(p) =>
      OrderIdAtShape(s, p);
      assert s[p..p + 6] == "order_";
      ContainsAt(s, "order_", p);
      var id := "order_" + OrderIdAt(s, p).value;
      assert OrderIdOf(s) == id;
      assert id[0] == 'o' != "unknown"[0];
  }

  // ---------------------------------------------------------------- handle_order_agent_call

  function OrderRequest(codec: Codec, query: Json, inv: Json, cust: Json): string {
    codec.dumps(JObj([("customer_query", query), ("inventory_result", inv), ("customer_info", cust)]), Unicode)
  }

  /** The record for an order sent to the order tool, from the tool's reply. */
  function CreatedReply(p: Payload, mcpResult: string): PyDict.Entries<Json> {
    [("order_created", JBool(OrderAgent.ReportsSuccess(mcpResult))),
     ("order_details", JObj([("order_id", JStr(OrderIdOf(mcpResult))), ("product", p.product), ("color", p.color),
                             ("storage", p.storage), ("quantity", p.quantity), ("total_price", p.totalPrice)])),
     ("customer_info", CustomerInfoOf(p)),
     ("message", JStr(mcpResult))]
  }

  /** The record `handle_order_agent_call` answers with, or the exception its agent call raises. */
  function OrderResultOf(codec: Codec, runner: Runner, transport: Transport, query: Json,
                         inventoryInfo: string, customerInfo: string, convHex: string): Result<PyDict.Entries<Json>, string>
  {
    var inv := JsonLoad(codec, JStr(inventoryInfo));
    var cust := JsonLoad(codec, JStr(customerInfo));
    match runner(OrderRequest(codec, query, inv, cust))
    case Failure(e) => Failure(e)
    case Success(agentResponse) => Success(OrderRecord(codec, transport, inv, cust, convHex, agentResponse))
  }

  /** The record built from the order agent's reply: steps 2 to 4 of `handle_order_agent_call`. */
  function OrderRecord(codec: Codec, transport: Transport, inv: Json, cust: Json, convHex: string,
                       agentResponse: string): PyDict.Entries<Json>
  {
    match ResponseData(codec, agentResponse)
    case Failure(e) => ParseFailedReply(e)
    case Success(rd) =>
      match OrderPayload(inv, rd, cust, convHex)
      case Failure(e) => ParseFailedReply(e)
      case Success(p) =>
        if Blocked(p) then GuardReply
        else CreatedReply(p, CreateOrder.OrderReply(transport, PayloadObject(p), CreateOrder.DefaultMaxRetries, CreateOrder.DefaultTimeout))
  }

  /** What `handle_order_agent_call` returns: the record as JSON text, or the exception it raises. */
  function OrderReplyOf(codec: Codec, runner: Runner, transport: Transport, query: Json,
                        inventoryInfo: string, customerInfo: string, convHex: string): Result<string, string>
  {
    match OrderResultOf(codec, runner, transport, query, inventoryInfo, customerInfo, convHex)
    case Failure(e) => Failure(e)
    case Success(rec) => Success(codec.dumps(JObj(rec), Unicode))
  }

  /** `handle_order_agent_call`, step by step. */
  method HandleOrderAgentCall(codec: Codec, runner: Runner, transport: Transport, query: Json,
                              inventoryInfo: string, customerInfo: string, convHex: string)
    returns (reply: Result<string, string>, waits: seq<nat>)
    ensures reply == OrderReplyOf(codec, runner, transport, query, inventoryInfo, customerInfo, convHex)
  {
    var inventoryData := JsonLoad(codec, JStr(inventoryInfo));
    var customerData := JsonLoad(codec, JStr(customerInfo));
    var agentReply := runner(OrderRequest(codec, query, inventoryData, customerData));
    waits := [];
    if agentReply.Failure? {
      return Failure(agentReply.error), waits;
    }
    var agentResponse := agentReply.value;

    var responseData := ResponseData(codec, agentResponse);
    if responseData.Failure? {
      return Success(codec.dumps(JObj(ParseFailedReply(responseData.error)), Unicode)), waits;
    }
    var orderPayload := OrderPayload(inventoryData, responseData.value, customerData, convHex);
    if orderPayload.Failure? {
      return Success(codec.dumps(JObj(ParseFailedReply(orderPayload.error)), Unicode)), waits;
    }
    var p := orderPayload.value;
    if !Truthy(p.product) || EqualsZero(p.totalPrice) {
      return Success(codec.dumps(JObj(GuardReply), Unicode)), waits;
    }

    var mcpResult;
    mcpResult, waits := CreateOrder.CreateOrderAsync(transport, PayloadObject(p), CreateOrder.DefaultMaxRetries, CreateOrder.DefaultTimeout);
    var orderId := "unknown";
    if Contains(mcpResult, "order_") {
      var m := OrderIdSearch(mcpResult, 0);
      if m.Some? {
        orderId := "order_" + OrderIdAt(mcpResult, m.value).value;
      }
    }
    var success := Contains(Lower(mcpResult), "success");
    var result := [("order_created", JBool(success)),
                   ("order_details", JObj([("order_id", JStr(orderId)), ("product", p.product), ("color", p.color),
                                           ("storage", p.storage), ("quantity", p.quantity), ("total_price", p.totalPrice)])),
                   ("customer_info", CustomerInfoOf(p)),
                   ("message", JStr(mcpResult))];
    reply := Success(codec.dumps(JObj(result), Unicode));
  }

  /**
   * A payload without a product or with a zero total is refused without contacting the order
   * tool: the answer does not depend on the transport.
   */
  lemma BlockedNotSent(codec: Codec, transport: Transport, other: Transport, inv: Json, cust: Json, convHex: string,
                       agentResponse: string)
    requires var rd := ResponseData(codec, agentResponse);
      rd.Success? && OrderPayload(inv, rd.value, cust, convHex).Success? && Blocked(OrderPayload(inv, rd.value, cust, convHex).value)
    ensures OrderRecord(codec, transport, inv, cust, convHex, agentResponse) == GuardReply
    ensures OrderRecord(codec, other, inv, cust, convHex, agentResponse) == GuardReply
  {
  }

  /**
   * An order sent to the tool is reported as created exactly when the tool's reply says
   * "success" in any case, with the id found in that reply, the payload's details, and the
   * reply itself as the message; there is no error field.
   */
  lemma CreatedReplyFields(p: Payload, mcp: string)
    ensures var res := CreatedReply(p, mcp);
      && PyDict.Keys(res) == ["order_created", "order_details", "customer_info", "message"]
      && PyDict.Get(res, "order_created") == Some(JBool(Contains(Lower(mcp), "success")))
      && PyDict.Get(res, "message") == Some(JStr(mcp))
      && PyDict.Get(res, "customer_info") == Some(CustomerInfoOf(p))
      && PyDict.Get(res, "error").None?
  {
    var res := CreatedReply(p, mcp);
    PyDict.GetFirst(res, 0, "order_created");
    PyDict.GetFirst(res, 2, "customer_info");
    PyDict.GetFirst(res, 3, "message");
    PyDict.GetSomeIffKey(res, "error");
  }

  /** A payload that passes the guard is sent once, as it is, and reported from the tool's reply. */
  lemma SentOrderReported(codec: Codec, transport: Transport, inv: Json, cust: Json, convHex: string, agentResponse: string)
    requires var rd := ResponseData(codec, agentResponse);
      rd.Success? && OrderPayload(inv, rd.value, cust, convHex).Success? && !Blocked(OrderPayload(inv, rd.value, cust, convHex).value)
    ensures var p := OrderPayload(inv, ResponseData(codec, agentResponse).value, cust, convHex).value;
      OrderRecord(codec, transport, inv, cust, convHex, agentResponse)
        == CreatedReply(p, CreateOrder.OrderReply(transport, PayloadObject(p), CreateOrder.DefaultMaxRetries, CreateOrder.DefaultTimeout))
  {
  }

  // ---------------------------------------------------------------- when a handler raises

  /**
   * The agent call is outside the handler's `try`, so the inventory handler raises what the
   * agent run raises. Past that call it raises only from the product fallback: the context is
   * no dict and the reply names no product.
   */
  lemma InventoryHandlerRaises(codec: Codec, runner: Runner, transport: Transport, query: Json, context: string)
    ensures var contextData := JsonLoad(codec, JStr(context));
      var agent := runner(InventoryRequest(codec, query, contextData));
      var r := InventoryReplyOf(codec, runner, transport, query, context);
      && (agent.Failure? ==> r == Failure(agent.error))
      && (agent.Success? ==>
            (r.Failure? <==> !contextData.JObj? && !(ReplyProduct(codec, agent.value).Some? && Truthy(ReplyProduct(codec, agent.value).value))))
  {
    var contextData := JsonLoad(codec, JStr(context));
    var agent := runner(InventoryRequest(codec, query, contextData));
    if agent.Success? {
      ProductFallback(codec, contextData, query, agent.value);
    }
  }

  /**
   * The order handler raises exactly when its agent run raises, with that exception; every
   * reply is turned into a record, which the handler answers as JSON text.
   */
  lemma OrderHandlerRaises(codec: Codec, runner: Runner, transport: Transport, query: Json,
                           inventoryInfo: string, customerInfo: string, convHex: string)
    ensures var inv := JsonLoad(codec, JStr(inventoryInfo));
      var cust := JsonLoad(codec, JStr(customerInfo));
      var agent := runner(OrderRequest(codec, query, inv, cust));
      var r := OrderReplyOf(codec, runner, transport, query, inventoryInfo, customerInfo, convHex);
      && (r.Failure? <==> agent.Failure?)
      && (agent.Failure? ==> r.error == agent.error)
      && (agent.Success? ==> r == Success(codec.dumps(JObj(OrderRecord(codec, transport, inv, cust, convHex, agent.value)), Unicode)))
  {
  }
}
