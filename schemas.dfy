/**
 * The structured records the agents exchange: two string enums and the pydantic models with
 * their defaults and constraints. Each model has a validator from a JSON object (what
 * `Model(**data)` / `model_validate` accepts) and a dump to one (`model_dump`); a validation
 * error carries the name of the offending field.
 */
module Schemas {
  import opened Wrappers
  import PyDict
  import opened Json

  /** `CustomerIntent`. */
  datatype CustomerIntent = CheckInventory | PlaceOrder | GeneralQuery | ProductInfo

  function IntentValue(i: CustomerIntent): string {
    match i
    case CheckInventory => "check_inventory_price"
    case PlaceOrder => "place_order"
    case GeneralQuery => "general_query"
    case ProductInfo => "product_info"
  }

  /** `CustomerIntent(value)`: None for a string that is no member's value. */
  function IntentFromValue(s: string): Option<CustomerIntent> {
    match s
    case "check_inventory_price" => Some(CheckInventory)
    case "place_order" => Some(PlaceOrder)
    case "general_query" => Some(GeneralQuery)
    case "product_info" => Some(ProductInfo)
    case _ => None
  }

  /** The four values are the only ones accepted, and each names its own member. */
  lemma IntentValues(s: string)
    ensures forall i: CustomerIntent :: IntentFromValue(IntentValue(i)) == Some(i)
    ensures IntentFromValue(s).Some? <==> s in {"check_inventory_price", "place_order", "general_query", "product_info"}
    ensures IntentFromValue(s).Some? ==> IntentValue(IntentFromValue(s).value) == s
  {
    assert IntentValue(CheckInventory) == "check_inventory_price";
  }

  /** `StockStatus`. */
  datatype StockStatus = InStock | OutOfStock | LowStock | NotChecked

  function StockValue(s: StockStatus): string {
    match s
    case InStock => "in_stock"
    case OutOfStock => "out_of_stock"
    case LowStock => "low_stock"
    case NotChecked => "not_checked"
  }

  function StockFromValue(s: string): Option<StockStatus> {
    match s
    case "in_stock" => Some(InStock)
    case "out_of_stock" => Some(OutOfStock)
    case "low_stock" => Some(LowStock)
    case "not_checked" => Some(NotChecked)
    case _ => None
  }

  lemma StockValues(s: string)
    ensures forall t: StockStatus :: StockFromValue(StockValue(t)) == Some(t)
    ensures StockFromValue(s).Some? <==> s in {"in_stock", "out_of_stock", "low_stock", "not_checked"}
    ensures StockFromValue(s).Some? ==> StockValue(StockFromValue(s).value) == s
  {
    assert StockValue(InStock) == "in_stock";
  }

  // ---- field readers: absent keys take the default or fail as required ----

  function StrField(d: PyDict.Entries<Json>, k: string, default: Option<string>): (r: Result<string, string>)
    ensures PyDict.Get(d, k).None? ==> r == if default.Some? then Success(default.value) else Failure(k)
    ensures r.Failure? ==> r.error == k
  {
    var g: Option<Json> := PyDict.Get(d, k);
    match g
    case None => if default.Some? then Success(default.value) else Failure(k)
    case Some(JStr(s)) => Success(s)
    case Some(_) => Failure(k)
  }

  /** An `Optional[str]` field: absent or null is None. */
  function OptStrField(d: PyDict.Entries<Json>, k: string, default: Option<string>): (r: Result<Option<string>, string>)
    ensures PyDict.Get(d, k).None? ==> r == Success(default)
    ensures r.Failure? ==> r.error == k
  {
    var g: Option<Json> := PyDict.Get(d, k);
    match g
    case None => Success(default)
    case Some(JNull) => Success(None)
    case Some(JStr(s)) => Success(Some(s))
    case Some(_) => Failure(k)
  }

  function BoolField(d: PyDict.Entries<Json>, k: string, default: Option<bool>): (r: Result<bool, string>)
    ensures PyDict.Get(d, k).None? ==> r == if default.Some? then Success(default.value) else Failure(k)
    ensures r.Failure? ==> r.error == k
  {
    var g: Option<Json> := PyDict.Get(d, k);
    match g
    case None => if default.Some? then Success(default.value) else Failure(k)
    case Some(JBool(b)) => Success(b)
    case Some(_) => Failure(k)
  }

  function IntField(d: PyDict.Entries<Json>, k: string, default: Option<int>): (r: Result<int, string>)
    ensures PyDict.Get(d, k).None? ==> r == if default.Some? then Success(default.value) else Failure(k)
    ensures r.Failure? ==> r.error == k
  {
    var g: Option<Json> := PyDict.Get(d, k);
    match g
    case None => if default.Some? then Success(default.value) else Failure(k)
    case Some(JInt(i)) => Success(i)
    case Some(_) => Failure(k)
  }

  function OptOf(o: Option<string>): Json {
    if o.Some? then JStr(o.value) else JNull
  }

  // ---- AnalysisResult ----

  datatype AnalysisResult = AnalysisResult(
    productDetails: string,
    customerIntent: CustomerIntent,
    originalQuery: string,
    requiresInventoryCheck: bool,
    requiresOrderPlacement: bool)

  function AnalysisResultFrom(d: PyDict.Entries<Json>): (r: Result<AnalysisResult, string>)
    ensures PyDict.Get(d, "product_details").None? || PyDict.Get(d, "customer_intent").None? || PyDict.Get(d, "original_query").None? ==> r.Failure?
    ensures r.Success? && PyDict.Get(d, "requires_inventory_check").None? ==> !r.value.requiresInventoryCheck
    ensures r.Success? && PyDict.Get(d, "requires_order_placement").None? ==> !r.value.requiresOrderPlacement
  {
    var details := StrField(d, "product_details", None);
    var intentText := StrField(d, "customer_intent", None);
    var query := StrField(d, "original_query", None);
    var inventory := BoolField(d, "requires_inventory_check", Some(false));
    var order := BoolField(d, "requires_order_placement", Some(false));
    if details.Failure? then Failure(details.error)
    else if intentText.Failure? || IntentFromValue(intentText.value).None? then Failure("customer_intent")
    else if query.Failure? then Failure(query.error)
    else if inventory.Failure? then Failure(inventory.error)
    else if order.Failure? then Failure(order.error)
    else Success(AnalysisResult(details.value, IntentFromValue(intentText.value).value, query.value, inventory.value, order.value))
  }

  function AnalysisResultDump(a: AnalysisResult): PyDict.Entries<Json> {
    [("product_details", JStr(a.productDetails)),
     ("customer_intent", JStr(IntentValue(a.customerIntent))),
     ("original_query", JStr(a.originalQuery)),
     ("requires_inventory_check", JBool(a.requiresInventoryCheck)),
     ("requires_order_placement", JBool(a.requiresOrderPlacement))]
  }

  /** Validating a dump gives the record back. */
  lemma AnalysisResultRoundTrip(a: AnalysisResult)
    ensures AnalysisResultFrom(AnalysisResultDump(a)) == Success(a)
  {
    IntentValues(IntentValue(a.customerIntent));
    var d := AnalysisResultDump(a);
    PyDict.GetFirst(d, 0, "product_details");
    PyDict.GetFirst(d, 1, "customer_intent");
    PyDict.GetFirst(d, 2, "original_query");
    PyDict.GetFirst(d, 3, "requires_inventory_check");
    PyDict.GetFirst(d, 4, "requires_order_placement");
  }

  // ---- CustomerInfo ----

  datatype CustomerInfo = CustomerInfo(customerName: string, conversationId: string, previousInteractions: Option<string>)

  function CustomerInfoFrom(d: PyDict.Entries<Json>): (r: Result<CustomerInfo, string>)
    ensures PyDict.Get(d, "conversation_id").None? ==> r.Failure?
    ensures r.Success? && PyDict.Get(d, "customer_name").None? ==> r.value.customerName == "Guest"
    ensures r.Success? && PyDict.Get(d, "previous_interactions").None? ==> r.value.previousInteractions.None?
  {
    var name := StrField(d, "customer_name", Some("Guest"));
    var conversation := StrField(d, "conversation_id", None);
    var previous := OptStrField(d, "previous_interactions", None);
    if name.Failure? then Failure(name.error)
    else if conversation.Failure? then Failure(conversation.error)
    else if previous.Failure? then Failure(previous.error)
    else Success(CustomerInfo(name.value, conversation.value, previous.value))
  }

  function CustomerInfoDump(c: CustomerInfo): PyDict.Entries<Json> {
    [("customer_name", JStr(c.customerName)),
     ("conversation_id", JStr(c.conversationId)),
     ("previous_interactions", OptOf(c.previousInteractions))]
  }

  lemma CustomerInfoRoundTrip(c: CustomerInfo)
    ensures CustomerInfoFrom(CustomerInfoDump(c)) == Success(c)
  {
    var d := CustomerInfoDump(c);
    PyDict.GetFirst(d, 0, "customer_name");
    PyDict.GetFirst(d, 1, "conversation_id");
    PyDict.GetFirst(d, 2, "previous_interactions");
  }

  // ---- OrderDetails ----

  /** `OrderDetails`; `total_price` is a float in the source and an integer here. */
  datatype OrderDetails = OrderDetails(
    orderId: string,
    product: string,
    color: Option<string>,
    storage: Option<string>,
    quantity: int,
    totalPrice: int,
    customerInfo: CustomerInfo)

  function OrderDetailsFrom(d: PyDict.Entries<Json>): (r: Result<OrderDetails, string>)
    ensures PyDict.Get(d, "order_id").None? || PyDict.Get(d, "product").None? || PyDict.Get(d, "total_price").None? || PyDict.Get(d, "customer_info").None? ==> r.Failure?
    ensures r.Success? && PyDict.Get(d, "quantity").None? ==> r.value.quantity == 1
    ensures r.Success? && PyDict.Get(d, "color").None? ==> r.value.color.None?
    ensures r.Success? && PyDict.Get(d, "storage").None? ==> r.value.storage.None?
  {
    var orderId := StrField(d, "order_id", None);
    var product := StrField(d, "product", None);
    var color := OptStrField(d, "color", None);
    var storage := OptStrField(d, "storage", None);
    var quantity := IntField(d, "quantity", Some(1));
    var total := IntField(d, "total_price", None);
    var info := PyDict.Get(d, "customer_info");
    if orderId.Failure? then Failure(orderId.error)
    else if product.Failure? then Failure(product.error)
    else if color.Failure? then Failure(color.error)
    else if storage.Failure? then Failure(storage.error)
    else if quantity.Failure? then Failure(quantity.error)
    else if total.Failure? then Failure(total.error)
    else if info.None? || !info.value.JObj? then Failure("customer_info")
    else
      match CustomerInfoFrom(info.value.fields)
      case Failure(e) => Failure("customer_info." + e)
      case Success(c) => Success(OrderDetails(orderId.value, product.value, color.value, storage.value, quantity.value, total.value, c))
  }

  function OrderDetailsDump(o: OrderDetails): PyDict.Entries<Json> {
    [("order_id", JStr(o.orderId)),
     ("product", JStr(o.product)),
     ("color", OptOf(o.color)),
     ("storage", OptOf(o.storage)),
     ("quantity", JInt(o.quantity)),
     ("total_price", JInt(o.totalPrice)),
     ("customer_info", JObj(CustomerInfoDump(o.customerInfo)))]
  }

  lemma OrderDetailsRoundTrip(o: OrderDetails)
    ensures OrderDetailsFrom(OrderDetailsDump(o)) == Success(o)
  {
    var d := OrderDetailsDump(o);
    PyDict.GetFirst(d, 0, "order_id");
    PyDict.GetFirst(d, 1, "product");
    PyDict.GetFirst(d, 2, "color");
    PyDict.GetFirst(d, 3, "storage");
    PyDict.GetFirst(d, 4, "quantity");
    PyDict.GetFirst(d, 5, "total_price");
    PyDict.GetFirst(d, 6, "customer_info");
    CustomerInfoRoundTrip(o.customerInfo);
  }

  // ---- OrderCreationResult ----

  datatype OrderCreationResult = OrderCreationResult(orderCreated: bool, orderDetails: Option<OrderDetails>, message: string)

  function OrderCreationResultFrom(d: PyDict.Entries<Json>): (r: Result<OrderCreationResult, string>)
    ensures PyDict.Get(d, "order_created").None? || PyDict.Get(d, "message").None? ==> r.Failure?
    ensures r.Success? && PyDict.Get(d, "order_details").None? ==> r.value.orderDetails.None?
  {
    var created := BoolField(d, "order_created", None);
    var message := StrField(d, "message", None);
    var details: Result<Option<OrderDetails>, string> :=
      var g: Option<Json> := PyDict.Get(d, "order_details");
      match g
      case None => Success(None)
      case Some(JNull) => Success(None)
      case Some(JObj(fs)) =>
        (match OrderDetailsFrom(fs) case Failure(e) => Failure("order_details." + e) case Success(o) => Success(Some(o)))
      case Some(_) => Failure("order_details");
    if created.Failure? then Failure(created.error)
    else if details.Failure? then Failure(details.error)
    else if message.Failure? then Failure(message.error)
    else Success(OrderCreationResult(created.value, details.value, message.value))
  }

  function OrderCreationResultDump(o: OrderCreationResult): PyDict.Entries<Json> {
    [("order_created", JBool(o.orderCreated)),
     ("order_details", if o.orderDetails.Some? then JObj(OrderDetailsDump(o.orderDetails.value)) else JNull),
     ("message", JStr(o.message))]
  }

  lemma OrderCreationResultRoundTrip(o: OrderCreationResult)
    ensures OrderCreationResultFrom(OrderCreationResultDump(o)) == Success(o)
  {
    var d := OrderCreationResultDump(o);
    PyDict.GetFirst(d, 0, "order_created");
    PyDict.GetFirst(d, 1, "order_details");
    PyDict.GetFirst(d, 2, "message");
    if o.orderDetails.Some? {
      OrderDetailsRoundTrip(o.orderDetails.value);
    }
  }

  // ---- ChatRequest ----

  const MaxQueryLength := 2000

  datatype ChatRequest = ChatRequest(
    query: string,
    initialContextData: Option<PyDict.Entries<Json>>,
    userId: Option<string>,
    sessionId: Option<string>)

  /** The constraint on `query`. */
  predicate ValidChatRequest(c: ChatRequest) {
    1 <= |c.query| <= MaxQueryLength
  }

  function ChatRequestFrom(d: PyDict.Entries<Json>): (r: Result<ChatRequest, string>)
    ensures r.Success? ==> ValidChatRequest(r.value)
    ensures PyDict.Get(d, "query").None? ==> r.Failure?
    ensures PyDict.Get(d, "query") == Some(JStr("")) ==> r.Failure?
    ensures r.Success? && PyDict.Get(d, "user_id").None? ==> r.value.userId == Some("default_user")
    ensures r.Success? && PyDict.Get(d, "session_id").None? ==> r.value.sessionId.None?
  {
    var query := StrField(d, "query", None);
    var userId := OptStrField(d, "user_id", Some("default_user"));
    var sessionId := OptStrField(d, "session_id", None);
    var context: Result<Option<PyDict.Entries<Json>>, string> :=
      var g: Option<Json> := PyDict.Get(d, "initial_context_data");
      match g
      case None => Success(None)
      case Some(JNull) => Success(None)
      case Some(JObj(fs)) => Success(Some(fs))
      case Some(_) => Failure("initial_context_data");
    if query.Failure? || !(1 <= |query.value| <= MaxQueryLength) then Failure("query")
    else if context.Failure? then Failure(context.error)
    else if userId.Failure? then Failure(userId.error)
    else if sessionId.Failure? then Failure(sessionId.error)
    else Success(ChatRequest(query.value, context.value, userId.value, sessionId.value))
  }

  function ChatRequestDump(c: ChatRequest): PyDict.Entries<Json> {
    [("query", JStr(c.query)),
     ("initial_context_data", if c.initialContextData.Some? then JObj(c.initialContextData.value) else JNull),
     ("user_id", OptOf(c.userId)),
     ("session_id", OptOf(c.sessionId))]
  }

  /** A request is accepted exactly when its query has 1 to 2000 characters. */
  lemma ChatRequestRoundTrip(c: ChatRequest)
    ensures ChatRequestFrom(ChatRequestDump(c)).Success? <==> ValidChatRequest(c)
    ensures ValidChatRequest(c) ==> ChatRequestFrom(ChatRequestDump(c)) == Success(c)
  {
    var d := ChatRequestDump(c);
    PyDict.GetFirst(d, 0, "query");
    PyDict.GetFirst(d, 1, "initial_context_data");
    PyDict.GetFirst(d, 2, "user_id");
    PyDict.GetFirst(d, 3, "session_id");
  }
}
