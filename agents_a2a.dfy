/**
 * Agent cards and the in-process agent registry: each agent publishes a card, the registry
 * keeps cards, runners and handlers keyed by the card's name, and any agent can ask for the
 * function declarations of all the others.
 */
module AgentsA2A {
  import opened Wrappers
  import opened PyStr
  import PyDict
  import opened Json

  /** `AgentCard`, with the defaults of its last three fields given by `NewCard`. */
  datatype AgentCard = AgentCard(
    name: string,
    displayName: string,
    role: string,
    capabilities: seq<string>,
    inputSchema: PyDict.Entries<Json>,
    outputSchema: PyDict.Entries<Json>,
    endpoint: Option<string>,
    version: string,
    metadata: Option<PyDict.Entries<Json>>)

  function NewCard(name: string, displayName: string, role: string, capabilities: seq<string>,
                   inputSchema: PyDict.Entries<Json>, outputSchema: PyDict.Entries<Json>): (c: AgentCard)
    ensures c.endpoint == None && c.version == "1.0.0" && c.metadata == None
  {
    AgentCard(name, displayName, role, capabilities, inputSchema, outputSchema, None, "1.0.0", None)
  }

  /** The GenAI schema types. */
  datatype GenaiType = STRING | NUMBER | INTEGER | BOOLEAN | OBJECT | ARRAY

  /** The JSON Schema name of each GenAI type. */
  function JsonName(t: GenaiType): string {
    match t
    case STRING => "string"
    case NUMBER => "number"
    case INTEGER => "integer"
    case BOOLEAN => "boolean"
    case OBJECT => "object"
    case ARRAY => "array"
  }

  /** `_json_type_to_genai_type`: the six names in any case; anything else is STRING. */
  function JsonTypeToGenaiType(jsonType: string): GenaiType {
    match Lower(jsonType)
    case "number" => NUMBER
    case "integer" => INTEGER
    case "boolean" => BOOLEAN
    case "object" => OBJECT
    case "array" => ARRAY
    case _ => STRING
  }

  lemma LowerIdempotent(s: string)
    ensures Lower(Lower(s)) == Lower(s)
  {
  }

  /**
   * Every GenAI type is reached from its own name, case does not matter, and a name outside
   * the six maps to STRING.
   */
  lemma JsonTypeMapping(jsonType: string)
    ensures forall t: GenaiType :: JsonTypeToGenaiType(JsonName(t)) == t
    ensures JsonTypeToGenaiType(Lower(jsonType)) == JsonTypeToGenaiType(jsonType)
    ensures (forall t: GenaiType :: Lower(jsonType) != JsonName(t)) ==> JsonTypeToGenaiType(jsonType) == STRING
    ensures forall t: GenaiType :: Lower(jsonType) == JsonName(t) ==> JsonTypeToGenaiType(jsonType) == t
  {
    LowerIdempotent(jsonType);
    assert JsonName(NUMBER) == "number" && JsonName(INTEGER) == "integer" && JsonName(BOOLEAN) == "boolean";
    assert JsonName(OBJECT) == "object" && JsonName(ARRAY) == "array";
    forall t: GenaiType ensures Lower(JsonName(t)) == JsonName(t) {
      LowerOfLowercase(JsonName(t));
    }
  }

  lemma LowerOfLowercase(s: string)
    requires forall i :: 0 <= i < |s| ==> 'a' <= s[i] <= 'z'
    ensures Lower(s) == s
  {
  }

  /** A parameter schema: a type and a description. */
  datatype ParamSchema = ParamSchema(paramType: GenaiType, description: Json)

  /** `types.FunctionDeclaration` with an OBJECT parameter schema, as a plain record. */
  datatype FunctionDeclaration = FunctionDeclaration(name: string, description: string, properties: PyDict.Entries<ParamSchema>)

  /** The schema of one `input_schema` entry; `.get` and `.lower()` raise on the wrong types. */
  function ParamOf(schema: Json): Result<ParamSchema, string> {
    if !schema.JObj? then Failure(NoAttribute(schema, "get"))
    else
      var t := PyDict.GetOr(schema.fields, "type", JStr("string"));
      if !t.JStr? then Failure(NoAttribute(t, "lower"))
      else Success(ParamSchema(JsonTypeToGenaiType(t.s), PyDict.GetOr(schema.fields, "description", JStr(""))))
  }

  /** The dict comprehension over `input_schema.items()`. */
  function PropertiesOf(inputSchema: PyDict.Entries<Json>): (r: Result<PyDict.Entries<ParamSchema>, string>)
    ensures r.Success? ==> PyDict.Keys(r.value) == PyDict.Keys(inputSchema)
    ensures r.Success? ==> forall i :: 0 <= i < |inputSchema| ==> ParamOf(inputSchema[i].1) == Success(r.value[i].1)
    ensures r.Failure? <==> exists i :: 0 <= i < |inputSchema| && ParamOf(inputSchema[i].1).Failure?
  {
    PyDict.TryMapValuesMeaning(ParamOf, inputSchema);
    PyDict.TryMapValues(ParamOf, inputSchema)
  }

  /** `to_function_declaration`. */
  function ToFunctionDeclaration(card: AgentCard): Result<FunctionDeclaration, string> {
    match PropertiesOf(card.inputSchema)
    case Failure(e) => Failure(e)
    case Success(props) =>
      Success(FunctionDeclaration(card.name, card.role + "\n\nCapabilities: " + Join(card.capabilities, ", "), props))
  }

  /**
   * A declaration carries the card's name, a description that starts with the role and lists
   * the capabilities, one parameter per `input_schema` key in order, and a type of STRING
   * for a schema that gives none.
   */
  lemma DeclarationShape(card: AgentCard)
    requires ToFunctionDeclaration(card).Success?
    ensures var d := ToFunctionDeclaration(card).value;
      && d.name == card.name
      && StartsWith(d.description, card.role + "\n\nCapabilities: ")
      && (forall i :: 0 <= i < |card.capabilities| ==> Contains(d.description, card.capabilities[i]))
      && PyDict.Keys(d.properties) == PyDict.Keys(card.inputSchema)
      && (forall i :: 0 <= i < |card.inputSchema| ==>
            card.inputSchema[i].1.JObj? && "type" !in PyDict.Keys(card.inputSchema[i].1.fields)
            ==> d.properties[i].1.paramType == STRING)
  {
    var d := ToFunctionDeclaration(card).value;
    var head := card.role + "\n\nCapabilities: ";
    ConcatStartsWith(head, Join(card.capabilities, ", "));
    forall i | 0 <= i < |card.capabilities| ensures Contains(d.description, card.capabilities[i]) {
      JoinContains(card.capabilities, ", ", i);
      ContainsSuffix(head, Join(card.capabilities, ", "), card.capabilities[i]);
    }
    forall i | 0 <= i < |card.inputSchema| && card.inputSchema[i].1.JObj? && "type" !in PyDict.Keys(card.inputSchema[i].1.fields)
      ensures d.properties[i].1.paramType == STRING
    {
      PyDict.GetSomeIffKey(card.inputSchema[i].1.fields, "type");
      assert Lower("string") == "string";
    }
  }

  /** The cards registered under names other than `name`, in registry order. */
  function OtherCards(cards: PyDict.Entries<AgentCard>, name: string): (r: seq<AgentCard>)
    ensures |r| <= |cards|
    decreases |cards|
  {
    if cards == [] then []
    else (if cards[0].0 != name then [cards[0].1] else []) + OtherCards(cards[1..], name)
  }

  /** The declarations of a list of cards, or the first card's failure. */
  function DeclarationsOf(cards: seq<AgentCard>): (r: Result<seq<FunctionDeclaration>, string>)
    ensures r.Success? ==> |r.value| == |cards|
    ensures r.Success? ==> forall i :: 0 <= i < |cards| ==> ToFunctionDeclaration(cards[i]) == Success(r.value[i])
    decreases |cards|
  {
    if cards == [] then Success([])
    else
      var last := cards[|cards| - 1];
      match DeclarationsOf(cards[..|cards| - 1])
      case Failure(e) => Failure(e)
      case Success(ds) =>
        match ToFunctionDeclaration(last)
        case Failure(e) => Failure(e)
        case Success(d) => Success(ds + [d])
  }

  /** `AgentRegistry`: cards, runners and handlers keyed by the card's name. */
  class AgentRegistry<Runner, Handler> {
    var cards: PyDict.Entries<AgentCard>
    var runners: PyDict.Entries<Runner>
    var handlers: PyDict.Entries<Handler>

    /** The three dicts share their keys, and every card sits under its own name. */
    ghost predicate Valid()
      reads this
    {
      && PyDict.Wf(cards)
      && PyDict.Keys(cards) == PyDict.Keys(runners) == PyDict.Keys(handlers)
      && NamesMatch(cards)
    }

    constructor ()
      ensures Valid() && cards == [] && runners == [] && handlers == []
    {
      cards := [];
      runners := [];
      handlers := [];
    }

    /** `get_card`: None for an unregistered name. */
    function GetCard(name: string): (r: Option<AgentCard>)
      reads this
      requires Valid()
      ensures r.None? <==> name !in PyDict.Keys(cards)
      ensures r.Some? ==> r.value.name == name
    {
      PyDict.GetSomeIffKey(cards, name);
      if PyDict.Get(cards, name).Some? then CardNamed(cards, name); PyDict.Get(cards, name) else None
    }

    /** `get_runner`: None for an unregistered name. */
    function GetRunner(name: string): (r: Option<Runner>)
      reads this
      requires Valid()
      ensures r.None? <==> name !in PyDict.Keys(cards)
    {
      PyDict.GetSomeIffKey(runners, name);
      PyDict.Get(runners, name)
    }

    /** `get_handler`: None for an unregistered name. */
    function GetHandler(name: string): (r: Option<Handler>)
      reads this
      requires Valid()
      ensures r.None? <==> name !in PyDict.Keys(cards)
    {
      PyDict.GetSomeIffKey(handlers, name);
      PyDict.Get(handlers, name)
    }

    /** `list_agents`: one card per registered name, in first-registration order. */
    function ListAgents(): (r: seq<AgentCard>)
      reads this
      requires Valid()
      ensures |r| == |cards| && forall i :: 0 <= i < |r| ==> r[i].name == PyDict.Keys(cards)[i]
      ensures forall i :: 0 <= i < |r| ==> GetCard(r[i].name) == Some(r[i])
    {
      EachCardFound(cards);
      PyDict.Values(cards)
    }

    /**
     * `register`: the card, runner and handler are stored under the card's name, replacing
     * earlier ones (a re-registered name keeps its place); other names keep theirs.
     */
    method Register(card: AgentCard, runner: Runner, handler: Handler)
      requires Valid()
      modifies this
      ensures Valid()
      ensures cards == PyDict.Put(old(cards), card.name, card)
      ensures runners == PyDict.Put(old(runners), card.name, runner)
      ensures handlers == PyDict.Put(old(handlers), card.name, handler)
      ensures GetCard(card.name) == Some(card) && GetRunner(card.name) == Some(runner) && GetHandler(card.name) == Some(handler)
      ensures forall n :: n != card.name ==>
        GetCard(n) == old(GetCard(n)) && GetRunner(n) == old(GetRunner(n)) && GetHandler(n) == old(GetHandler(n))
      ensures PyDict.Keys(cards) == if card.name in old(PyDict.Keys(cards)) then old(PyDict.Keys(cards)) else old(PyDict.Keys(cards)) + [card.name]
    {
      var n0 := card.name;
      PyDict.PutWf(cards, n0, card);
      PyDict.PutKeys(cards, n0, card);
      PyDict.PutKeys(runners, n0, runner);
      PyDict.PutKeys(handlers, n0, handler);
      PyDict.PutGet(cards, n0, card);
      PyDict.PutGet(runners, n0, runner);
      PyDict.PutGet(handlers, n0, handler);
      forall n | n != n0
        ensures PyDict.Get(PyDict.Put(cards, n0, card), n) == PyDict.Get(cards, n)
        ensures PyDict.Get(PyDict.Put(runners, n0, runner), n) == PyDict.Get(runners, n)
        ensures PyDict.Get(PyDict.Put(handlers, n0, handler), n) == PyDict.Get(handlers, n)
      {
        PyDict.PutOther(cards, n0, card, n);
        PyDict.PutOther(runners, n0, runner, n);
        PyDict.PutOther(handlers, n0, handler, n);
      }
      PutKeepsNames(cards, card);
      cards := PyDict.Put(cards, n0, card);
      runners := PyDict.Put(runners, n0, runner);
      handlers := PyDict.Put(handlers, n0, handler);
    }

    /** `get_agent_declarations_for`: the loop over the cards that skips `agentName`. */
    method GetAgentDeclarationsFor(agentName: string) returns (r: Result<seq<FunctionDeclaration>, string>)
      requires Valid()
      ensures r == DeclarationsOf(OtherCards(cards, agentName))
    {
      var declarations: seq<FunctionDeclaration> := [];
      var i := 0;
      while i < |cards|
        invariant 0 <= i <= |cards|
        invariant DeclarationsOf(OtherCards(cards[..i], agentName)) == Success(declarations)
      {
        var entry := cards[i];
        DeclarationStep(cards, i, agentName, declarations);
        if entry.0 != agentName {
          var d := ToFunctionDeclaration(entry.1);
          if d.Failure? {
            FailureAt(cards, i, agentName, d.error);
            return Failure(d.error);
          }
          declarations := declarations + [d.value];
        }
        i := i + 1;
      }
      assert cards[..i] == cards;
      r := Success(declarations);
    }
  }

  /** Every card is stored under its own name. */
  predicate NamesMatch(cards: PyDict.Entries<AgentCard>) {
    forall i :: 0 <= i < |cards| ==> cards[i].1.name == cards[i].0
  }

  /** One more entry of the loop: skipped under `name`, else its declaration or its failure. */
  lemma DeclarationStep(cards: PyDict.Entries<AgentCard>, i: nat, name: string, ds: seq<FunctionDeclaration>)
    requires i < |cards| && DeclarationsOf(OtherCards(cards[..i], name)) == Success(ds)
    ensures cards[i].0 == name ==> DeclarationsOf(OtherCards(cards[..i + 1], name)) == Success(ds)
    ensures cards[i].0 != name ==>
      DeclarationsOf(OtherCards(cards[..i + 1], name)) == match ToFunctionDeclaration(cards[i].1) case Failure(e) => Failure(e) case Success(d) => Success(ds + [d])
  {
    assert cards[..i + 1] == cards[..i] + [cards[i]];
    OtherCardsSnoc(cards[..i], cards[i], name);
    var o := OtherCards(cards[..i], name);
    if cards[i].0 != name {
      assert (o + [cards[i].1])[..|o|] == o;
    } else {
      assert o + [] == o;
    }
  }

  /** A failure at entry `i` is the result for all the cards. */
  lemma FailureAt(cards: PyDict.Entries<AgentCard>, i: nat, name: string, e: string)
    requires i < |cards| && DeclarationsOf(OtherCards(cards[..i + 1], name)) == Failure(e)
    ensures DeclarationsOf(OtherCards(cards, name)) == Failure(e)
  {
    FailureStays(OtherCards(cards[..i + 1], name), OtherCards(cards[i + 1..], name), e);
    OtherCardsAppend(cards[..i + 1], cards[i + 1..], name);
    assert cards[..i + 1] + cards[i + 1..] == cards;
  }

  /** In a well-formed dict, every listed card is the one looked up under its key. */
  lemma EachCardFound(cards: PyDict.Entries<AgentCard>)
    requires PyDict.Wf(cards)
    ensures forall i :: 0 <= i < |cards| ==> PyDict.Get(cards, cards[i].0) == Some(cards[i].1)
  {
    forall i | 0 <= i < |cards|
      ensures PyDict.Get(cards, cards[i].0) == Some(cards[i].1)
    {
      PyDict.GetAt(cards, i);
    }
  }

  lemma {:induction false} CardNamed(cards: PyDict.Entries<AgentCard>, name: string)
    requires NamesMatch(cards)
    requires PyDict.Get(cards, name).Some?
    ensures PyDict.Get(cards, name).value.name == name
    decreases |cards|
  {
    if cards[0].0 != name {
      CardNamed(cards[1..], name);
    }
  }

  lemma {:induction false} PutKeepsNames(cards: PyDict.Entries<AgentCard>, card: AgentCard)
    requires NamesMatch(cards)
    ensures NamesMatch(PyDict.Put(cards, card.name, card))
    decreases |cards|
  {
    if cards != [] && cards[0].0 != card.name {
      PutKeepsNames(cards[1..], card);
      var c := PyDict.Put(cards, card.name, card);
      var t := PyDict.Put(cards[1..], card.name, card);
      assert c == [cards[0]] + t;
      forall i | 0 <= i < |c| ensures c[i].1.name == c[i].0 {
        if i > 0 {
          assert c[i] == t[i - 1];
          assert t[i - 1].1.name == t[i - 1].0;
        } else {
          assert c[0] == cards[0];
        }
      }
    } else if cards != [] {
      var c := PyDict.Put(cards, card.name, card);
      assert c == [(card.name, card)] + cards[1..];
      assert forall i :: 1 <= i < |c| ==> c[i] == cards[i];
    }
  }

  lemma {:induction false} OtherCardsAppend(a: PyDict.Entries<AgentCard>, b: PyDict.Entries<AgentCard>, name: string)
    ensures OtherCards(a + b, name) == OtherCards(a, name) + OtherCards(b, name)
    decreases |a|
  {
    if a == [] {
      assert a + b == b;
    } else {
      assert (a + b)[1..] == a[1..] + b;
      OtherCardsAppend(a[1..], b, name);
    }
  }

  lemma OtherCardsSnoc(a: PyDict.Entries<AgentCard>, e: (string, AgentCard), name: string)
    ensures OtherCards(a + [e], name) == OtherCards(a, name) + (if e.0 != name then [e.1] else [])
  {
    OtherCardsAppend(a, [e], name);
  }

  /** Once a card fails, the declarations of any longer list fail with the first failure. */
  lemma {:induction false} FailureStays(a: seq<AgentCard>, b: seq<AgentCard>, e: string)
    requires DeclarationsOf(a) == Failure(e)
    ensures DeclarationsOf(a + b) == Failure(e)
    decreases |b|
  {
    if b != [] {
      var ab := a + b;
      assert ab[..|ab| - 1] == a + b[..|b| - 1];
      FailureStays(a, b[..|b| - 1], e);
    } else {
      assert a + b == a;
    }
  }

  /**
   * The declarations are for every registered name but `agentName`, each once, in registry
   * order: their names are the registry's keys with `agentName` removed.
   */
  lemma {:induction false} OtherCardsNames(cards: PyDict.Entries<AgentCard>, name: string)
    requires NamesMatch(cards)
    ensures var r := OtherCards(cards, name);
      forall c :: c in r ==> c.name != name && c.name in PyDict.Keys(cards)
    ensures forall k :: k in PyDict.Keys(cards) && k != name ==> exists c :: c in OtherCards(cards, name) && c.name == k
    ensures PyDict.Wf(cards) ==> |OtherCards(cards, name)| == |cards| - (if name in PyDict.Keys(cards) then 1 else 0)
    decreases |cards|
  {
    if cards != [] {
      OtherCardsNames(cards[1..], name);
      assert PyDict.Keys(cards) == [cards[0].0] + PyDict.Keys(cards[1..]);
      if PyDict.Wf(cards) {
        assert PyDict.Wf(cards[1..]);
        if cards[0].0 == name {
          assert name !in PyDict.Keys(cards[1..]);
        }
      }
    }
  }

  // ---------------------------------------------------------------- the four agents' cards

  function TypeEntry(t: string): Json {
    JObj([("type", JStr(t))])
  }

  function TypeAndDescription(t: string, description: string): Json {
    JObj([("type", JStr(t)), ("description", JStr(description))])
  }

  /** `AnalysisAgent.CARD`. */
  const AnalysisCard: AgentCard := NewCard(
    "analysis_agent", "Analysis Agent",
    "Phân tích yêu cầu khách hàng và xác định workflow cần thiết",
    ["Phân tích ý định khách hàng", "Trích xuất thông tin sản phẩm", "Xác định workflow (check inventory, place order, etc.)"],
    [("query", TypeAndDescription("string", "Câu hỏi/yêu cầu của khách hàng"))],
    [("product_details", TypeEntry("string")), ("customer_intent", TypeEntry("string")),
     ("requires_inventory_check", TypeEntry("boolean")), ("requires_order_placement", TypeEntry("boolean"))])

  /** `InventoryAgent.CARD`. */
  const InventoryCard: AgentCard := NewCard(
    "inventory_agent", "Inventory Agent",
    "Kiểm tra tồn kho và giá sản phẩm từ database",
    ["Truy vấn tồn kho sản phẩm", "Lấy thông tin giá", "Kiểm tra số lượng còn hàng"],
    [("query", TypeAndDescription("string", "Thông tin sản phẩm cần check (product, storage, color)")),
     ("context", TypeAndDescription("string", "Context từ analysis agent (JSON string)"))],
    [("product_name", TypeEntry("string")), ("storage", TypeEntry("string")), ("color", TypeEntry("string")),
     ("stock_status", TypeEntry("string")), ("price", TypeEntry("number")), ("quantity", TypeEntry("integer"))])

  /** `OrderAgent.CARD`. */
  const OrderCard: AgentCard := NewCard(
    "order_agent", "Order Agent",
    "Tạo và quản lý đơn hàng cho khách",
    ["Tạo đơn hàng mới", "Lưu thông tin đơn hàng", "Generate order ID"],
    [("query", TypeAndDescription("string", "Yêu cầu tạo đơn hàng")),
     ("inventory_info", TypeAndDescription("string", "Thông tin tồn kho từ inventory agent (JSON)")),
     ("customer_info", TypeAndDescription("string", "Thông tin khách hàng (JSON)"))],
    [("order_created", TypeEntry("boolean")), ("order_details", TypeEntry("object")),
     ("customer_info", TypeEntry("object")), ("message", TypeEntry("string"))])

  /** `ConsultantAgent.CARD`. */
  const ConsultantCard: AgentCard := NewCard(
    "consultant_agent", "Consultant Agent",
    "Tạo câu trả lời tự nhiên cho khách hàng",
    ["Tổng hợp thông tin từ các agents", "Generate natural language response", "Định dạng thông tin thân thiện"],
    [("query", TypeEntry("string")), ("analysis", TypeEntry("string")), ("inventory", TypeEntry("string")),
     ("order", TypeEntry("string")), ("coordinator_summary", TypeEntry("string"))],
    [("response", TypeEntry("string"))])

  /** The inventory card turns into a declaration whose parameters are the handler's string arguments, in order. */
  lemma InventoryCardDeclares()
    ensures ToFunctionDeclaration(InventoryCard).Success?
    ensures var d := ToFunctionDeclaration(InventoryCard).value;
      d.name == "inventory_agent" && PyDict.Keys(d.properties) == ["query", "context"]
      && forall i :: 0 <= i < |d.properties| ==> d.properties[i].1.paramType == STRING
  {
    assert Lower("string") == "string";
    var inv := InventoryCard.inputSchema;
    forall i | 0 <= i < |inv| ensures ParamOf(inv[i].1).Success? && ParamOf(inv[i].1).value.paramType == STRING {
      var f := inv[i].1.fields;
      PyDict.GetFirst(f, 0, "type");
    }
  }

  /** The order card turns into a declaration whose parameters are the handler's string arguments, in order. */
  lemma OrderCardDeclares()
    ensures ToFunctionDeclaration(OrderCard).Success?
    ensures var d := ToFunctionDeclaration(OrderCard).value;
      d.name == "order_agent" && PyDict.Keys(d.properties) == ["query", "inventory_info", "customer_info"]
      && forall i :: 0 <= i < |d.properties| ==> d.properties[i].1.paramType == STRING
  {
    assert Lower("string") == "string";
    var ord := OrderCard.inputSchema;
    forall i | 0 <= i < |ord| ensures ParamOf(ord[i].1).Success? && ParamOf(ord[i].1).value.paramType == STRING {
      var f := ord[i].1.fields;
      PyDict.GetFirst(f, 0, "type");
    }
  }
}
