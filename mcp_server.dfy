/**
 * The MCP server's three tools. `create_order` validates and normalises an order and writes
 * it as `orders/<order_id>_<conversation_id>.json`; `get_order` returns the first listed file
 * whose name fits an order id; `get_product_info` shapes the product database's answer.
 * The `orders` directory is a map from file name to content, the uuid draws are parameters,
 * and the database is an oracle.
 */
module McpServer {
  import opened Wrappers
  import opened PyStr
  import PyDict
  import opened Json

  const OrdersDir: string := "orders"
  const RequiredFields: seq<string> := ["product", "color", "storage", "quantity", "total_price", "customer_info"]
  const DefaultOrderMessage: string := "Đơn hàng đã được tạo."

  /** Where `create_order` stands after validation: the reply text, or the order and its file name. */
  datatype Prepared = Rejected(reply: string) | Accepted(order: Json, fileName: string)

  /** `f"{type(v)}"`. */
  function TypeRepr(v: Json): string {
    "<class '" + TypeName(v) + "'>"
  }

  /** `[f for f in fields if f not in data]`; only a dict, str or list supports `in`. */
  function MissingFrom(data: Json, fields: seq<string>): (r: seq<string>)
    requires data.JObj? || data.JStr? || data.JList?
    ensures forall f :: f in r <==> f in fields && !ContainsKey(data, f).value
    ensures |r| <= |fields|
    decreases |fields|
  {
    if fields == [] then []
    else (if ContainsKey(data, fields[0]).value then [] else [fields[0]]) + MissingFrom(data, fields[1..])
  }

  function ErrorSaving(e: string): string {
    "Error saving order to file: " + e
  }

  /** The standardised order `create_order` writes. */
  function StandardOrder(orderId: string, fs: PyDict.Entries<Json>, ci: PyDict.Entries<Json>, conv: Json): Json {
    JObj([
      ("order_details", JObj([
        ("order_id", JStr(orderId)),
        ("product", PyDict.GetOr(fs, "product", JStr("Unknown Product"))),
        ("color", PyDict.GetOr(fs, "color", JStr("Unknown Color"))),
        ("storage", PyDict.GetOr(fs, "storage", JStr("Unknown Storage"))),
        ("quantity", PyDict.GetOr(fs, "quantity", JInt(1))),
        ("total_price", PyDict.GetOr(fs, "total_price", JInt(0))),
        ("customer_info", JObj([
          ("customer_name", PyDict.GetOr(ci, "customer_name", JStr("Guest"))),
          ("conversation_id", conv)]))])),
      ("message", PyDict.GetOr(fs, "message", JStr(DefaultOrderMessage)))])
  }

  /** The checks and the normalisation after the unwrap, for the data actually examined. */
  function PrepareData(reprOf: Json -> string, data: Json, orderHex: string, convUuid: string): Prepared
    requires |orderHex| >= 16
  {
    if !(data.JObj? || data.JStr? || data.JList?) then
      Rejected(ErrorSaving("argument of type '" + TypeName(data) + "' is not iterable"))
    else
      var missing := MissingFrom(data, RequiredFields);
      if missing != [] then Rejected("Error: Missing required fields: " + Join(missing, ", "))
      else if !data.JObj? then Rejected(ErrorSaving(NoAttribute(data, "get")))
      else
        var ci := PyDict.GetOr(data.fields, "customer_info", JObj([]));
        if !ci.JObj? then Rejected(ErrorSaving(NoAttribute(ci, "get")))
        else
          var orderId := "order_" + orderHex[..16];
          var conv := PyDict.GetOr(ci.fields, "conversation_id", JStr(convUuid));
          Accepted(StandardOrder(orderId, data.fields, ci.fields, conv), orderId + "_" + Str(conv, reprOf) + ".json")
  }

  /**
   * `create_order` up to the file write: the dict check, one level of `order_details`
   * unwrapping, the required fields, then the defaults. `orderHex` is `uuid4().hex` and
   * `convUuid` is `str(uuid4())`, both drawn on every accepted call.
   */
  function PrepareOrder(reprOf: Json -> string, orderDetails: Json, orderHex: string, convUuid: string): Prepared
    requires |orderHex| >= 16
  {
    if !orderDetails.JObj? then
      Rejected("Error: Input data is not a valid dictionary, received: " + TypeRepr(orderDetails))
    else
      var data := match PyDict.Get(orderDetails.fields, "order_details")
        case Some(inner) => inner
        case None => orderDetails;
      PrepareData(reprOf, data, orderHex, convUuid)
  }

  /** A file name `get_order` accepts for an id. */
  predicate NameMatches(name: string, orderId: string) {
    StartsWith(name, "order_" + orderId) && EndsWith(name, ".json")
  }

  /** The first listed name at or after `from` that fits the id. */
  function FirstMatch(listing: seq<string>, orderId: string, from: nat): (r: Option<nat>)
    ensures r.Some? ==> from <= r.value < |listing| && NameMatches(listing[r.value], orderId)
    ensures r.Some? ==> forall j :: from <= j < r.value ==> !NameMatches(listing[j], orderId)
    ensures r.None? ==> forall j :: from <= j < |listing| ==> !NameMatches(listing[j], orderId)
    decreases |listing| - from
  {
    if from >= |listing| then None
    else if NameMatches(listing[from], orderId) then Some(from)
    else FirstMatch(listing, orderId, from + 1)
  }

  /** `os.path.join(ORDERS_DIR, name)`. */
  function OrderPath(name: string): string {
    OrdersDir + "/" + name
  }

  /** The `orders` directory: whether it exists, and its files by name. */
  class OrderDirectory {
    var present: bool
    var files: map<string, string>

    ghost predicate Valid()
      reads this
    {
      !present ==> files == map[]
    }

    constructor (present0: bool, files0: map<string, string>)
      requires !present0 ==> files0 == map[]
      ensures Valid() && present == present0 && files == files0
    {
      present := present0;
      files := files0;
    }

    /**
     * `create_order`: the directory is created first; an accepted order is written with
     * indent 4 and the reply names its path; a rejected one writes nothing.
     */
    method CreateOrder(codec: Codec, reprOf: Json -> string, orderDetails: Json, orderHex: string, convUuid: string)
      returns (reply: string)
      requires Valid() && |orderHex| >= 16
      modifies this
      ensures Valid() && present
      ensures match PrepareOrder(reprOf, orderDetails, orderHex, convUuid)
        case Rejected(m) => reply == m && files == old(files)
        case Accepted(order, name) =>
          && files == old(files)[name := codec.dumps(order, UnicodeIndented(4))]
          && reply == "Order data successfully saved to file: " + OrderPath(name)
    {
      present := true;
      var prepared := PrepareOrder(reprOf, orderDetails, orderHex, convUuid);
      if prepared.Rejected? {
        return prepared.reply;
      }
      var filepath := OrderPath(prepared.fileName);
      files := files[prepared.fileName := codec.dumps(prepared.order, UnicodeIndented(4))];
      reply := "Order data successfully saved to file: " + filepath;
    }

    /**
     * `get_order`: scan the listing (`os.listdir`'s order) and return the first fitting file's
     * content; 404 when none fits, 500 when the directory is missing.
     */
    method GetOrder(orderId: string, listing: seq<string>) returns (r: Json)
      requires Valid()
      requires forall n :: n in listing <==> n in files
      ensures !present ==> r == JObj([("error", JStr("Error retrieving order file: [Errno 2] No such file or directory: 'orders'")),
                                      ("status", JInt(500))])
      ensures present ==> match FirstMatch(listing, orderId, 0)
        case Some(i) => r == JObj([("file_content", JStr(files[listing[i]]))])
        case None => r == JObj([("error", JStr("Order file with ID " + orderId + " not found")), ("status", JInt(404))])
    {
      if !present {
        return JObj([("error", JStr("Error retrieving order file: [Errno 2] No such file or directory: 'orders'")),
                     ("status", JInt(500))]);
      }
      var i := 0;
      while i < |listing|
        invariant 0 <= i <= |listing|
        invariant FirstMatch(listing, orderId, 0) == FirstMatch(listing, orderId, i)
      {
        var filename := listing[i];
        if StartsWith(filename, "order_" + orderId) && EndsWith(filename, ".json") {
          return JObj([("file_content", JStr(files[filename]))]);
        }
        i := i + 1;
      }
      return JObj([("error", JStr("Order file with ID " + orderId + " not found")), ("status", JInt(404))]);
    }
  }

  /** A non-dict argument is refused with its type named. */
  lemma NonDictRefused(reprOf: Json -> string, v: Json, orderHex: string, convUuid: string)
    requires !v.JObj? && |orderHex| >= 16
    ensures PrepareOrder(reprOf, v, orderHex, convUuid)
            == Rejected("Error: Input data is not a valid dictionary, received: <class '" + TypeName(v) + "'>")
  {
  }

  /**
   * The `order_details` wrapper is removed exactly once: a doubly wrapped order is examined
   * one level down, where the only key is `order_details`, so every required field is missing.
   */
  lemma UnwrapOnce(reprOf: Json -> string, inner: Json, orderHex: string, convUuid: string)
    requires |orderHex| >= 16
    ensures var twice := JObj([("order_details", JObj([("order_details", inner)]))]);
      PrepareOrder(reprOf, twice, orderHex, convUuid)
      == Rejected("Error: Missing required fields: " + Join(RequiredFields, ", "))
  {
    var data := JObj([("order_details", inner)]);
    assert PyDict.Keys(data.fields) == ["order_details"];
    assert forall f :: f in RequiredFields ==> f != "order_details";
    NothingPresent(data, RequiredFields);
  }

  lemma {:induction false} NothingPresent(data: Json, fields: seq<string>)
    requires data.JObj? && forall f :: f in fields ==> f !in PyDict.Keys(data.fields)
    ensures MissingFrom(data, fields) == fields
    decreases |fields|
  {
    if fields != [] {
      NothingPresent(data, fields[1..]);
    }
  }

  /**
   * Missing fields are listed in the fixed order product, color, storage, quantity,
   * total_price, customer_info, and nothing else is listed.
   */
  lemma MissingInFixedOrder(data: Json)
    requires data.JObj?
    ensures var m := MissingFrom(data, RequiredFields);
      && (forall f :: f in m <==> f in RequiredFields && f !in PyDict.Keys(data.fields))
      && IsSubsequence(m, RequiredFields)
  {
    MissingIsSubsequence(data, RequiredFields);
  }

  /** `a` is `b` with some elements dropped, order kept. */
  predicate IsSubsequence(a: seq<string>, b: seq<string>)
    decreases |b|
  {
    if b == [] then a == []
    else (a != [] && a[0] == b[0] && IsSubsequence(a[1..], b[1..])) || IsSubsequence(a, b[1..])
  }

  lemma {:induction false} MissingIsSubsequence(data: Json, fields: seq<string>)
    requires data.JObj? || data.JStr? || data.JList?
    ensures IsSubsequence(MissingFrom(data, fields), fields)
    decreases |fields|
  {
    if fields != [] {
      MissingIsSubsequence(data, fields[1..]);
      if !ContainsKey(data, fields[0]).value {
        assert MissingFrom(data, fields) == [fields[0]] + MissingFrom(data, fields[1..]);
        assert MissingFrom(data, fields)[1..] == MissingFrom(data, fields[1..]);
      } else {
        assert MissingFrom(data, fields) == MissingFrom(data, fields[1..]);
      }
    }
  }

  /**
   * An order is accepted exactly when the examined data is a dict holding every required
   * field with a dict as `customer_info`.
   */
  lemma AcceptedExactly(reprOf: Json -> string, data: Json, orderHex: string, convUuid: string)
    requires |orderHex| >= 16
    ensures PrepareData(reprOf, data, orderHex, convUuid).Accepted? <==>
      && data.JObj?
      && (forall f :: f in RequiredFields ==> f in PyDict.Keys(data.fields))
      && PyDict.GetOr(data.fields, "customer_info", JObj([])).JObj?
  {
    if data.JObj? {
      var m := MissingFrom(data, RequiredFields);
      if m != [] {
        assert m[0] in m;
      }
    }
  }

  /**
   * An accepted order gets id `order_` + 16 hex characters, the defaults for absent keys, and
   * the file name `<order_id>_<conversation_id>.json`.
   */
  lemma AcceptedOrder(reprOf: Json -> string, data: Json, orderHex: string, convUuid: string)
    requires |orderHex| >= 16 && IsLowerHex(orderHex)
    ensures PrepareData(reprOf, data, orderHex, convUuid).Accepted? ==>
      var ci := PyDict.GetOr(data.fields, "customer_info", JObj([])).fields;
      var conv := PyDict.GetOr(ci, "conversation_id", JStr(convUuid));
      var orderId := "order_" + orderHex[..16];
      && |orderId| == 22 && IsLowerHex(orderId[6..])
      && PrepareData(reprOf, data, orderHex, convUuid).order == StandardOrder(orderId, data.fields, ci, conv)
      && PrepareData(reprOf, data, orderHex, convUuid).fileName == orderId + "_" + Str(conv, reprOf) + ".json"
  {
    DropHead("order_", orderHex[..16]);
  }

  /** With no `customer_name`, `message` or `conversation_id`, the defaults are used. */
  lemma OrderDefaults(orderId: string, fs: PyDict.Entries<Json>, ci: PyDict.Entries<Json>, convUuid: string)
    requires "message" !in PyDict.Keys(fs) && "customer_name" !in PyDict.Keys(ci) && "conversation_id" !in PyDict.Keys(ci)
    ensures StandardOrder(orderId, fs, ci, PyDict.GetOr(ci, "conversation_id", JStr(convUuid)))
      == JObj([
        ("order_details", JObj([
          ("order_id", JStr(orderId)),
          ("product", PyDict.GetOr(fs, "product", JStr("Unknown Product"))),
          ("color", PyDict.GetOr(fs, "color", JStr("Unknown Color"))),
          ("storage", PyDict.GetOr(fs, "storage", JStr("Unknown Storage"))),
          ("quantity", PyDict.GetOr(fs, "quantity", JInt(1))),
          ("total_price", PyDict.GetOr(fs, "total_price", JInt(0))),
          ("customer_info", JObj([("customer_name", JStr("Guest")), ("conversation_id", JStr(convUuid))]))])),
        ("message", JStr(DefaultOrderMessage))])
  {
    PyDict.GetSomeIffKey(fs, "message");
    PyDict.GetSomeIffKey(ci, "customer_name");
    PyDict.GetSomeIffKey(ci, "conversation_id");
  }

  /**
   * Round trip: the file an accepted order is written to fits the order's own id, so once it
   * is listed, `get_order` with that id's hex part finds a file (the first fitting one).
   */
  lemma CreatedOrderIsFound(hex: string, conv: string, listing: seq<string>)
    requires ("order_" + hex + "_" + conv + ".json") in listing
    ensures NameMatches("order_" + hex + "_" + conv + ".json", hex)
    ensures FirstMatch(listing, hex, 0).Some?
  {
    var name := "order_" + hex + "_" + conv + ".json";
    ConcatStartsWith("order_" + hex, "_" + conv + ".json");
    assert name == ("order_" + hex) + ("_" + conv + ".json");
    assert name[|name| - 5..] == ".json";
  }

  // ---------------------------------------------------------------------------------------
  // `get_product_info`
  // ---------------------------------------------------------------------------------------

  /** The product store's `get_products(product_name, storage, color)`: matching documents or an exception text. */
  type ProductDb = (Json, Json, Json) -> Result<seq<Json>, string>

  /** The object `get_product_info` dumps, and the dump style. */
  function ProductInfoObject(reprOf: Json -> string, db: Option<ProductDb>, product: Json, storage: Json, color: Json)
    : (Json, Style)
  {
    match db
    case None => (JObj([("error", JStr("Cannot connect to MongoDB database")), ("status", JStr("error"))]), Ascii)
    case Some(query) =>
      match query(product, storage, color)
      case Failure(e) =>
        (JObj([("error", JStr("Error retrieving product info: " + e)), ("status", JStr("error"))]), UnicodeIndented(4))
      case Success(products) =>
        if products == [] then
          (JObj([("error", JStr("No product found matching product='" + Str(product, reprOf)
                                + "', storage='" + Str(Or(storage, JStr("any")), reprOf)
                                + "', color='" + Str(Or(color, JStr("any")), reprOf) + "'")),
                 ("status", JStr("not_found"))]), Ascii)
        else (JObj([("status", JStr("success")), ("products", JList(products))]), Unicode)
  }

  /** `get_product_info`. */
  function GetProductInfo(codec: Codec, reprOf: Json -> string, db: Option<ProductDb>, product: Json, storage: Json, color: Json): string {
    var (obj, style) := ProductInfoObject(reprOf, db, product, storage, color);
    codec.dumps(obj, style)
  }

  /**
   * The status is `not_found` exactly when the database answers with no product, and
   * `success` exactly when it answers with some, which are then returned in full.
   */
  lemma ProductInfoStatus(reprOf: Json -> string, query: ProductDb, product: Json, storage: Json, color: Json)
    ensures var obj := ProductInfoObject(reprOf, Some(query), product, storage, color).0;
      (PyDict.Get(obj.fields, "status") == Some(JStr("not_found"))) <==> query(product, storage, color) == Success([])
    ensures var obj := ProductInfoObject(reprOf, Some(query), product, storage, color).0;
      (PyDict.Get(obj.fields, "status") == Some(JStr("success"))) <==>
        (query(product, storage, color).Success? && query(product, storage, color).value != [])
    ensures var obj := ProductInfoObject(reprOf, Some(query), product, storage, color).0;
      query(product, storage, color).Success? && query(product, storage, color).value != [] ==>
        PyDict.Get(obj.fields, "products") == Some(JList(query(product, storage, color).value))
  {
  }
}
