/**
 * The inventory tool: `get_product_info_async` calls the MCP `get_product_info` tool with
 * retries, sending `storage` and `color` only when they are truthy, and turns exhaustion into
 * a JSON error object; `check_inventory_detail` maps blank filters to None first.
 */
module GetProducts {
  import opened Wrappers
  import opened PyStr
  import PyDict
  import opened Json
  import opened McpClient

  const DefaultMaxRetries := 3
  const DefaultTimeout := 15

  /** The `kwargs` of the MCP call: `product` always, `storage` and `color` when truthy. */
  function ProductQuery(product: Json, storage: Json, color: Json): PyDict.Entries<Json> {
    [("product", product)]
    + (if Truthy(storage) then [("storage", storage)] else [])
    + (if Truthy(color) then [("color", color)] else [])
  }

  /** The query always names the product, and names a filter exactly when it is truthy. */
  lemma ProductQueryShape(product: Json, storage: Json, color: Json)
    ensures PyDict.Wf(ProductQuery(product, storage, color))
    ensures PyDict.Keys(ProductQuery(product, storage, color))[0] == "product"
    ensures PyDict.Get(ProductQuery(product, storage, color), "product") == Some(product)
    ensures PyDict.Get(ProductQuery(product, storage, color), "storage") == if Truthy(storage) then Some(storage) else None
    ensures PyDict.Get(ProductQuery(product, storage, color), "color") == if Truthy(color) then Some(color) else None
  {
    var q := ProductQuery(product, storage, color);
    if Truthy(storage) && Truthy(color) {
      assert q == [("product", product), ("storage", storage), ("color", color)];
      PyDict.GetAt(q, 2);
    } else if Truthy(storage) {
      assert q == [("product", product), ("storage", storage)];
      assert PyDict.Keys(q) == ["product", "storage"];
      PyDict.GetSomeIffKey(q, "color");
    } else if Truthy(color) {
      assert q == [("product", product), ("color", color)];
      assert PyDict.Keys(q) == ["product", "color"];
      PyDict.GetSomeIffKey(q, "storage");
    } else {
      assert q == [("product", product)];
    }
  }

  function ErrorReply(codec: Codec, message: string): string {
    codec.dumps(JObj([("status", JStr("error")), ("message", JStr(message))]), Unicode)
  }

  /** What `get_product_info_async` returns. */
  function ProductReply(codec: Codec, transport: Transport, product: Json, storage: Json, color: Json,
                        maxRetries: int, timeout: int): string
  {
    match RetryOutcome(transport, "get_product_info", ProductQuery(product, storage, color), maxRetries, timeout)
    case Success(t) => t
    case Failure(e) =>
      ErrorReply(codec, "Failed to get product info after " + IntToString(maxRetries) + " attempts. Last error: " + OptText(e))
  }

  /** `get_product_info_async`. */
  method GetProductInfoAsync(codec: Codec, transport: Transport, product: Json, storage: Json, color: Json,
                             maxRetries: int, timeout: int)
    returns (text: string, waits: seq<nat>)
    ensures text == ProductReply(codec, transport, product, storage, color, maxRetries, timeout)
    ensures waits == RetryWaits(transport, "get_product_info", ProductQuery(product, storage, color), maxRetries)
  {
    var kwargs := [("product", product)];
    if Truthy(storage) {
      kwargs := kwargs + [("storage", storage)];
    }
    if Truthy(color) {
      kwargs := kwargs + [("color", color)];
    }
    assert kwargs == ProductQuery(product, storage, color);
    var r;
    r, waits := RetryCall(transport, "get_product_info", kwargs, maxRetries, timeout);
    if r.Success? {
      return r.value, waits;
    }
    text := ErrorReply(codec, "Failed to get product info after " + IntToString(maxRetries)
                              + " attempts. Last error: " + OptText(r.error));
  }

  /** `x if x and x.strip() else None`; `strip` raises on a truthy non-string. */
  function BlankToNone(v: Json): Result<Json, string> {
    if !Truthy(v) then Success(JNull)
    else if !v.JStr? then Failure(NoAttribute(v, "strip"))
    else if Strip(v.s) == "" then Success(JNull)
    else Success(v)
  }

  /** What `check_inventory_detail` returns. */
  function InventoryReply(codec: Codec, transport: Transport, product: Json, storage: Json, color: Json): string {
    match BlankToNone(storage)
    case Failure(e) => ErrorReply(codec, "Failed to check inventory: " + e)
    case Success(s) =>
      match BlankToNone(color)
      case Failure(e) => ErrorReply(codec, "Failed to check inventory: " + e)
      case Success(c) => ProductReply(codec, transport, product, s, c, DefaultMaxRetries, DefaultTimeout)
  }

  /** `check_inventory_detail`: blank filters become None before the lookup. */
  method CheckInventoryDetail(codec: Codec, transport: Transport, product: Json, storage: Json, color: Json)
    returns (text: string, waits: seq<nat>)
    ensures text == InventoryReply(codec, transport, product, storage, color)
  {
    var s := BlankToNone(storage);
    if s.Failure? {
      return ErrorReply(codec, "Failed to check inventory: " + s.error), [];
    }
    var c := BlankToNone(color);
    if c.Failure? {
      return ErrorReply(codec, "Failed to check inventory: " + c.error), [];
    }
    text, waits := GetProductInfoAsync(codec, transport, product, s.value, c.value, DefaultMaxRetries, DefaultTimeout);
  }

  /**
   * A filter that is missing, empty or all whitespace means "any": it is left out of the
   * query, and a non-blank string is sent unchanged.
   */
  lemma BlankFilterIsAny(v: Json)
    ensures BlankToNone(v).Success? && !Truthy(BlankToNone(v).value) <==>
      !Truthy(v) || (v.JStr? && forall i :: 0 <= i < |v.s| ==> IsSpace(v.s[i]))
    ensures BlankToNone(v).Success? && Truthy(BlankToNone(v).value) ==> BlankToNone(v).value == v
  {
    if v.JStr? {
      StripEmptyIffSpace(v.s);
    }
  }

  lemma {:induction false} LStripEmptyIffSpace(s: string)
    ensures LStripSpace(s) == "" <==> forall i :: 0 <= i < |s| ==> IsSpace(s[i])
    decreases |s|
  {
    if |s| > 0 {
      LStripEmptyIffSpace(s[1..]);
      if IsSpace(s[0]) {
        assert forall i :: 1 <= i < |s| ==> s[i] == s[1..][i - 1];
      }
    }
  }

  lemma {:induction false} RStripEmptyOnlyIfEmpty(s: string)
    requires |s| > 0 && !IsSpace(s[0])
    ensures RStripSpace(s) != ""
    decreases |s|
  {
    if IsSpace(s[|s| - 1]) {
      RStripEmptyOnlyIfEmpty(s[..|s| - 1]);
    }
  }

  /** `s.strip()` is empty exactly when `s` is all whitespace. */
  lemma StripEmptyIffSpace(s: string)
    ensures Strip(s) == "" <==> forall i :: 0 <= i < |s| ==> IsSpace(s[i])
  {
    LStripEmptyIffSpace(s);
    var l := LStripSpace(s);
    if l != "" {
      LStripStopsAtText(s);
      RStripEmptyOnlyIfEmpty(l);
    }
  }

  lemma {:induction false} LStripStopsAtText(s: string)
    requires LStripSpace(s) != ""
    ensures !IsSpace(LStripSpace(s)[0])
    decreases |s|
  {
    if IsSpace(s[0]) {
      LStripStopsAtText(s[1..]);
    }
  }
}
