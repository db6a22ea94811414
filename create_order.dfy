/**
 * The order tool: `create_order_async` calls the MCP `create_order` tool with retries and
 * turns exhaustion into an `Error: ...` text; `create_customer_order` first decodes a JSON
 * string argument. The synchronous event-loop wrapper between them adds nothing observable.
 */
module CreateOrder {
  import opened Wrappers
  import opened PyStr
  import opened Json
  import opened McpClient

  const DefaultMaxRetries := 3
  const DefaultTimeout := 15

  /** The MCP call's arguments: `{"order_details": order_details}`. */
  function OrderCallArgs(orderDetails: Json): PyDict.Entries<Json> {
    [("order_details", orderDetails)]
  }

  function ExhaustedMessage(maxRetries: int, lastError: Option<string>): string {
    "Error: " + ("Failed to create order after " + IntToString(maxRetries) + " attempts. Last error: " + OptText(lastError))
  }

  /** What `create_order_async` returns. */
  function OrderReply(transport: Transport, orderDetails: Json, maxRetries: int, timeout: int): string {
    match RetryOutcome(transport, "create_order", OrderCallArgs(orderDetails), maxRetries, timeout)
    case Success(t) => t
    case Failure(e) => ExhaustedMessage(maxRetries, e)
  }

  /** `create_order_async`: the retry loop over `create_order`, plus the exhaustion message. */
  method CreateOrderAsync(transport: Transport, orderDetails: Json, maxRetries: int, timeout: int)
    returns (text: string, waits: seq<nat>)
    ensures text == OrderReply(transport, orderDetails, maxRetries, timeout)
    ensures waits == RetryWaits(transport, "create_order", OrderCallArgs(orderDetails), maxRetries)
  {
    var r;
    r, waits := RetryCall(transport, "create_order", OrderCallArgs(orderDetails), maxRetries, timeout);
    if r.Success? {
      return r.value, waits;
    }
    return ExhaustedMessage(maxRetries, r.error), waits;
  }

  /**
   * The reply is the server's first non-empty text, whatever that text says: an error text
   * from the server is passed on, not retried.
   */
  lemma OrderReplyFirstText(transport: Transport, orderDetails: Json, maxRetries: int, timeout: int, k: nat)
    requires k < AttemptCount(maxRetries) && Succeeds(transport("create_order", OrderCallArgs(orderDetails), k))
    requires forall j :: 0 <= j < k ==> !Succeeds(transport("create_order", OrderCallArgs(orderDetails), j))
    ensures OrderReply(transport, orderDetails, maxRetries, timeout)
            == transport("create_order", OrderCallArgs(orderDetails), k).text
  {
    RetryOutcomeMeaning(transport, "create_order", OrderCallArgs(orderDetails), maxRetries, timeout);
  }

  /**
   * When every attempt fails the text is the exhaustion message carrying the last attempt's
   * error (`None` when no attempt was made).
   */
  lemma OrderReplyExhausted(transport: Transport, orderDetails: Json, maxRetries: int, timeout: int)
    requires forall k :: 0 <= k < AttemptCount(maxRetries) ==> !Succeeds(transport("create_order", OrderCallArgs(orderDetails), k))
    ensures var n := AttemptCount(maxRetries);
      OrderReply(transport, orderDetails, maxRetries, timeout)
      == ExhaustedMessage(maxRetries, if n == 0 then None else Some(ErrorText(transport("create_order", OrderCallArgs(orderDetails), n - 1), timeout)))
  {
    var f := FirstReply(transport, "create_order", OrderCallArgs(orderDetails), 0, AttemptCount(maxRetries));
    assert f.None?;
  }

  /** The exhaustion message is an error text: it starts with `Error: `. */
  lemma ExhaustedMessageIsError(maxRetries: int, lastError: Option<string>)
    ensures StartsWith(ExhaustedMessage(maxRetries, lastError), "Error: ")
  {
    ConcatStartsWith("Error: ", "Failed to create order after " + IntToString(maxRetries) + " attempts. Last error: " + OptText(lastError));
  }

  /** What `create_customer_order` returns: a JSON string argument is decoded first. */
  function CustomerOrderReply(codec: Codec, transport: Transport, orderDetails: Json): string {
    if orderDetails.JStr? then
      match codec.loads(orderDetails.s)
      case Failure(e) => "Error: Invalid JSON string - " + e
      case Success(payload) => OrderReply(transport, payload, DefaultMaxRetries, DefaultTimeout)
    else OrderReply(transport, orderDetails, DefaultMaxRetries, DefaultTimeout)
  }

  /** `create_customer_order`. */
  method CreateCustomerOrder(codec: Codec, transport: Transport, orderDetails: Json)
    returns (text: string, waits: seq<nat>)
    ensures text == CustomerOrderReply(codec, transport, orderDetails)
  {
    var payload := orderDetails;
    if orderDetails.JStr? {
      var parsed := codec.loads(orderDetails.s);
      if parsed.Failure? {
        return "Error: Invalid JSON string - " + parsed.error, [];
      }
      payload := parsed.value;
    }
    text, waits := CreateOrderAsync(transport, payload, DefaultMaxRetries, DefaultTimeout);
  }

  /**
   * A string that does not decode is reported without contacting the server (the reply does
   * not depend on the transport); a string that does decode is sent as the decoded value.
   */
  lemma CustomerOrderString(codec: Codec, transport: Transport, other: Transport, s: string)
    ensures codec.loads(s).Failure? ==>
      && CustomerOrderReply(codec, transport, JStr(s)) == "Error: Invalid JSON string - " + codec.loads(s).error
      && CustomerOrderReply(codec, other, JStr(s)) == CustomerOrderReply(codec, transport, JStr(s))
    ensures codec.loads(s).Success? ==>
      CustomerOrderReply(codec, transport, JStr(s)) == OrderReply(transport, codec.loads(s).value, 3, 15)
  {
  }
}
