/**
 * `submit_order`, the order service's tool: give the order an id when it has none, create it
 * through the order tool once, and normalise the reply into a dict with a status, the payload
 * that was sent and the raw reply.
 */
module OrderAgent {
  import opened Wrappers
  import opened PyStr
  import PyDict
  import opened Json
  import opened McpClient
  import CreateOrder

  /** `"success" in raw.lower()`. */
  predicate ReportsSuccess(raw: string) {
    Contains(Lower(raw), "success")
  }

  /**
   * `submit_order`. `idHex` is the `uuid4().hex` drawn for a new id. The order's dict is
   * returned as `payload` (the source also adds the id to the caller's own dict).
   */
  method SubmitOrder(codec: Codec, transport: Transport, orderDetails: Json, idHex: string)
    returns (r: Result<Json, string>, payload: PyDict.Entries<Json>, raw: string)
    requires |idHex| >= 8
    ensures Truthy(orderDetails) && !orderDetails.JObj? ==> r == Failure(NoAttribute(orderDetails, "setdefault"))
    ensures !Truthy(orderDetails) || orderDetails.JObj? ==>
      var given := if Truthy(orderDetails) then orderDetails.fields else [];
      && (PyDict.Get(given, "order_id").Some? ==> payload == given)
      && (PyDict.Get(given, "order_id").None? ==> PyDict.Get(payload, "order_id") == Some(JStr("order_" + idHex[..8])))
      && (forall k :: k != "order_id" ==> PyDict.Get(payload, k) == PyDict.Get(given, k))
      && raw == CreateOrder.CustomerOrderReply(codec, transport, JObj(payload))
    ensures r.Success? ==>
      var loaded := match codec.loads(raw) case Success(v) => v case Failure(_) => JObj([("message", JStr(raw))]);
      && loaded.JObj? && r.value.JObj?
      && PyDict.Get(r.value.fields, "order_payload") == Some(JObj(payload))
      && PyDict.Get(r.value.fields, "raw") == Some(JStr(raw))
      && PyDict.Get(r.value.fields, "status")
         == (if PyDict.Get(loaded.fields, "status").Some? then PyDict.Get(loaded.fields, "status")
             else Some(JStr(if ReportsSuccess(raw) then "success" else "error")))
      && (forall k :: k != "status" && k != "order_payload" && k != "raw" ==>
            PyDict.Get(r.value.fields, k) == PyDict.Get(loaded.fields, k))
    ensures (!Truthy(orderDetails) || orderDetails.JObj?) ==>
      (r.Failure? <==> codec.loads(raw).Success? && !codec.loads(raw).value.JObj?)
  {
    if Truthy(orderDetails) && !orderDetails.JObj? {
      return Failure(NoAttribute(orderDetails, "setdefault")), [], "";
    }
    payload := if Truthy(orderDetails) then orderDetails.fields else [];
    PyDict.SetDefaultGet(payload, "order_id", JStr("order_" + idHex[..8]));
    PyDict.SetDefaultOther(payload, "order_id", JStr("order_" + idHex[..8]));
    payload := PyDict.SetDefault(payload, "order_id", JStr("order_" + idHex[..8]));
    var waits;
    raw, waits := CreateOrder.CreateCustomerOrder(codec, transport, JObj(payload));
    var normalized: Json;
    var parsed := codec.loads(raw);
    if parsed.Success? {
      normalized := parsed.value;
    } else {
      normalized := JObj([("message", JStr(raw))]);
    }
    var success := ReportsSuccess(raw);
    if !normalized.JObj? {
      return Failure(NoAttribute(normalized, "setdefault")), payload, raw;
    }
    var loaded := normalized.fields;
    var fs := PyDict.SetDefault(loaded, "status", JStr(if success then "success" else "error"));
    PyDict.SetDefaultGet(loaded, "status", JStr(if success then "success" else "error"));
    PyDict.SetDefaultOther(loaded, "status", JStr(if success then "success" else "error"));
    var fs2 := PyDict.Put(fs, "order_payload", JObj(payload));
    PyDict.PutGet(fs, "order_payload", JObj(payload));
    var fs3 := PyDict.Put(fs2, "raw", JStr(raw));
    PyDict.PutGet(fs2, "raw", JStr(raw));
    PyDict.PutOther(fs2, "raw", JStr(raw), "order_payload");
    PyDict.PutOther(fs2, "raw", JStr(raw), "status");
    PyDict.PutOther(fs, "order_payload", JObj(payload), "status");
    forall k | k != "status" && k != "order_payload" && k != "raw"
      ensures PyDict.Get(fs3, k) == PyDict.Get(loaded, k)
    {
      PyDict.PutOther(fs2, "raw", JStr(raw), k);
      PyDict.PutOther(fs, "order_payload", JObj(payload), k);
    }
    r := Success(JObj(fs3));
  }
}
