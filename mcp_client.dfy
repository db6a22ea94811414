/**
 * The retry loop that `create_order_async` and `get_product_info_async` share: up to
 * `max_retries` attempts to call one MCP tool, the first non-empty reply wins, each failure
 * is remembered as `last_error`, and between attempts the client sleeps 1, 2, 4, ... seconds.
 * The MCP connection is an oracle that says how attempt `k` of a call ends.
 */
module McpClient {
  import opened Wrappers
  import opened PyStr
  import PyDict
  import opened Json

  /** How one attempt ends: a timeout, a ConnectionError, another exception, or a reply text. */
  datatype Attempt =
    | TimedOut
    | ConnectionFailed(message: string)
    | Failed(message: string)
    | Replied(text: string)

  /** The MCP server as seen from the client: tool name, arguments, attempt index to outcome. */
  type Transport = (string, PyDict.Entries<Json>, nat) -> Attempt

  /** An attempt that returns: a reply whose text is non-empty. */
  predicate Succeeds(a: Attempt) {
    a.Replied? && a.text != ""
  }

  /**
   * The text `last_error` takes after a failed attempt; an empty reply raises
   * `ValueError("Empty response from server")`, which the generic handler records.
   */
  function ErrorText(a: Attempt, timeout: int): string {
    match a
    case TimedOut => "Timeout after " + IntToString(timeout) + "s"
    case ConnectionFailed(m) => "Connection error: " + m
    case Failed(m) => m
    case Replied(_) => "Empty response from server"
  }

  /** `f"{last_error}"`: None prints as `None`. */
  function OptText(o: Option<string>): string {
    match o
    case None => "None"
    case Some(s) => s
  }

  /** `range(max_retries)` has this many elements. */
  function AttemptCount(maxRetries: int): nat {
    if maxRetries < 0 then 0 else maxRetries
  }

  function Pow2(k: nat): (r: nat)
    ensures r >= 1
  {
    if k == 0 then 1 else 2 * Pow2(k - 1)
  }

  /** The sleeps after the first `k` attempts: `2 ** 0, ..., 2 ** (k - 1)` seconds. */
  function Backoff(k: nat): (w: seq<nat>)
    ensures |w| == k
  {
    seq(k, i requires 0 <= i < k => Pow2(i))
  }

  function Sum(s: seq<nat>): nat
    decreases |s|
  {
    if s == [] then 0 else Sum(s[..|s| - 1]) + s[|s| - 1]
  }

  /** The first attempt in `[from, n)` that succeeds. */
  function FirstReply(transport: Transport, tool: string, args: PyDict.Entries<Json>, from: nat, n: nat): (r: Option<nat>)
    ensures r.Some? ==> from <= r.value < n && Succeeds(transport(tool, args, r.value))
    ensures r.Some? ==> forall k :: from <= k < r.value ==> !Succeeds(transport(tool, args, k))
    ensures r.None? ==> forall k :: from <= k < n ==> !Succeeds(transport(tool, args, k))
    decreases n - from
  {
    if from >= n then None
    else if Succeeds(transport(tool, args, from)) then Some(from)
    else FirstReply(transport, tool, args, from + 1, n)
  }

  /** The loop's outcome: the winning reply, or `last_error` after the final attempt. */
  function RetryOutcome(transport: Transport, tool: string, args: PyDict.Entries<Json>, maxRetries: int, timeout: int)
    : Result<string, Option<string>>
  {
    var n := AttemptCount(maxRetries);
    match FirstReply(transport, tool, args, 0, n)
    case Some(k) => Success(transport(tool, args, k).text)
    case None => Failure(if n == 0 then None else Some(ErrorText(transport(tool, args, n - 1), timeout)))
  }

  /** The sleeps the loop performs: one after every failed attempt but the last. */
  function RetryWaits(transport: Transport, tool: string, args: PyDict.Entries<Json>, maxRetries: int): seq<nat> {
    var n := AttemptCount(maxRetries);
    match FirstReply(transport, tool, args, 0, n)
    case Some(k) => Backoff(k)
    case None => Backoff(if n == 0 then 0 else n - 1)
  }

  /** The retry loop of both MCP clients; `waits` lists the `asyncio.sleep` durations in order. */
  method RetryCall(transport: Transport, tool: string, args: PyDict.Entries<Json>, maxRetries: int, timeout: int)
    returns (r: Result<string, Option<string>>, waits: seq<nat>)
    ensures r == RetryOutcome(transport, tool, args, maxRetries, timeout)
    ensures waits == RetryWaits(transport, tool, args, maxRetries)
  {
    var n := AttemptCount(maxRetries);
    var lastError: Option<string> := None;
    waits := [];
    var attempt: nat := 0;
    while attempt < maxRetries
      invariant attempt <= n
      invariant FirstReply(transport, tool, args, 0, n) == FirstReply(transport, tool, args, attempt, n)
      invariant lastError == if attempt == 0 then None else Some(ErrorText(transport(tool, args, attempt - 1), timeout))
      invariant waits == Backoff(if attempt == n && attempt > 0 then attempt - 1 else attempt)
    {
      var outcome := transport(tool, args, attempt);
      if Succeeds(outcome) {
        return Success(outcome.text), waits;
      }
      lastError := Some(ErrorText(outcome, timeout));
      if attempt < maxRetries - 1 {
        waits := waits + [Pow2(attempt)];
      }
      attempt := attempt + 1;
    }
    return Failure(lastError), waits;
  }

  /**
   * The loop succeeds exactly when some attempt within the budget replies with text, and then
   * returns the first such reply; otherwise every attempt failed and the error is the last one's.
   */
  lemma RetryOutcomeMeaning(transport: Transport, tool: string, args: PyDict.Entries<Json>, maxRetries: int, timeout: int)
    ensures var n := AttemptCount(maxRetries);
      RetryOutcome(transport, tool, args, maxRetries, timeout).Success? <==>
        exists k :: 0 <= k < n && Succeeds(transport(tool, args, k))
    ensures var n := AttemptCount(maxRetries);
      forall k :: 0 <= k < n && Succeeds(transport(tool, args, k))
             && (forall j :: 0 <= j < k ==> !Succeeds(transport(tool, args, j)))
        ==> RetryOutcome(transport, tool, args, maxRetries, timeout) == Success(transport(tool, args, k).text)
    ensures maxRetries <= 0 ==> RetryOutcome(transport, tool, args, maxRetries, timeout) == Failure(None)
  {
    var n := AttemptCount(maxRetries);
    var f := FirstReply(transport, tool, args, 0, n);
    forall k | 0 <= k < n && Succeeds(transport(tool, args, k))
             && (forall j :: 0 <= j < k ==> !Succeeds(transport(tool, args, j)))
      ensures RetryOutcome(transport, tool, args, maxRetries, timeout) == Success(transport(tool, args, k).text)
    {
      assert f.Some?;
    }
  }

  lemma {:induction false} SumBackoff(k: nat)
    ensures Sum(Backoff(k)) == Pow2(k) - 1
  {
    if k > 0 {
      assert Backoff(k)[..k - 1] == Backoff(k - 1);
      SumBackoff(k - 1);
    }
  }

  /**
   * The sleeps double from one second, the loop never sleeps after its last attempt, and the
   * total time asleep is `2 ** s - 1` seconds for `s` sleeps.
   */
  lemma RetryWaitsBound(transport: Transport, tool: string, args: PyDict.Entries<Json>, maxRetries: int)
    ensures var w := RetryWaits(transport, tool, args, maxRetries);
      && (forall i :: 0 <= i < |w| ==> w[i] == Pow2(i))
      && |w| < AttemptCount(maxRetries) + (if maxRetries <= 0 then 1 else 0)
      && Sum(w) == Pow2(|w|) - 1
  {
    SumBackoff(|RetryWaits(transport, tool, args, maxRetries)|);
  }

  /** With the default three attempts all failing, the client sleeps exactly 1 and then 2 seconds. */
  lemma DefaultBudgetWaits(transport: Transport, tool: string, args: PyDict.Entries<Json>)
    requires forall k :: 0 <= k < 3 ==> !Succeeds(transport(tool, args, k))
    ensures RetryWaits(transport, tool, args, 3) == [1, 2]
  {
    assert FirstReply(transport, tool, args, 0, 3).None?;
    assert Backoff(2) == [Pow2(0), Pow2(1)];
  }
}
