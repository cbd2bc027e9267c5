/** The reliability layer of the customer-support agent: two mock backends
    (order status and inventory) that can be told to fail, the retry loop with
    exponential backoff that wraps every tool call, and the table of fallback
    messages shown to the customer when a call finally fails. */
module FallbackLogic {
  import opened PyValues

  // ---------------------------------------------------------------------
  // Results and errors
  // ---------------------------------------------------------------------

  /** The shape of every error the backends and the retry loop produce. */
  function ErrorRecord(code: string, message: string, retryable: bool): (r: Record)
    ensures IsError(r) && WellFormedResult(r)
    ensures IsRetryableError(r) <==> retryable
  {
    map["error" := Str(code), "message" := Str(message), "retryable" := Bool(retryable)]
  }

  predicate IsError(r: Record)
  {
    "error" in r
  }

  /** An error the retry loop would try again: an `"error"` key and a truthy
      `retryable` (a missing `retryable` reads as None, which is falsy). */
  predicate IsRetryableError(r: Record)
  {
    "error" in r && Truthy(Get(r, "retryable"))
  }

  /** A result the retry loop hands back at once (`"error" not in result or
      not result.get("retryable")`): a success, or an error whose `retryable`
      is false or missing. */
  predicate StopsRetrying(r: Record)
  {
    !IsRetryableError(r)
  }

  /** A result without a `retryable` key reads it as None, which is falsy, so
      the retry loop hands it back at once, error or not. */
  lemma MissingRetryableStops(r: Record)
    requires "retryable" !in r
    ensures StopsRetrying(r)
  {
  }

  /** A result as the backends build it: either no `"error"` key, or an error
      code with a message and a boolean `retryable`. */
  predicate WellFormedResult(r: Record)
  {
    "error" in r ==>
      r["error"].Str? && "message" in r && r["message"].Str? &&
      "retryable" in r && r["retryable"].Bool?
  }

  // ---------------------------------------------------------------------
  // Mock backends
  // ---------------------------------------------------------------------

  const Orders: map<string, Record> := map[
    "ORD-12345" := map["order_id" := Str("ORD-12345"), "status" := Str("delivered"),
                       "items" := List([Str("Blue Widget")])],
    "ORD-67890" := map["order_id" := Str("ORD-67890"), "status" := Str("in_transit"),
                       "items" := List([Str("Green Tool")])]
  ]

  const Inventory: map<string, Record> := map[
    "blue-widget" := map["product_id" := Str("blue-widget"), "name" := Str("Blue Widget"),
                         "in_stock" := Bool(true), "quantity" := Int(45)],
    "green-tool" := map["product_id" := Str("green-tool"), "name" := Str("Green Tool"),
                        "in_stock" := Bool(false), "quantity" := Int(0)]
  ]

  /** The order-status backend. A simulated `timeout` or `service_unavailable`
      is reported before the table is consulted; otherwise the two known orders
      are found and every other ID is a non-retryable `not_found`. */
  function GetOrderStatus(orderId: string, simulateError: Option<string>): (r: Record)
    ensures WellFormedResult(r)
    ensures IsRetryableError(r) <==>
              simulateError == Some("timeout") || simulateError == Some("service_unavailable")
    ensures simulateError.Some? && simulateError.value in {"timeout", "service_unavailable"} ==>
              r["error"] == Str(simulateError.value)
    ensures !IsRetryableError(r) ==> (IsError(r) <==> orderId !in Orders)
    ensures simulateError == Some("timeout") ==>
              r == ErrorRecord("timeout", "Request timed out", true)
    ensures simulateError == Some("service_unavailable") ==>
              r == ErrorRecord("service_unavailable", "Service temporarily unavailable", true)
    ensures !IsError(r) ==> orderId in Orders && r == Orders[orderId]
    ensures !IsError(r) ==> Get(r, "order_id") == Str(orderId)
    ensures IsError(r) && !IsRetryableError(r) ==>
              r == ErrorRecord("not_found", "Order " + orderId + " not found", false)
  {
    if simulateError == Some("timeout") then
      ErrorRecord("timeout", "Request timed out", true)
    else if simulateError == Some("service_unavailable") then
      ErrorRecord("service_unavailable", "Service temporarily unavailable", true)
    else if orderId in Orders then
      Orders[orderId]
    else
      ErrorRecord("not_found", "Order " + orderId + " not found", false)
  }

  /** The inventory backend. Only a simulated `rate_limit` is injected (as a
      retryable error); any other simulated error is ignored. The two known
      products are found; every other ID is a non-retryable `not_found`. */
  function CheckInventory(productId: string, simulateError: Option<string>): (r: Record)
    ensures WellFormedResult(r)
    ensures IsRetryableError(r) <==> simulateError == Some("rate_limit")
    ensures simulateError == Some("rate_limit") ==>
              r == ErrorRecord("rate_limit", "Too many requests", true)
    ensures !IsRetryableError(r) ==> (IsError(r) <==> productId !in Inventory)
    ensures !IsError(r) ==> productId in Inventory && r == Inventory[productId]
    ensures !IsError(r) ==> Get(r, "product_id") == Str(productId)
    ensures IsError(r) && !IsRetryableError(r) ==>
              r == ErrorRecord("not_found", "Product " + productId + " not found", false)
  {
    if simulateError == Some("rate_limit") then
      ErrorRecord("rate_limit", "Too many requests", true)
    else if productId in Inventory then
      Inventory[productId]
    else
      ErrorRecord("not_found", "Product " + productId + " not found", false)
  }

  /** An order ID outside the table is reported as a non-retryable
      `not_found` naming the ID. */
  lemma OrderNotFound(orderId: string)
    requires orderId !in Orders
    ensures GetOrderStatus(orderId, None) ==
              ErrorRecord("not_found", "Order " + orderId + " not found", false)
  {
  }

  // ---------------------------------------------------------------------
  // Retry with exponential backoff
  // ---------------------------------------------------------------------

  const DefaultMaxRetries: int := 3

  function Max0(n: int): nat
  {
    if n < 0 then 0 else n
  }

  /** `2 ** i`, the wait in seconds after the i-th (0-based) failed attempt. */
  function Pow2(i: nat): (p: nat)
    ensures p >= 1
  {
    if i == 0 then 1 else 2 * Pow2(i - 1)
  }

  /** The `k` waits of the backoff schedule that follow the failed attempts
      `start`, `start + 1`, ... */
  function BackoffFrom(start: nat, k: nat): (s: seq<nat>)
    ensures |s| == k
    ensures forall i :: 0 <= i < k ==> s[i] == Pow2(start + i)
  {
    seq<nat>(k, i requires 0 <= i < k => Pow2(start + i))
  }

  /** The schedule from `start` is the wait for `start` followed by the
      schedule from `start + 1`. */
  lemma BackoffFromCons(start: nat, k: nat)
    requires k >= 1
    ensures BackoffFrom(start, k) == [Pow2(start)] + BackoffFrom(start + 1, k - 1)
  {
    var s, t := BackoffFrom(start, k), [Pow2(start)] + BackoffFrom(start + 1, k - 1);
    assert |s| == |t|;
    forall i | 0 <= i < k ensures s[i] == t[i] {
      if i > 0 {
        assert t[i] == BackoffFrom(start + 1, k - 1)[i - 1];
      }
    }
  }

  /** The first `k` waits of the backoff schedule: 1, 2, 4, ... */
  function Backoff(k: nat): (s: seq<nat>)
    ensures |s| == k
  {
    BackoffFrom(0, k)
  }

  /** The error synthesised when every attempt failed retryably. */
  function MaxRetriesError(maxRetries: int): (r: Record)
    ensures !IsRetryableError(r)
    ensures Get(r, "error") == Str("max_retries")
  {
    ErrorRecord("max_retries", "Failed after " + IntToDecimal(maxRetries) + " attempts", false)
  }

  /** What one call of the retry loop observably does: the result it returns,
      how many times it called the operation, and the waits it slept. */
  datatype RetryRun = RetryRun(result: Record, calls: nat, delays: seq<nat>)

  /** The retry loop from attempt index `attempt` on; `call(i)` is what the
      operation returns when it is called for the i-th time. */
  function RetryFrom(call: nat -> Record, maxRetries: int, attempt: nat): RetryRun
    decreases maxRetries - attempt
  {
    if attempt >= maxRetries then
      RetryRun(MaxRetriesError(maxRetries), 0, [])
    else if StopsRetrying(call(attempt)) then
      RetryRun(call(attempt), 1, [])
    else
      var waits := if attempt < maxRetries - 1 then [Pow2(attempt)] else [];
      var rest := RetryFrom(call, maxRetries, attempt + 1);
      RetryRun(rest.result, rest.calls + 1, waits + rest.delays)
  }

  /** The specification of `execute_with_retry`. */
  function Retry(call: nat -> Record, maxRetries: int): RetryRun
  {
    RetryFrom(call, maxRetries, 0)
  }

  /** `execute_with_retry(func, args, max_retries)`. The operation is the
      oracle `call`; `time.sleep` appends its argument to `delays`. */
  method ExecuteWithRetry(call: nat -> Record, maxRetries: int)
    returns (result: Record, ghost calls: nat, ghost delays: seq<nat>)
    ensures RetryRun(result, calls, delays) == Retry(call, maxRetries)
    ensures !IsRetryableError(result)
    ensures calls <= Max0(maxRetries)
  {
    RetryNeverReturnsRetryable(call, maxRetries);
    RetryCallsWithinBudget(call, maxRetries);
    calls, delays := 0, [];
    var attempt: nat := 0;
    while attempt < maxRetries
      invariant calls == attempt
      invariant var rest := RetryFrom(call, maxRetries, attempt);
                Retry(call, maxRetries) == RetryRun(rest.result, calls + rest.calls, delays + rest.delays)
      decreases maxRetries - attempt
    {
      var r := call(attempt);
      calls := calls + 1;
      if StopsRetrying(r) {
        result := r;
        return;
      }
      ghost var next := RetryFrom(call, maxRetries, attempt + 1);
      if attempt < maxRetries - 1 {
        var waitTime := Pow2(attempt);
        assert (delays + [waitTime]) + next.delays == delays + ([waitTime] + next.delays);
        delays := delays + [waitTime];
      }
      attempt := attempt + 1;
    }
    result := MaxRetriesError(maxRetries);
  }

  lemma {:induction false} RetryFromBudget(call: nat -> Record, maxRetries: int, attempt: nat)
    ensures var run := RetryFrom(call, maxRetries, attempt);
      && run.calls <= Max0(maxRetries - attempt)
      && (run.calls == 0 <==> attempt >= maxRetries)
      && !IsRetryableError(run.result)
    decreases maxRetries - attempt
  {
    if attempt < maxRetries && !StopsRetrying(call(attempt)) {
      RetryFromBudget(call, maxRetries, attempt + 1);
    }
  }

  lemma {:induction false} RetryFromDelays(call: nat -> Record, maxRetries: int, attempt: nat)
    ensures var run := RetryFrom(call, maxRetries, attempt);
      run.delays == BackoffFrom(attempt, Max0(run.calls - 1))
    decreases maxRetries - attempt
  {
    if attempt < maxRetries && !StopsRetrying(call(attempt)) {
      RetryFromDelays(call, maxRetries, attempt + 1);
      RetryFromBudget(call, maxRetries, attempt + 1);
      var rest := RetryFrom(call, maxRetries, attempt + 1);
      if attempt < maxRetries - 1 {
        assert rest.calls >= 1;
        BackoffFromCons(attempt, rest.calls);
      } else {
        assert rest.calls == 0;
      }
    }
  }

  lemma {:induction false} RetryFromResult(call: nat -> Record, maxRetries: int, attempt: nat)
    ensures var run := RetryFrom(call, maxRetries, attempt);
      && (forall i :: attempt <= i < attempt + run.calls - 1 ==> IsRetryableError(call(i)))
      && ((run.calls >= 1 && StopsRetrying(call(attempt + run.calls - 1)) &&
           run.result == call(attempt + run.calls - 1))
          || (run.result == MaxRetriesError(maxRetries) && run.calls == Max0(maxRetries - attempt) &&
              (run.calls >= 1 ==> IsRetryableError(call(attempt + run.calls - 1)))))
    decreases maxRetries - attempt
  {
    if attempt < maxRetries && !StopsRetrying(call(attempt)) {
      RetryFromResult(call, maxRetries, attempt + 1);
    }
  }

  /** The operation is called at most `max_retries` times; with a budget of
      zero or less it is never called and the `max_retries` error comes back. */
  lemma RetryCallsWithinBudget(call: nat -> Record, maxRetries: int)
    ensures Retry(call, maxRetries).calls <= Max0(maxRetries)
    ensures maxRetries >= 1 ==> Retry(call, maxRetries).calls >= 1
    ensures maxRetries <= 0 ==>
              Retry(call, maxRetries) == RetryRun(MaxRetriesError(maxRetries), 0, [])
  {
    RetryFromBudget(call, maxRetries, 0);
  }

  /** The caller never receives an error whose `retryable` is truthy. */
  lemma RetryNeverReturnsRetryable(call: nat -> Record, maxRetries: int)
    ensures !IsRetryableError(Retry(call, maxRetries).result)
  {
    RetryFromBudget(call, maxRetries, 0);
  }

  /** Waits happen only between attempts, never after the last one, and the
      i-th wait lasts `2 ** i` seconds. */
  lemma RetryBackoffSchedule(call: nat -> Record, maxRetries: int)
    ensures var run := Retry(call, maxRetries);
      run.delays == Backoff(Max0(run.calls - 1))
  {
    RetryFromDelays(call, maxRetries, 0);
  }

  /** The result is either the first result that stops the loop, returned
      unchanged, after only retryable errors before it; or the synthesised
      `max_retries` error after the whole budget was spent. */
  lemma RetryOutcome(call: nat -> Record, maxRetries: int)
    ensures var run := Retry(call, maxRetries);
      && (forall i :: 0 <= i < run.calls - 1 ==> IsRetryableError(call(i)))
      && ((run.calls >= 1 && StopsRetrying(call(run.calls - 1)) && run.result == call(run.calls - 1))
          || (run.result == MaxRetriesError(maxRetries) && run.calls == Max0(maxRetries) &&
              (run.calls >= 1 ==> IsRetryableError(call(run.calls - 1)))))
  {
    RetryFromResult(call, maxRetries, 0);
  }

  lemma {:induction false} RetryFromSettles(call: nat -> Record, maxRetries: int, attempt: nat, j: nat)
    requires attempt <= j < maxRetries
    requires forall i :: attempt <= i < j ==> IsRetryableError(call(i))
    requires StopsRetrying(call(j))
    ensures RetryFrom(call, maxRetries, attempt) ==
              RetryRun(call(j), j - attempt + 1, BackoffFrom(attempt, j - attempt))
    decreases j - attempt
  {
    if attempt < j {
      RetryFromSettles(call, maxRetries, attempt + 1, j);
    }
  }

  /** A success or non-retryable error on attempt `j`, after `j` retryable
      errors, is returned unchanged after `j + 1` calls and `j` waits. */
  lemma RetryReturnsFirstSettled(call: nat -> Record, maxRetries: int, j: nat)
    requires j < maxRetries
    requires forall i :: 0 <= i < j ==> IsRetryableError(call(i))
    requires StopsRetrying(call(j))
    ensures Retry(call, maxRetries) == RetryRun(call(j), j + 1, Backoff(j))
  {
    RetryFromSettles(call, maxRetries, 0, j);
  }

  lemma {:induction false} RetryFromExhausts(call: nat -> Record, maxRetries: int, attempt: nat)
    requires forall i :: attempt <= i < maxRetries ==> IsRetryableError(call(i))
    ensures RetryFrom(call, maxRetries, attempt) ==
              RetryRun(MaxRetriesError(maxRetries), Max0(maxRetries - attempt),
                       BackoffFrom(attempt, Max0(maxRetries - attempt - 1)))
    decreases maxRetries - attempt
  {
    if attempt < maxRetries {
      RetryFromExhausts(call, maxRetries, attempt + 1);
      if attempt < maxRetries - 1 {
        BackoffFromCons(attempt, maxRetries - attempt - 1);
      } else {
        assert Max0(maxRetries - attempt - 1) == 0;
      }
    }
  }

  /** When every attempt fails retryably there are exactly `max_retries` calls
      and `max_retries - 1` waits, and the `max_retries` error comes back. */
  lemma RetryExhaustsBudget(call: nat -> Record, maxRetries: int)
    requires forall i :: 0 <= i < maxRetries ==> IsRetryableError(call(i))
    ensures Retry(call, maxRetries) ==
              RetryRun(MaxRetriesError(maxRetries), Max0(maxRetries), Backoff(Max0(maxRetries - 1)))
  {
    RetryFromExhausts(call, maxRetries, 0);
  }

  /** The schedule starts 1, 2, 4 and doubles from wait to wait. */
  lemma BackoffDoubles(k: nat)
    ensures forall i :: 0 <= i < k - 1 ==> Backoff(k)[i + 1] == 2 * Backoff(k)[i]
    ensures Backoff(2) == [1, 2]
    ensures Backoff(3) == [1, 2, 4]
  {
    assert Pow2(2) == 4;
  }

  /** With the default budget of three, the synthesised error says
      "Failed after 3 attempts". */
  lemma DefaultBudgetMessage()
    ensures MaxRetriesError(DefaultMaxRetries) ==
              ErrorRecord("max_retries", "Failed after 3 attempts", false)
  {
    assert DigitChar(3) == '3';
    assert NatToDecimal(3) == "3";
    assert IntToDecimal(3) == "3";
    assert "Failed after " + "3" + " attempts" == "Failed after 3 attempts";
  }

  // ---------------------------------------------------------------------
  // Fallback messages
  // ---------------------------------------------------------------------

  const SupportAddress: string := "support@globomantics.com"
  const NotFoundFallback: string := "I couldn't find that. Please double-check the ID and try again."
  const TimeoutFallback: string := "Our system is running slow. Would you like me to try again?"
  const RateLimitFallback: string := "We're experiencing high traffic. Please wait a moment."
  const UnavailableFallback: string := "Our system is temporarily unavailable. Try again in a few minutes."
  const MaxRetriesLead: string := "I'm having trouble accessing our systems. Let me connect you with "
  const MaxRetriesFallback: string := MaxRetriesLead + SupportAddress
  const GenericLead: string := "I encountered an issue. Please contact "
  const GenericFallback: string := GenericLead + SupportAddress

  /** The five codes `get_fallback_response` has a message of its own for. */
  const KnownCodes: set<string> := {"not_found", "timeout", "rate_limit", "service_unavailable", "max_retries"}

  /** `get_fallback_response`: a lookup in the table of five messages, with
      the generic message for every other string. */
  function FallbackResponse(error: string): (msg: string)
    ensures error !in KnownCodes ==> msg == GenericFallback
  {
    if error == "not_found" then NotFoundFallback
    else if error == "timeout" then TimeoutFallback
    else if error == "rate_limit" then RateLimitFallback
    else if error == "service_unavailable" then UnavailableFallback
    else if error == "max_retries" then MaxRetriesFallback
    else GenericFallback
  }

  predicate EndsWith(s: string, suffix: string)
  {
    |suffix| <= |s| && s[|s| - |suffix|..] == suffix
  }

  lemma EndsWithConcat(prefix: string, suffix: string)
    ensures EndsWith(prefix + suffix, suffix)
  {
    assert (prefix + suffix)[|prefix|..] == suffix;
  }

  lemma LastCharRulesOutSupport(s: string)
    requires s != [] && s[|s| - 1] != 'm'
    ensures !EndsWith(s, SupportAddress)
  {
    assert SupportAddress[|SupportAddress| - 1] == 'm';
  }

  lemma OtherMessagesLackAddress()
    ensures !EndsWith(NotFoundFallback, SupportAddress)
    ensures !EndsWith(TimeoutFallback, SupportAddress)
    ensures !EndsWith(RateLimitFallback, SupportAddress)
    ensures !EndsWith(UnavailableFallback, SupportAddress)
  {
    LastCharRulesOutSupport(NotFoundFallback);
    LastCharRulesOutSupport(TimeoutFallback);
    LastCharRulesOutSupport(RateLimitFallback);
    LastCharRulesOutSupport(UnavailableFallback);
  }

  /** The customer is sent to the support address exactly when the retries
      were exhausted or the code is not one of the four known failures. */
  lemma FallbackSupportContact(error: string)
    ensures EndsWith(FallbackResponse(error), SupportAddress) <==>
              error !in {"not_found", "timeout", "rate_limit", "service_unavailable"}
  {
    OtherMessagesLackAddress();
    EndsWithConcat(MaxRetriesLead, SupportAddress);
    EndsWithConcat(GenericLead, SupportAddress);
  }

  /** Each of the five known codes has its own message, distinct from the
      others and from the generic one. */
  lemma FallbackMessagesDistinct(a: string, b: string)
    requires a in KnownCodes && b in KnownCodes && a != b
    ensures FallbackResponse(a) != FallbackResponse(b)
    ensures FallbackResponse(a) != GenericFallback
  {
    FallbackSupportContact(a);
    FallbackSupportContact(b);
  }

  // ---------------------------------------------------------------------
  // The demo's scenarios, as the retry loop runs them with the default budget
  // ---------------------------------------------------------------------

  /** An operation that gives the same result on every call, as the mock
      backends do for fixed arguments. */
  function Always(r: Record): nat -> Record
  {
    _ => r
  }

  /** An operation that stops the loop at once is called once and its result
      comes back unchanged. */
  lemma AlwaysSettled(r: Record, maxRetries: int)
    requires maxRetries >= 1 && StopsRetrying(r)
    ensures Retry(Always(r), maxRetries) == RetryRun(r, 1, [])
  {
    RetryReturnsFirstSettled(Always(r), maxRetries, 0);
  }

  /** An operation that always fails retryably spends the default budget:
      three calls, waits of 1s and 2s, then the `max_retries` error. */
  lemma AlwaysRetryable(r: Record)
    requires IsRetryableError(r)
    ensures Retry(Always(r), DefaultMaxRetries) == RetryRun(MaxRetriesError(3), 3, [1, 2])
  {
    RetryExhaustsBudget(Always(r), DefaultMaxRetries);
    BackoffDoubles(2);
  }

  /** A known order succeeds on the first call, without waiting. */
  lemma KnownOrderScenario()
    ensures Retry(Always(GetOrderStatus("ORD-12345", None)), DefaultMaxRetries) ==
              RetryRun(Orders["ORD-12345"], 1, [])
  {
    AlwaysSettled(GetOrderStatus("ORD-12345", None), DefaultMaxRetries);
  }

  /** A simulated timeout is retried three times, waiting 1s then 2s, and ends
      in the `max_retries` error and the support-address fallback. */
  lemma TimeoutScenario()
    ensures Retry(Always(GetOrderStatus("ORD-67890", Some("timeout"))), DefaultMaxRetries) ==
              RetryRun(ErrorRecord("max_retries", "Failed after 3 attempts", false), 3, [1, 2])
    ensures var r := Retry(Always(GetOrderStatus("ORD-67890", Some("timeout"))), DefaultMaxRetries).result;
              "error" in r && r["error"].Str? && FallbackResponse(r["error"].s) == MaxRetriesFallback
  {
    AlwaysRetryable(GetOrderStatus("ORD-67890", Some("timeout")));
    DefaultBudgetMessage();
  }

  /** A simulated rate limit on the inventory backend runs the same way. */
  lemma RateLimitScenario()
    ensures Retry(Always(CheckInventory("blue-widget", Some("rate_limit"))), DefaultMaxRetries) ==
              RetryRun(MaxRetriesError(3), 3, [1, 2])
  {
    AlwaysRetryable(CheckInventory("blue-widget", Some("rate_limit")));
  }

  lemma UnknownOrderResult()
    ensures GetOrderStatus("ORD-99999", None) ==
              ErrorRecord("not_found", "Order ORD-99999 not found", false)
  {
    var id := "ORD-99999";
    assert id !in Orders;
    assert "Order " + id + " not found" == "Order ORD-99999 not found";
    OrderNotFound(id);
  }

  /** An unknown order is a non-retryable error: one call, no wait. */
  lemma UnknownOrderScenario()
    ensures Retry(Always(GetOrderStatus("ORD-99999", None)), DefaultMaxRetries) ==
              RetryRun(ErrorRecord("not_found", "Order ORD-99999 not found", false), 1, [])
    ensures var r := Retry(Always(GetOrderStatus("ORD-99999", None)), DefaultMaxRetries).result;
              "error" in r && r["error"].Str? && FallbackResponse(r["error"].s) == NotFoundFallback
  {
    UnknownOrderResult();
    AlwaysSettled(GetOrderStatus("ORD-99999", None), DefaultMaxRetries);
  }
}
