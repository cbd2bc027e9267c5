# Reliability plumbing of a tool-calling support agent, in Dafny

This project models the parts of the agent-reliability demo scripts that run without the language model. The model's calls are not modelled. The parts covered are:

- **The fallback module** (`m2-reliable-agents/02_fallback_logic.py`), in `fallback_logic.dfy`:
  - the order-status and inventory mock backends, each with its error-injection parameter;
  - `execute_with_retry`, a bounded retry loop with `2 ** attempt` second waits that returns a synthesised `max_retries` error when the budget is spent;
  - `get_fallback_response`, which maps an error code to a customer-facing message.
- **The stress-test runner** (`m2-reliable-agents/03_stress_testing.py`), in `stress_testing.dfy`. This covers the pass/fail decision of `run_test` once the model has replied, the `PASS`/`FAIL` status word, and the tally that `main` prints.
- **The cascading-errors demo's backends** (`m1-agent-failures/02_cascading_errors.py`), in `cascading_errors.dfy`. These are `get_order` and `process_refund`. The refund path never checks that the order exists.
- **Shared Python semantics**, in `values.dfy`:
  - JSON-like values and dictionaries (`map<string, Value>`);
  - `dict.get`;
  - truthiness;
  - Python `==` between values, where `True == 1 == 1.0`;
  - `str()` of an integer.

How the model represents the parts it cannot run:
- `execute_with_retry` is a method with a `while` loop. The operation it calls is an oracle `call: nat -> Record`, giving the result of the i-th call. `time.sleep` appends its argument to a ghost list `delays`. A ghost counter `calls` counts the operation's calls. The method is proved equal to the specification function `Retry`, and the lemmas about `Retry` state the promised properties.
- In `run_test` the chat request is left out. The model's reply is an input: a list of tool calls, each a name plus an argument map that is already decoded, and a text. The loop that clears `args_match` and breaks at the first mismatch is kept as a loop in `RunTest`. `RunTest` is proved equal to the function `Verdict`.

The code has no invalid-configuration error: a `max_retries` of zero or less makes no call and returns the `max_retries` error.

`print_result`'s status word (`03_stress_testing.py:125`) is the function `StressTesting.Status`, which is `"PASS"` for a passing result and `"FAIL"` otherwise; it is a definition and carries no separate contract.

## Model

| member | source | states |
|---|---|---|
| `FallbackLogic.GetOrderStatus` | m2-reliable-agents/02_fallback_logic.py:18-32 | A retryable error occurs exactly for a simulated `timeout` or `service_unavailable`, even for a known order. A simulated `timeout` gives exactly the retryable `timeout` record "Request timed out", and `service_unavailable` the retryable record "Service temporarily unavailable". Otherwise the result is an error iff the ID is not one of the two known orders. A found result is the stored record of that order (ID, status, items). An unknown ID yields the non-retryable `not_found` record with "Order <id> not found". Every result is well formed. |
| `FallbackLogic.CheckInventory` | m2-reliable-agents/02_fallback_logic.py:35-44 | Only a simulated `rate_limit` is injected: exactly the retryable `rate_limit` record "Too many requests". Other simulated values are ignored. Otherwise the result is an error iff the product is unknown. A found result is the stored record of that product (ID, name, `in_stock`, quantity). An unknown ID yields a non-retryable `not_found` naming the product. |
| `FallbackLogic.OrderNotFound` | m2-reliable-agents/02_fallback_logic.py:32 | Any ID outside the order table gives `{"error": "not_found", "message": "Order <id> not found", "retryable": False}`. |
| `FallbackLogic.MaxRetriesError` | m2-reliable-agents/02_fallback_logic.py:102 | The synthesised error has code `max_retries` and is not retryable. |
| `FallbackLogic.ExecuteWithRetry` | m2-reliable-agents/02_fallback_logic.py:85-102 | The returned result, the number of calls and the list of waits are exactly those of the specification `Retry`. The result is never an error with a truthy `retryable`. There are at most `max(max_retries, 0)` calls. |
| `FallbackLogic.RetryCallsWithinBudget` | m2-reliable-agents/02_fallback_logic.py:88-102 | The operation is called at most `max_retries` times, and at least once when the budget is positive. With `max_retries <= 0` it is never called and the result is the `max_retries` error, with no wait. |
| `FallbackLogic.RetryNeverReturnsRetryable` | m2-reliable-agents/02_fallback_logic.py:92-102 | The caller never receives a result that has an `"error"` together with a truthy `retryable`. |
| `FallbackLogic.RetryBackoffSchedule` | m2-reliable-agents/02_fallback_logic.py:96-100 | There is one wait fewer than there are calls, so no wait follows the last attempt. The i-th wait lasts `2 ** i` seconds. |
| `FallbackLogic.RetryOutcome` | m2-reliable-agents/02_fallback_logic.py:88-102 | Every call before the last one returned a retryable error. The result is one of two things. It can be the last call's result, unchanged, when that result stops the loop. Otherwise it is the `max_retries` error after exactly `max(max_retries, 0)` calls, the last of which was retryable too. |
| `FallbackLogic.RetryReturnsFirstSettled` | m2-reliable-agents/02_fallback_logic.py:91-93 | Take a success, or an error with false or missing `retryable`, on attempt j after j retryable errors. It is returned unchanged after j + 1 calls and the waits 1, 2, …, 2^(j-1). Nothing follows it. |
| `FallbackLogic.RetryExhaustsBudget` | m2-reliable-agents/02_fallback_logic.py:88-102 | If every attempt fails retryably, the run makes exactly `max_retries` calls and `max_retries - 1` waits (1, 2, 4, …), then returns the `max_retries` error. |
| `FallbackLogic.BackoffDoubles` | m2-reliable-agents/02_fallback_logic.py:97 | The backoff schedule is 1, 2, 4, … and each wait doubles the one before. |
| `FallbackLogic.DefaultBudgetMessage` | m2-reliable-agents/02_fallback_logic.py:85-102 | With the default budget of 3 the synthesised message is "Failed after 3 attempts". |
| `FallbackLogic.AlwaysSettled` | m2-reliable-agents/02_fallback_logic.py:91-93 | An operation whose every result stops the loop is called once, and its result comes back with no wait. |
| `FallbackLogic.AlwaysRetryable` | m2-reliable-agents/02_fallback_logic.py:88-102 | An operation that always fails retryably gets three calls and waits of 1s and 2s under the default budget, then the `max_retries` error. |
| `FallbackLogic.KnownOrderScenario` | m2-reliable-agents/02_fallback_logic.py:219-229 | Looking up `ORD-12345` succeeds on the first call with no wait and returns the stored record. |
| `FallbackLogic.TimeoutScenario` | m2-reliable-agents/02_fallback_logic.py:239-250 | A simulated timeout on `ORD-67890` gives three calls, waits of 1s then 2s, and the `max_retries` error "Failed after 3 attempts". The fallback for the returned error code is the support-address message. |
| `FallbackLogic.RateLimitScenario` | m2-reliable-agents/02_fallback_logic.py:258-269 | A simulated rate limit on `blue-widget` runs the same way: three calls, waits of 1s and 2s, and the `max_retries` error. |
| `FallbackLogic.UnknownOrderScenario` | m2-reliable-agents/02_fallback_logic.py:277-283 | `ORD-99999` gives the non-retryable `not_found` error after one call with no wait. The fallback for the returned error code asks the customer to check the ID. |
| `FallbackLogic.FallbackResponse` | m2-reliable-agents/02_fallback_logic.py:105-114 | The lookup is total. Every string outside the five known codes gets the generic message. |
| `FallbackLogic.FallbackSupportContact` | m2-reliable-agents/02_fallback_logic.py:107-114 | The message ends with `support@globomantics.com` exactly when the code is not `not_found`, `timeout`, `rate_limit` or `service_unavailable`. That covers `max_retries` and every unknown code. |
| `FallbackLogic.FallbackMessagesDistinct` | m2-reliable-agents/02_fallback_logic.py:107-113 | The five known codes map to five different texts, none of them the generic one. |
| `StressTesting.RunTest` | m2-reliable-agents/03_stress_testing.py:94-120 | The argument loop with its early `break` computes exactly the verdict `Verdict`. For a tool call the result is the called tool, its arguments and `tool_match and args_match`. For a text answer it is the 60-character preview and `expected_tool is None`. |
| `StressTesting.Preview` | m2-reliable-agents/03_stress_testing.py:118 | The preview is the first min(length, 60) characters of the answer followed by `"..."`. |
| `StressTesting.ToolCallVerdict` | m2-reliable-agents/03_stress_testing.py:100-113 | Take a non-empty expected name. A tool-call reply passes iff its first call has that name and its arguments pass the argument check. |
| `StressTesting.TextVerdict` | m2-reliable-agents/03_stress_testing.py:115-120 | A reply without a tool call passes iff `expected_tool` is None. |
| `StressTesting.NoExpectationAlwaysPasses` | m2-reliable-agents/03_stress_testing.py:100-119 | With no expected tool and no expected arguments every reply passes. This includes a reply that calls a tool in a test meant to expect no tool. |
| `StressTesting.EmptyExpectedToolDiverges` | m2-reliable-agents/03_stress_testing.py:100-119 | An expected name of `""` passes the tool check but fails the text check. Such a test passes iff a tool is called. |
| `StressTesting.OnlyFirstCallJudged` | m2-reliable-agents/03_stress_testing.py:94-96 | Two replies with the same first tool call get the same verdict, whatever calls follow it. |
| `StressTesting.ExtraArgumentsIgnored` | m2-reliable-agents/03_stress_testing.py:103-108 | Actual arguments that contain every expected entry pass the argument check, whatever extra keys they carry. |
| `StressTesting.MissingArgumentReadsAsNone` | m2-reliable-agents/03_stress_testing.py:106 | An expected key missing from the actual arguments passes only if the expected value is None. |
| `StressTesting.RefundTestPasses` | m2-reliable-agents/03_stress_testing.py:250-253 | The refund test passes although the reply adds a `reason` argument. |
| `StressTesting.CountPassed` | m2-reliable-agents/03_stress_testing.py:209 | The passed count is between 0 and the number of results. It equals the total iff every result passed, and is 0 iff none passed. |
| `StressTesting.CountPassedAppend` | m2-reliable-agents/03_stress_testing.py:161-163 | Appending a result raises the passed count by one exactly when that result passed. |
| `StressTesting.RunAllTests` | m2-reliable-agents/03_stress_testing.py:142-214 | One result is appended per test, in order, each equal to that test's verdict. The total is the number of tests and passed is the number of passing results, at most the total. Failed is total − passed. |
| `CascadingErrors.GetOrder` | m1-agent-failures/02_cascading_errors.py:17-25 | A None or empty ID gives "Order ID is required". The result has no error iff the ID is `ORD-001`, and then it is the stored record of `ORD-001` (ID, status, total, item). Any other ID gives "Order <id> not found". |
| `CascadingErrors.ProcessRefund` | m1-agent-failures/02_cascading_errors.py:28-32 | The result is an error iff the ID is None or empty, and then it is "Order ID is required". Otherwise the result is `success` True, `refund_id` `"REF-123"`, and the given amount echoed back. |
| `CascadingErrors.RefundIgnoresFailedLookup` | m1-agent-failures/02_cascading_errors.py:17-32 | Every non-empty ID other than `ORD-001` fails the lookup, yet the refund for it succeeds and echoes the amount. |
| `CascadingErrors.GuardsAgree` | m1-agent-failures/02_cascading_errors.py:19-31 | The refund fails only when the lookup fails the same way, with the missing-ID error. That error is the only lookup failure the refund shares. |
| `CascadingErrors.Order999Scenario` | m1-agent-failures/02_cascading_errors.py:222-227 | `get_order("999")` reports "Order 999 not found", while refunding 50 on order 999 succeeds with `REF-123`. |
| `FallbackLogic.MissingRetryableStops` | m2-reliable-agents/02_fallback_logic.py:92 | A result with no `retryable` key reads it as None through `dict.get`, which is falsy, so the retry loop returns that result at once. |
| `PyValues.EqualReflexive` | m2-reliable-agents/03_stress_testing.py:106 | Every value equals itself under Python `==`. |
| `PyValues.EqualString` | m2-reliable-agents/03_stress_testing.py:106 | An expected string is matched only by the identical string. |
| `StressTesting.StringArgumentMatchesExactly` | m2-reliable-agents/03_stress_testing.py:103-108 | When the argument check passes, every expected string argument is present under its key with exactly that string; a missing key or a value of another kind fails the check. |
| `PyValues.NatToDecimalRoundTrip` | m2-reliable-agents/02_fallback_logic.py:102 | Reading back the digits that `str(n)` writes gives `n`. |
| `PyValues.IntToDecimalInjective` | m2-reliable-agents/02_fallback_logic.py:102 | Different budgets give different "Failed after N attempts" counts, because `str` of an int is injective. |

The backends are pure functions, so calling one twice with the same arguments gives the same result by construction. No lemma is needed for that.

## Left out

- The chat-completion calls and every flow built on them are left out: `run_agent_with_fallback`, `run_agent`, the three failure scenarios and the `while msg.tool_calls` loop of the cascading demo. They are network calls driven by non-deterministic model output. The model's reply enters `RunTest` as an input instead.
- The handling of the retry result in `run_agent_with_fallback` (error → fallback message) is left out with that function. The scenario lemmas state both halves separately.
- `json.loads` / `json.dumps` of tool arguments are left out. Arguments are already-decoded maps. A reply whose arguments decode to something other than an object is not modelled.
- `print`, the transcript formatting and the `input()` pauses are left out: they are presentation only.
- The real `time.sleep` delay is left out. Each wait is recorded in the ghost list `delays`.
- The pass-rate percentage in the summary is left out. It is a float division, and it divides by zero when there are no tests.
- Floats such as `total: 99.99` are exact `real`s, with no rounding and no NaN. The refund `amount` is any value and is carried through unchanged.
- `func(**args)` is not modelled as a call with keyword arguments. The operation is the oracle `call`, which gives the result of each successive call. A `TypeError` from wrong keyword arguments, and an exception raised by the operation, are not modelled. The mock backends raise none.
- In the text branch of `run_test`, `msg.content` is taken to be a string. A `None` content would raise there.
- Python dict key order is not modelled. It affects only printing, and the result of the argument loop does not depend on it.
- `m1-agent-failures/01_failure_scenarios.py` and `m2-reliable-agents/01_improved_prompts.py` are left out entirely. They hold only chat calls and prompt and tool-schema literals.
- The code has no cancellable wait and no injectable backoff policy; the backoff is fixed at `2 ** attempt`.
