/** The automated test runner for the support agent: each test sends a query,
    takes the model's reply, and judges it against an expected tool name and a
    partial map of expected arguments; the run ends with a pass/fail tally.
    The model's reply is an input here, already parsed. */
module StressTesting {
  import opened PyValues

  /** One tool call in the model's reply: the function name and its arguments,
      already decoded from JSON. */
  datatype ToolCall = ToolCall(name: string, arguments: Record)

  /** The model's reply: the tool calls it made (none, or several) and its text. */
  datatype Reply = Reply(toolCalls: seq<ToolCall>, content: string)

  /** The dictionary `run_test` returns: the called tool and its arguments, or
      a preview of the text answer; and the verdict. */
  datatype TestResult =
    | ToolResult(tool: string, args: Record, passed: bool)
    | TextResult(text: string, passed: bool)

  /** One test of the suite: the reply the model gave to its query, the
      expected tool (None: no tool expected) and the expected arguments. */
  datatype TestCase = TestCase(reply: Reply, expectedTool: Option<string>, expectedArgs: Option<Record>)

  /** The tally printed at the end of the run. */
  datatype Summary = Summary(total: nat, passed: nat, failed: nat)

  const PreviewLength: nat := 60

  function Min(a: int, b: int): int
  {
    if a < b then a else b
  }

  /** `content[:60] + "..."`: the first 60 characters of the text answer (all
      of it when shorter), then an ellipsis. */
  function Preview(content: string): (text: string)
    ensures |text| == Min(|content|, PreviewLength) + 3
    ensures text[..|text| - 3] == content[..Min(|content|, PreviewLength)]
    ensures text[|text| - 3..] == "..."
  {
    (if |content| <= PreviewLength then content else content[..PreviewLength]) + "..."
  }

  /** The tool check: with a truthy expected name the actual name must equal
      it; with None or the empty string any tool passes. */
  predicate ToolMatches(actual: string, expectedTool: Option<string>)
  {
    if TruthyText(expectedTool) then actual == expectedTool.value else true
  }

  /** Every expected key maps to an equal value among the actual arguments; a
      missing key reads as None and extra actual keys are ignored. */
  predicate ArgsSatisfy(expected: Record, actual: Record)
  {
    forall k :: k in expected ==> Equal(Get(actual, k), expected[k])
  }

  /** The argument check: skipped (true) when the expected arguments are None
      or empty. */
  predicate ArgsMatch(expectedArgs: Option<Record>, actual: Record)
  {
    expectedArgs.None? || expectedArgs.value == map[] || ArgsSatisfy(expectedArgs.value, actual)
  }

  /** The specification of `run_test` once the model has replied. Only the
      first tool call is judged. */
  function Verdict(reply: Reply, expectedTool: Option<string>, expectedArgs: Option<Record>): TestResult
  {
    if |reply.toolCalls| > 0 then
      var call := reply.toolCalls[0];
      ToolResult(call.name, call.arguments,
                 ToolMatches(call.name, expectedTool) && ArgsMatch(expectedArgs, call.arguments))
    else
      TextResult(Preview(reply.content), expectedTool.None?)
  }

  /** `run_test` after the chat request: the argument check is the loop over
      the expected items that clears the flag and stops at the first mismatch. */
  method RunTest(reply: Reply, expectedTool: Option<string>, expectedArgs: Option<Record>)
    returns (result: TestResult)
    ensures result == Verdict(reply, expectedTool, expectedArgs)
  {
    if |reply.toolCalls| > 0 {
      var tool := reply.toolCalls[0];
      var actualTool, actualArgs := tool.name, tool.arguments;
      var toolMatch := if TruthyText(expectedTool) then actualTool == expectedTool.value else true;
      var argsMatch := true;
      if expectedArgs.Some? && expectedArgs.value != map[] {
        var expected := expectedArgs.value;
        var remaining := expected.Keys;
        while remaining != {}
          invariant remaining <= expected.Keys
          invariant forall k :: k in expected && k !in remaining ==> Equal(Get(actualArgs, k), expected[k])
          decreases remaining
        {
          var key :| key in remaining;
          if !Equal(Get(actualArgs, key), expected[key]) {
            argsMatch := false;
            break;
          }
          remaining := remaining - {key};
        }
      }
      result := ToolResult(actualTool, actualArgs, toolMatch && argsMatch);
    } else {
      result := TextResult(Preview(reply.content), expectedTool.None?);
    }
  }

  /** `print_result`'s status word. */
  function Status(passed: bool): string
  {
    if passed then "PASS" else "FAIL"
  }

  /** `sum(1 for r in results if r["passed"])`. */
  function CountPassed(results: seq<TestResult>): (n: nat)
    ensures n <= |results|
    ensures n == |results| <==> forall i :: 0 <= i < |results| ==> results[i].passed
    ensures n == 0 <==> forall i :: 0 <= i < |results| ==> !results[i].passed
  {
    if results == [] then 0
    else (if results[0].passed then 1 else 0) + CountPassed(results[1..])
  }

  /** Appending one result adds one to the count exactly when it passed. */
  lemma {:induction false} CountPassedAppend(results: seq<TestResult>, r: TestResult)
    ensures CountPassed(results + [r]) == CountPassed(results) + (if r.passed then 1 else 0)
  {
    if results != [] {
      assert (results + [r])[1..] == results[1..] + [r];
      CountPassedAppend(results[1..], r);
    }
  }

  /** `main`: every test's result is appended in order, then the passed and
      failed counts are tallied. */
  method RunAllTests(cases: seq<TestCase>) returns (results: seq<TestResult>, summary: Summary)
    ensures |results| == |cases|
    ensures forall i :: 0 <= i < |cases| ==>
              results[i] == Verdict(cases[i].reply, cases[i].expectedTool, cases[i].expectedArgs)
    ensures summary.total == |cases|
    ensures summary.passed == CountPassed(results) <= summary.total
    ensures summary.failed == summary.total - summary.passed
  {
    results := [];
    for i := 0 to |cases|
      invariant |results| == i
      invariant forall j :: 0 <= j < i ==>
                  results[j] == Verdict(cases[j].reply, cases[j].expectedTool, cases[j].expectedArgs)
    {
      var result := RunTest(cases[i].reply, cases[i].expectedTool, cases[i].expectedArgs);
      results := results + [result];
    }
    var passed := CountPassed(results);
    var total := |results|;
    summary := Summary(total, passed, total - passed);
  }

  // ---------------------------------------------------------------------
  // What the verdict does and does not check
  // ---------------------------------------------------------------------

  /** With a non-empty expected name, a tool-call reply passes exactly when the
      first call names that tool and its arguments match. */
  lemma ToolCallVerdict(reply: Reply, expected: string, expectedArgs: Option<Record>)
    requires |reply.toolCalls| > 0 && expected != ""
    ensures Verdict(reply, Some(expected), expectedArgs).passed <==>
              reply.toolCalls[0].name == expected && ArgsMatch(expectedArgs, reply.toolCalls[0].arguments)
  {
  }

  /** A reply without a tool call passes exactly when no tool was expected. */
  lemma TextVerdict(reply: Reply, expectedTool: Option<string>, expectedArgs: Option<Record>)
    requires reply.toolCalls == []
    ensures Verdict(reply, expectedTool, expectedArgs).passed <==> expectedTool == None
  {
  }

  /** With no expected tool and no expected arguments every reply passes, also
      one that calls a tool although the test meant "no tool". */
  lemma NoExpectationAlwaysPasses(reply: Reply)
    ensures Verdict(reply, None, None).passed
  {
  }

  /** An expected name of `""` is falsy for the tool check but is not None
      for the text check: such a test passes exactly when a tool is called. */
  lemma EmptyExpectedToolDiverges(reply: Reply)
    ensures Verdict(reply, Some(""), None).passed <==> |reply.toolCalls| > 0
  {
  }

  /** Only the first tool call is judged; later calls do not matter. */
  lemma OnlyFirstCallJudged(call: ToolCall, rest1: seq<ToolCall>, rest2: seq<ToolCall>,
                            content: string, expectedTool: Option<string>, expectedArgs: Option<Record>)
    ensures Verdict(Reply([call] + rest1, content), expectedTool, expectedArgs) ==
            Verdict(Reply([call] + rest2, content), expectedTool, expectedArgs)
  {
  }

  /** Actual arguments that contain every expected entry pass the argument
      check, whatever extra keys they carry. */
  lemma ExtraArgumentsIgnored(expected: Record, actual: Record)
    requires forall k :: k in expected ==> k in actual && actual[k] == expected[k]
    ensures ArgsSatisfy(expected, actual)
  {
    forall k | k in expected ensures Equal(Get(actual, k), expected[k]) {
      EqualReflexive(expected[k]);
    }
  }

  /** A missing actual key reads as None: it satisfies an expected None and
      nothing else. */
  lemma MissingArgumentReadsAsNone(expected: Record, actual: Record, k: string)
    requires k in expected && k !in actual
    requires ArgsSatisfy(expected, actual)
    ensures expected[k] == Nothing
  {
    assert Equal(Get(actual, k), expected[k]);
  }

  /** An expected string argument is met only by exactly that string under
      the same key: no other kind of value, and no missing key, passes. */
  lemma StringArgumentMatchesExactly(expected: Record, actual: Record, k: string)
    requires k in expected && expected[k].Str?
    requires ArgsSatisfy(expected, actual)
    ensures k in actual && actual[k] == expected[k]
  {
    EqualString(expected[k].s, Get(actual, k));
  }

  /** The refund test of the example run: the reply's extra `reason` argument
      does not stop it from passing. */
  lemma RefundTestPasses()
    ensures Verdict(
              Reply([ToolCall("process_refund",
                              map["order_id" := Str("ORD-67890"), "reason" := Str("Damaged item")])], ""),
              Some("process_refund"),
              Some(map["order_id" := Str("ORD-67890")])).passed
  {
    ExtraArgumentsIgnored(map["order_id" := Str("ORD-67890")],
                          map["order_id" := Str("ORD-67890"), "reason" := Str("Damaged item")]);
  }
}
