# Agentic starter kit: math tool and agent core in Dafny

This project models the local logic of a small demonstration agent. The
agent asks a hosted language model to propose a question, then asks it to
answer. The model may call one sandboxed arithmetic tool along the way.

- `outcomes.dfy` (module `Outcomes`): `Option`, plus `Attempt`, which is
  the outcome of a Python call (it returned a value or raised an
  exception with a given text).
- `math_tool.dfy` (module `MathTool`): `evaluate_math` as a pure total
  function of the expression, the mode and a `Runtime`. It checks the mode
  in the order sqrt, factorial, eval, and anything else is an unknown mode.
  Factorial is gated to 0..10000 and gives the exact decimal digits of n!.
  Eval first checks the expression against the alphabet
  `0123456789+-*/(). `. Every failure is a reply starting with `"Error: "`.
  The three interpreter services the function calls are fields of
  `Runtime`, passed in as parameters, and the model does not look inside
  them: `int(expr)`, `str(math.sqrt(float(expr)))` and the restricted
  `eval`.
- `agent_core.dfy` (module `AgentCore`):
  - The `Memory` class is the append-only turn log with its replay view.
  - The `Agent` class holds the name-keyed tool registry, kept in
    insertion order as a Python dict keeps it, with the built-in
    `evaluate_math` tool registered.
  - `ProposeQuestion` and `Solve` take the completion API's replies as
    parameters and return the requests they send.
  - `Solve` runs the dispatch loop over the model's tool calls in order
    and is proved against the specification function `Dispatch`.
  - Lemmas cover the shape of the transcript and the API's rule that tool
    results answer the assistant turn requesting them.

The model follows the code, with two exceptions, both listed under
"## Findings". For each, the main members (`Solve`, `EvaluateMath`) take
the evidently intended behaviour, and an as-written twin models the code
and exhibits the discrepancy.

An unknown tool name, or a handler that raises, is not turned into an
error result turn. The lookup at `src/agent/core.py:136` raises `KeyError`,
and nothing in `solve` catches it. The math adapter
(`src/agent/core.py:62`) also raises `KeyError` when the `expression` or
`mode` argument is missing, because `evaluate_math` reads both with
subscripts (`src/tools/math_tool.py:20-21`). `Solve` models this by
returning `Raised(...)` with the exception's text (for a `KeyError`, the
quoted key, as `str(e)` gives it). In that case no follow-up is sent and memory is unchanged.

## Model

| member | source | states |
|---|---|---|
| `MathTool.EvaluateMath` | src/tools/math_tool.py:13-48 | total, so no input raises; a mode other than sqrt, factorial or eval gives exactly "Error: unknown mode"; every reply that is not an "Error: " string is the value of the service the mode selects (sqrt's text, the exact digits of n! for a parsed n in 0..10000, or eval's text for an expression within the alphabet) |
| `MathTool.ErrorText` | src/tools/math_tool.py:26-27 | the `f"Error: {e}"` reply of each `except` clause (also lines 35-36 and 45-46): it starts with "Error: ", and what follows is exactly the exception's text |
| `MathTool.Reply` | src/tools/math_tool.py:24-27 | the outcome of a call inside a `try` block: a returned value is the reply unchanged, and a raised exception becomes "Error: " followed by its text |
| `MathTool.InAlphabet` | src/tools/math_tool.py:40-41 | `set(expr) <= allowed` holds exactly when every character of the expression, at every index, lies in `0123456789+-*/(). ` |
| `MathTool.UnknownModeIgnoresInput` | src/tools/math_tool.py:23-48 | for an unknown mode the reply is "Error: unknown mode" and depends on neither the expression nor the runtime |
| `MathTool.FactorialOf` | src/tools/math_tool.py:32-34 | once n is parsed, the reply is "Error: n out of range" exactly when n < 0 or n > 10000 |
| `MathTool.FactorialRangeGate` | src/tools/math_tool.py:31-33 | in factorial mode, a parsed n outside 0..10000 gives exactly "Error: n out of range" |
| `MathTool.FactorialInRange` | src/tools/math_tool.py:31-34 | in factorial mode, a parsed n in 0..10000 gives a non-error string of decimal digits whose value is exactly n! |
| `MathTool.FactorialUnparsable` | src/tools/math_tool.py:30-36 | in factorial mode, when `int()` raises, the reply is "Error: " followed by the exception's text |
| `MathTool.EvalGateRejects` | src/tools/math_tool.py:40-42 | in eval mode, an expression with any character outside `0123456789+-*/(). ` gives exactly "Error: disallowed characters", whatever the evaluator would do |
| `MathTool.EvalGatePasses` | src/tools/math_tool.py:41-46 | in eval mode, an expression made only of allowed characters (the empty one included) passes the gate; the reply is the evaluator's value, or "Error: " followed by its exception's text |
| `MathTool.ErrorExactlyOnFailure` | src/tools/math_tool.py:23-48 | if the runtime's successful values never start with "Error: ", a reply starts with "Error: " exactly when no value could be computed: sqrt raised, int() raised, n was out of range, a character was disallowed, eval raised, or the mode was unknown |
| `MathTool.Factorial` | src/tools/math_tool.py:34 | `math.factorial` on naturals, unbounded; n! >= 1 |
| `MathTool.DecimalString` | src/tools/math_tool.py:34 | `str` of a natural: at least one digit, all digits, no leading zero except in "0" |
| `MathTool.DecimalRoundTrip` | src/tools/math_tool.py:34 | reading back the decimal text of n gives n |
| `MathTool.PythonIntStr` | src/tools/math_tool.py:34 | `str` of an int under CPython's default 4300-digit limit returns the digits exactly when there are at most 4300 of them, and raises otherwise |
| `MathTool.FactorialBranchAsWritten` | src/tools/math_tool.py:29-36 | the factorial branch as written, with `str` subject to the digit limit; when `int()` raises, the reply is an error |
| `MathTool.FactorialAsWrittenFailsInRange` | src/tools/math_tool.py:31-34 | as written, for every parsed n in 4310..10000 the reply is an "Error: " string and differs from the exact digits of n! |
| `AgentCore.StartOf` | src/agent/core.py:80 | the scan `lstrip` performs: from index i, the first index holding no whitespace (or the end), with only whitespace skipped |
| `AgentCore.EndOf` | src/agent/core.py:80 | the scan `rstrip` performs: the least end e such that everything from e to the old end is whitespace, and the character before e (if any) is not |
| `AgentCore.Strip` | src/agent/core.py:80 | `str.strip()`: the result is no longer than the input, and it neither starts nor ends with whitespace |
| `AgentCore.StripIsSlice` | src/agent/core.py:80 | `strip` removes whitespace only: the result is a contiguous slice of the input, and everything before and after it is whitespace |
| `AgentCore.StripIdempotent` | src/agent/core.py:80 | a property of `str.strip` itself, not one the source relies on: stripping a stripped string changes nothing |
| `AgentCore.Replay` | src/agent/core.py:32-33 | the replay view has one message per turn |
| `AgentCore.ReplayRoundTrip` | src/agent/core.py:32-33 | the replay consists only of role/content messages, and they give back every turn with its role and content, in order |
| `AgentCore.ReplayAppend` | src/agent/core.py:29-33 | the replay of a log with turns appended is the old replay followed by the new turns' messages |
| `AgentCore.Define` | src/agent/core.py:96-103 | one `tool_defs` entry carries the tool's name, description and parameters, and nothing of its handler |
| `AgentCore.ToolDefinitions` | src/agent/core.py:95-105 | `tool_defs` has one entry per registered tool, in registration order, with distinct names; each entry projects that tool's name, description and parameters |
| `AgentCore.MathHandler` | src/agent/core.py:62 | the registered adapter raises (KeyError) exactly when "expression" or "mode" is missing from the arguments; otherwise it returns `evaluate_math` of them |
| `AgentCore.MathToolSpec` | src/agent/core.py:50-63 | the built-in tool is named "evaluate_math", its parameters are `MathSchema` (an object with string properties `expression` and `mode`, mode one of eval, sqrt, factorial, both required), and its handler answers every argument map exactly as `MathHandler` does |
| `AgentCore.OpeningMessages` | src/agent/core.py:107-111 | the first-pass list is the system instruction, then every memory turn in order, then the question as the last user turn, with no tool traffic |
| `AgentCore.Invoke` | src/agent/core.py:136 | `self.tools[name].handler(parsed)`: it raises exactly when the name is unregistered or the handler raises; an unregistered name raises `KeyError` with the quoted name as text; otherwise the reply is the handler's outcome |
| `AgentCore.Dispatch` | src/agent/core.py:126-144 | the calls in order: on success, one tool result per call, each with its call's id and name; on failure, the exception is one that some call's lookup or handler raises |
| `AgentCore.DispatchStep` | src/agent/core.py:136-144 | one iteration of the loop: a call that returns appends its tool result, with the call's id, the tool's name and the reply, to the results so far |
| `AgentCore.DispatchSucceedsIff` | src/agent/core.py:126-144 | the dispatch loop completes exactly when every call names a registered tool and that tool's handler returns |
| `AgentCore.DispatchShape` | src/agent/core.py:126-144 | a completed dispatch gives exactly one tool turn per call, in the order of the calls, each with its call's id, the tool's name and the handler's reply |
| `AgentCore.DispatchFirstFailure` | src/agent/core.py:136 | when the first failing call names an unregistered tool or has a handler that raises, that exception is what the whole dispatch raises |
| `AgentCore.FollowUpMessages` | src/agent/core.py:147-151 | the corrected follow-up list that `Solve` sends: the first-pass messages, then the assistant turn holding the calls, then the results, element by element |
| `AgentCore.FollowUpAsWritten` | src/agent/core.py:149 | the list the source sends, `messages + [assistant turn with tool_calls]`: the first-pass messages, then the results, and the assistant turn holding the calls last |
| `AgentCore.FollowUpLayout` | src/agent/core.py:126-149 | the follow-up list is the first-pass messages, then one assistant turn holding the original calls, then one tool turn per call in call order, carrying its id and name |
| `AgentCore.FollowUpWellFormed` | src/agent/core.py:147-151 | the follow-up list satisfies the API's tool-traffic rule: every tool turn answers, by id, the call at its own position after an earlier assistant turn with tool calls (so a stray result after another result is rejected), and every requested call is answered in order right after its assistant turn |
| `AgentCore.RequestThenAnswersWellFormed` | src/agent/core.py:147-151 | any list of chat messages, then one assistant turn with calls, then one result per call in call order carrying that call's id, satisfies the API's tool-traffic rule |
| `AgentCore.FollowUpAsWrittenIllFormed` | src/agent/core.py:149 | the list the source sends (the tool turns, then the assistant turn with the calls) breaks that rule whenever there is at least one call |
| `AgentCore.Memory.constructor` | src/agent/core.py:27 | a new memory has no turns |
| `AgentCore.Memory.Add` | src/agent/core.py:29-30 | the log grows by exactly one turn `{role, content}` at the end, and earlier turns are unchanged; the replay grows by that one message |
| `AgentCore.Memory.AsMessages` | src/agent/core.py:32-33 | same length as the log, same order, same role and content in each message; reads the log and changes nothing |
| `AgentCore.Agent.constructor` | src/agent/core.py:44-64 | a new agent has empty memory and a registry whose only key is "evaluate_math", holding the math tool with its schema and adapter |
| `AgentCore.Agent.RegisterTool` | src/agent/core.py:66-67 | the registry maps the tool's name to the tool, replacing any earlier entry of that name, and every other entry is untouched; a new name goes last in the iteration order; the registry invariant is kept |
| `AgentCore.Agent.ProposeQuestion` | src/agent/core.py:69-82 | sends the fixed proposal request to the fast model; returns the reply's content stripped, or "" when there is none; memory gains exactly one user turn, "Question to solve: " followed by the question |
| `AgentCore.Agent.Solve` | src/agent/core.py:84-158 | the first request holds the opening messages and the projected tool definitions. With no tool calls, the answer is the stripped content. With tool calls, the calls are dispatched in order: if one raises, that exception escapes, no follow-up is sent and memory is unchanged; otherwise one follow-up is sent with the corrected layout and no tools, and the answer is its stripped content. On success memory gains exactly one assistant turn holding the answer, and never a tool turn |

## Findings

| source | as written | input that shows it | evidently intended | confidence | as-written member | corrected member |
|---|---|---|---|---|---|---|
| src/agent/core.py:149 | the follow-up request is `messages + [assistant turn with tool_calls]`, so the tool result turns come before the assistant turn that requested them, and nothing follows that assistant turn | any first reply with one tool call, e.g. a call `c1` to `evaluate_math`: the list ends `..., user, tool(c1), assistant(tool_calls=[c1])` | the assistant turn holding the calls comes before their result turns (`..., user, assistant(tool_calls=[c1]), tool(c1)`), which the completion API requires for tool messages | high; not executed | `AgentCore.FollowUpAsWrittenIllFormed` | `AgentCore.FollowUpWellFormed` |
| src/tools/math_tool.py:34 | `str(math.factorial(n))` is subject to CPython's default limit of 4300 digits for int-to-string conversion (3.11 and later, and the 3.10.7, 3.9.14, 3.8.14 and 3.7.14 security releases), so a large in-range n raises ValueError and the reply is "Error: Exceeds the limit (4300 digits) ..." | expression "10000" in factorial mode (any n from 4310 up to 10000 is proved; by Stirling's estimate n! already has more than 4300 digits from about n = 1559, which is not proved here) | the exact decimal digits of n! for every n in 0..10000, as the range gate suggests | medium: depends on the CPython version; not executed | `MathTool.FactorialAsWrittenFailsInRange` | `MathTool.FactorialInRange` |

`Solve` uses the corrected follow-up layout. `EvaluateMath` uses the exact
digits of n!.

## Left out

- The completion API calls (`src/agent/core.py:75-79`, `114-120`, `147-151`) are network I/O. Replies are parameters of `ProposeQuestion` and `Solve`, and requests are their results. A failure of the API itself, which would propagate, is not modelled.
- Model identifiers are abstracted to `FastModel` and `DefaultModel`. Settings and the client (`src/config.py`) are not part of this model.
- The sqrt mode's floating-point result (`math.sqrt(float(expr))`) is an abstract runtime service. So are `int(expr)` and Python's `eval` on whitelisted text, because they are a foreign parser and a general evaluator with float division. The model proves the dispatch, the gates and the error wrapping around them.
- JSON decoding of tool arguments (`src/agent/core.py:128-134`) is left out. Arguments arrive already decoded as a map from strings to strings, so a `json.loads` failure is not modelled, nor are non-string argument values.
- `MathTool.EvaluateMath`: its totality holds for string arguments only. With a non-string argument the source's `evaluate_math` is not total. For example, `{"expression": 5, "mode": "eval"}` makes `set(expr)` at `src/tools/math_tool.py:41` raise `TypeError` outside any `try`, and that exception escapes `solve`.
- `AgentCore.Memory.Add`: roles are the four role values the code uses, rather than arbitrary strings.
- `AgentCore.Strip`: only ASCII whitespace is stripped. Non-ASCII characters for which Python's `str.isspace` holds are not modelled.
- Tool parameter schemas are JSON values whose numbers are integers only. Only the math tool's schema, which has no numbers, is built.
- Which tool handlers exist beyond the built-in one is up to callers. A handler is any total function from arguments to returned-or-raised text.
- The demo driver (`src/run_demo.py`) and its printing are not part of this model.
