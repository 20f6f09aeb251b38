/** The agent (`src/agent/core.py`): a conversation memory, a registry of
    tools keyed by name, and the two phases that talk to the hosted
    completion API. The API is outside the model: each phase receives the
    API's replies as parameters and returns the requests it would send. */
module AgentCore {
  import opened Outcomes
  import MathTool

  // ---------------------------------------------------------------------
  // Conversation values
  // ---------------------------------------------------------------------

  /** The role strings "system", "user", "assistant" and "tool". */
  datatype Role = System | User | Assistant | Tool

  /** One entry of the memory: `{"role": ..., "content": ...}`. */
  datatype Turn = Turn(role: Role, content: string)

  /** Tool arguments, already decoded from the call's JSON payload. */
  type Args = map<string, string>

  /** A tool call the model asked for: its correlation id, the tool's name
      and the arguments. */
  datatype ToolCall = ToolCall(id: string, name: string, arguments: Args)

  /** One entry of an outgoing message list. */
  datatype Message =
    | Chat(role: Role, content: string)                          // {"role", "content"}
    | ToolResult(callId: string, name: string, content: string)  // {"role": "tool", "tool_call_id", "name", "content"}
    | ToolRequest(calls: seq<ToolCall>)                          // {"role": "assistant", "content": None, "tool_calls"}

  /** The JSON documents a tool's parameter schema is made of (numbers are
      integers here). */
  datatype Json =
    | JNull
    | JBool(b: bool)
    | JNumber(n: int)
    | JString(s: string)
    | JArray(items: seq<Json>)
    | JObject(fields: seq<(string, Json)>)

  /** A registered tool: `ToolSpec(name, description, parameters, handler)`. */
  datatype ToolSpec = ToolSpec(name: string, description: string, parameters: Json, handler: Args -> Attempt<string>)

  /** What the API is told about a tool:
      `{"type": "function", "function": {"name", "description", "parameters"}}`. */
  datatype ToolDef = ToolDef(name: string, description: string, parameters: Json)

  /** `settings.model_fast` or `settings.model_default`. */
  datatype ModelChoice = FastModel | DefaultModel

  /** One call to the completion API. `tools` is present exactly when tool
      definitions are offered (with tool choice "auto"). */
  datatype Request = Request(model: ModelChoice, messages: seq<Message>, tools: Option<seq<ToolDef>>, temperature: real)

  /** The message of the first choice of an API response
      (`resp.choices[0].message`). An empty `toolCalls` is the same as none. */
  datatype ChoiceMessage = ChoiceMessage(content: Option<string>, toolCalls: seq<ToolCall>)

  const ProposalPrompt: string :=
    "Propose one difficult, precise question that tests reasoning ability. "
    + "Output only the question text—no preamble or answer."
  const ProposalTemperature: real := 0.7
  const QuestionPrefix: string := "Question to solve: "

  const SolverInstructions: string :=
    "You are a precise problem solver. "
    + "Use tools when arithmetic is nontrivial. "
    + "Return a final answer with a short explanation, no hidden reasoning steps."
  const SolveTemperature: real := 0.2

  /** The single request `propose_question` sends. */
  const ProposalRequest: Request :=
    Request(FastModel, [Chat(User, ProposalPrompt)], None, ProposalTemperature)

  // ---------------------------------------------------------------------
  // str.strip()
  // ---------------------------------------------------------------------

  /** The ASCII characters for which Python's `str.isspace` holds. */
  const Whitespace: set<char> :=
    {' ', '\t', '\n', '\r', '\U{0B}', '\U{0C}', '\U{1C}', '\U{1D}', '\U{1E}', '\U{1F}'}

  predicate IsSpace(c: char) {
    c in Whitespace
  }

  /** Every character of s at an index in lo..hi-1 is whitespace. */
  predicate SpacesBetween(s: string, lo: int, hi: int) {
    forall k :: lo <= k < hi && 0 <= k < |s| ==> IsSpace(s[k])
  }

  /** Where `s.lstrip()` starts once the scan has passed index i: the first
      index from i on that holds no whitespace, or |s| if there is none. */
  function StartOf(s: string, i: nat): (r: nat)
    requires i <= |s|
    ensures i <= r <= |s| && SpacesBetween(s, i, r)
    ensures r < |s| ==> !IsSpace(s[r])
    decreases |s| - i
  {
    if i < |s| && IsSpace(s[i]) then StartOf(s, i + 1) else i
  }

  /** Where `rstrip` ends s[lo..j]: the least e in lo..j such that s[e..j]
      is all whitespace. */
  function EndOf(s: string, lo: nat, j: nat): (r: nat)
    requires lo <= j <= |s|
    ensures lo <= r <= j && SpacesBetween(s, r, j)
    ensures lo < r ==> !IsSpace(s[r - 1])
  {
    if lo < j && IsSpace(s[j - 1]) then EndOf(s, lo, j - 1) else j
  }

  /** `s.strip()`: s without its leading and trailing whitespace; the
      result neither starts nor ends with whitespace. */
  function Strip(s: string): (r: string)
    ensures |r| <= |s|
    ensures r == [] || (!IsSpace(r[0]) && !IsSpace(r[|r| - 1]))
  {
    var i := StartOf(s, 0);
    s[i..EndOf(s, i, |s|)]
  }

  /** What `strip` removes is whitespace only: the result is the slice of s
      between an all-whitespace prefix and an all-whitespace suffix. */
  lemma StripIsSlice(s: string)
    ensures exists i :: (0 <= i <= |s| - |Strip(s)| && Strip(s) == s[i..i + |Strip(s)|]
                         && SpacesBetween(s, 0, i) && SpacesBetween(s, i + |Strip(s)|, |s|))
  {
    var i := StartOf(s, 0);
    assert Strip(s) == s[i..i + |Strip(s)|];
  }

  /** Stripping an already stripped string changes nothing. */
  lemma StripIdempotent(s: string)
    ensures Strip(Strip(s)) == Strip(s)
  {
    var r := Strip(s);
    if r != [] {
      assert StartOf(r, 0) == 0;
      assert EndOf(r, 0, |r|) == |r|;
      assert r[0..|r|] == r;
    }
  }

  // ---------------------------------------------------------------------
  // Memory replay
  // ---------------------------------------------------------------------

  /** `as_messages`: one role/content message per turn, in order. */
  function Replay(turns: seq<Turn>): (ms: seq<Message>)
    ensures |ms| == |turns|
  {
    seq(|turns|, i requires 0 <= i < |turns| => Chat(turns[i].role, turns[i].content))
  }

  /** The turns a list of role/content messages stands for. */
  function TurnsOf(ms: seq<Message>): (turns: seq<Turn>)
    requires forall m :: m in ms ==> m.Chat?
  {
    if ms == [] then [] else TurnsOf(ms[..|ms| - 1]) + [Turn(ms[|ms| - 1].role, ms[|ms| - 1].content)]
  }

  /** Replaying the memory loses nothing: the messages give back every
      turn, with its role and content, in order. */
  lemma {:induction false} ReplayRoundTrip(turns: seq<Turn>)
    ensures forall m :: m in Replay(turns) ==> m.Chat?
    ensures TurnsOf(Replay(turns)) == turns
  {
    if turns != [] {
      var n := |turns| - 1;
      ReplayRoundTrip(turns[..n]);
      assert Replay(turns)[..n] == Replay(turns[..n]);
      assert turns == turns[..n] + [turns[n]];
    }
  }

  /** Replay distributes over appending turns: appending turns to the
      memory appends their messages to its replay. */
  lemma ReplayAppend(turns: seq<Turn>, more: seq<Turn>)
    ensures Replay(turns + more) == Replay(turns) + Replay(more)
  {
  }

  // ---------------------------------------------------------------------
  // The tool registry
  // ---------------------------------------------------------------------

  predicate Distinct(names: seq<string>) {
    forall i, j :: 0 <= i < j < |names| ==> names[i] != names[j]
  }

  /** The registry invariant: `order` lists each key of `tools` once, in
      insertion order (Python dicts keep it), and each tool is filed under
      its own name. */
  ghost predicate WellKeyed(tools: map<string, ToolSpec>, order: seq<string>) {
    Distinct(order)
    && (forall k :: k in order <==> k in tools)
    && (forall k :: k in tools ==> tools[k].name == k)
  }

  /** A sequence without repeats is as long as the set of its elements. */
  lemma {:induction false} DistinctCount(names: seq<string>, keys: set<string>)
    requires Distinct(names)
    requires forall k :: k in names <==> k in keys
    ensures |keys| == |names|
  {
    if names != [] {
      var n := |names| - 1;
      var last := names[n];
      assert names == names[..n] + [last];
      forall k | k in names[..n]
        ensures k != last
      {
        var j :| 0 <= j < n && names[..n][j] == k;
        assert names[j] == k;
      }
      DistinctCount(names[..n], keys - {last});
    }
  }

  /** One `tool_defs` entry: the tool's name, description and parameters,
      without its handler. */
  function Define(t: ToolSpec): (d: ToolDef)
    ensures d.name == t.name && d.description == t.description && d.parameters == t.parameters
  {
    ToolDef(t.name, t.description, t.parameters)
  }

  /** `tool_defs`: one definition per registered tool, in registration
      order, each carrying that tool's name, description and parameters. */
  function ToolDefinitions(tools: map<string, ToolSpec>, order: seq<string>): (defs: seq<ToolDef>)
    requires WellKeyed(tools, order)
    ensures |defs| == |order| == |tools|
    ensures forall i :: 0 <= i < |defs| ==> defs[i].name == order[i] && defs[i] == Define(tools[order[i]])
    ensures forall i, j :: 0 <= i < j < |defs| ==> defs[i].name != defs[j].name
  {
    DistinctCount(order, tools.Keys);
    seq(|order|, i requires 0 <= i < |order| => Define(tools[order[i]]))
  }

  // ---------------------------------------------------------------------
  // The built-in math tool
  // ---------------------------------------------------------------------

  /** The text of `KeyError(key)`: `str(e)` gives the key's repr. */
  function KeyErrorText(key: string): string {
    "'" + key + "'"
  }

  /** The handler registered for "evaluate_math": it reads the "expression"
      and then the "mode" argument (a missing one raises KeyError) and
      replies with `evaluate_math`. */
  function MathHandler(args: Args, rt: MathTool.Runtime): (r: Attempt<string>)
    ensures r.Raised? <==> "expression" !in args || "mode" !in args
    ensures r.Returned? ==> r.value == MathTool.EvaluateMath(args["expression"], args["mode"], rt)
  {
    if "expression" !in args then Raised(KeyErrorText("expression"))
    else if "mode" !in args then Raised(KeyErrorText("mode"))
    else Returned(MathTool.EvaluateMath(args["expression"], args["mode"], rt))
  }

  const MathSchema: Json :=
    JObject([
      ("type", JString("object")),
      ("properties", JObject([
        ("expression", JObject([("type", JString("string"))])),
        ("mode", JObject([("type", JString("string")),
                          ("enum", JArray([JString("eval"), JString("sqrt"), JString("factorial")]))]))])),
      ("required", JArray([JString("expression"), JString("mode")]))])

  /** The built-in tool registered by the constructor: named
      "evaluate_math", described by `MathSchema`, and answering every
      argument map as the adapter does. */
  function MathToolSpec(rt: MathTool.Runtime): (t: ToolSpec)
    ensures t.name == "evaluate_math" && t.parameters == MathSchema
    ensures forall args :: t.handler(args) == MathHandler(args, rt)
  {
    ToolSpec("evaluate_math", "Safely evaluate arithmetic, sqrt, or factorial.", MathSchema,
             args => MathHandler(args, rt))
  }

  // ---------------------------------------------------------------------
  // The solve transcript
  // ---------------------------------------------------------------------

  /** The first-pass message list: the system instruction, the replayed
      memory in order, then the question as the last user turn. No tool
      traffic appears in it. */
  function OpeningMessages(history: seq<Turn>, question: string): (ms: seq<Message>)
    ensures |ms| == |history| + 2
    ensures ms[0] == Chat(System, SolverInstructions) && ms[|ms| - 1] == Chat(User, question)
    ensures forall i :: 0 <= i < |history| ==> ms[i + 1] == Chat(history[i].role, history[i].content)
    ensures forall m :: m in ms ==> m.Chat?
  {
    [Chat(System, SolverInstructions)] + Replay(history) + [Chat(User, question)]
  }

  /** `self.tools[name].handler(parsed)`: an unknown name raises KeyError. */
  function Invoke(tools: map<string, ToolSpec>, call: ToolCall): (r: Attempt<string>)
    ensures r.Raised? <==> call.name !in tools || tools[call.name].handler(call.arguments).Raised?
    ensures call.name !in tools ==> r.message == KeyErrorText(call.name)
    ensures call.name in tools ==> r == tools[call.name].handler(call.arguments)
  {
    if call.name !in tools then Raised(KeyErrorText(call.name))
    else tools[call.name].handler(call.arguments)
  }

  /** The dispatch loop over the calls in order: one tool result per call,
      or the exception of the first call that raises. */
  function Dispatch(tools: map<string, ToolSpec>, calls: seq<ToolCall>): (r: Attempt<seq<Message>>)
    ensures r.Returned? ==> |r.value| == |calls|
    ensures r.Returned? ==> forall i :: 0 <= i < |calls| ==>
              r.value[i].ToolResult? && r.value[i].callId == calls[i].id && r.value[i].name == calls[i].name
    ensures r.Raised? ==> exists i :: 0 <= i < |calls| && Invoke(tools, calls[i]) == Raised(r.message)
    decreases |calls|
  {
    if calls == [] then Returned([])
    else
      match Dispatch(tools, calls[..|calls| - 1])
      case Raised(m) => Raised(m)
      case Returned(done) =>
        var last := calls[|calls| - 1];
        match Invoke(tools, last)
        case Raised(m) => Raised(m)
        case Returned(out) => Returned(done + [ToolResult(last.id, last.name, out)])
  }

  /** Dispatch succeeds exactly when every call names a registered tool
      whose handler returns. */
  lemma {:induction false} DispatchSucceedsIff(tools: map<string, ToolSpec>, calls: seq<ToolCall>)
    ensures Dispatch(tools, calls).Returned? <==> forall i :: 0 <= i < |calls| ==> Invoke(tools, calls[i]).Returned?
  {
    if calls != [] {
      var n := |calls| - 1;
      DispatchSucceedsIff(tools, calls[..n]);
      assert forall i :: 0 <= i < n ==> calls[..n][i] == calls[i];
    }
  }

  /** One more call that returns extends a successful dispatch by that
      call's tool result. */
  lemma DispatchStep(tools: map<string, ToolSpec>, calls: seq<ToolCall>, i: nat)
    requires i < |calls| && Dispatch(tools, calls[..i]).Returned? && Invoke(tools, calls[i]).Returned?
    ensures Dispatch(tools, calls[..i + 1])
         == Returned(Dispatch(tools, calls[..i]).value
                     + [ToolResult(calls[i].id, calls[i].name, Invoke(tools, calls[i]).value)])
  {
    assert calls[..i + 1][..i] == calls[..i];
  }

  /** A successful dispatch yields exactly one tool result per call, in the
      order of the calls, each carrying its call's id, its tool's name and
      its handler's reply. */
  lemma {:induction false} DispatchShape(tools: map<string, ToolSpec>, calls: seq<ToolCall>)
    requires Dispatch(tools, calls).Returned?
    ensures var results := Dispatch(tools, calls).value;
            |results| == |calls|
            && forall i :: 0 <= i < |calls| ==>
                 Invoke(tools, calls[i]).Returned?
                 && results[i] == ToolResult(calls[i].id, calls[i].name, Invoke(tools, calls[i]).value)
  {
    if calls != [] {
      var n := |calls| - 1;
      DispatchShape(tools, calls[..n]);
      assert forall i :: 0 <= i < n ==> calls[..n][i] == calls[i];
    }
  }

  /** The exception of the first call that raises is the exception of the
      whole dispatch. */
  lemma {:induction false} DispatchFirstFailure(tools: map<string, ToolSpec>, calls: seq<ToolCall>, k: nat)
    requires k < |calls|
    requires Dispatch(tools, calls[..k]).Returned? && Invoke(tools, calls[k]).Raised?
    ensures Dispatch(tools, calls) == Raised(Invoke(tools, calls[k]).message)
  {
    var n := |calls| - 1;
    if k < n {
      assert calls[..n][..k] == calls[..k];
      DispatchFirstFailure(tools, calls[..n], k);
    } else {
      assert calls[..n] == calls[..k];
    }
  }

  /** The follow-up message list: the first-pass messages, the assistant
      turn holding the model's tool calls, then the tool results. */
  function FollowUpMessages(opening: seq<Message>, calls: seq<ToolCall>, results: seq<Message>): (ms: seq<Message>)
    ensures |ms| == |opening| + 1 + |results|
    ensures forall k :: 0 <= k < |opening| ==> ms[k] == opening[k]
    ensures ms[|opening|] == ToolRequest(calls)
    ensures forall k :: 0 <= k < |results| ==> ms[|opening| + 1 + k] == results[k]
  {
    opening + [ToolRequest(calls)] + results
  }

  /** The follow-up message list in the order the source builds it: the
      tool results come before the assistant turn that requested them. */
  function FollowUpAsWritten(opening: seq<Message>, calls: seq<ToolCall>, results: seq<Message>): (ms: seq<Message>)
    ensures |ms| == |opening| + |results| + 1
    ensures forall k :: 0 <= k < |opening| ==> ms[k] == opening[k]
    ensures forall k :: 0 <= k < |results| ==> ms[|opening| + k] == results[k]
    ensures ms[|ms| - 1] == ToolRequest(calls)
  {
    opening + results + [ToolRequest(calls)]
  }

  /** Whether the ToolRequest at index i is answered, as its t-th call, by
      the tool result right after it in position t. */
  predicate AnsweredAt(ms: seq<Message>, i: nat, t: nat)
    requires i < |ms| && ms[i].ToolRequest? && t < |ms[i].calls|
  {
    i + 1 + t < |ms| && ms[i + 1 + t].ToolResult? && ms[i + 1 + t].callId == ms[i].calls[t].id
  }

  /** Whether the tool result at index j answers the ToolRequest at index i
      as that request's (j - i - 1)-th call. */
  predicate AnswersRequest(ms: seq<Message>, i: nat, j: nat) {
    i < j < |ms| && ms[i].ToolRequest? && ms[j].ToolResult?
    && j - i - 1 < |ms[i].calls| && ms[j].callId == ms[i].calls[j - i - 1].id
  }

  /** The completion API's rule for tool traffic: every tool result answers
      a call of the assistant turn that requested it, placed in that call's
      position after the turn, and each requested call is answered, in
      order, right after that turn. */
  predicate ToolTranscriptWellFormed(ms: seq<Message>) {
    (forall j :: 0 <= j < |ms| && ms[j].ToolResult? ==> exists i :: 0 <= i < j && AnswersRequest(ms, i, j))
    && (forall i, t :: 0 <= i < |ms| && ms[i].ToolRequest? && 0 <= t < |ms[i].calls| ==> AnsweredAt(ms, i, t))
  }

  /** The follow-up list holds the opening messages, then the assistant turn
      with the calls, then exactly one tool result per call, in call order,
      each with its call's id and name. */
  lemma FollowUpLayout(tools: map<string, ToolSpec>, opening: seq<Message>, calls: seq<ToolCall>)
    requires Dispatch(tools, calls).Returned?
    ensures var ms := FollowUpMessages(opening, calls, Dispatch(tools, calls).value);
            |ms| == |opening| + 1 + |calls|
            && ms[..|opening|] == opening
            && ms[|opening|] == ToolRequest(calls)
            && forall t :: 0 <= t < |calls| ==>
                 Invoke(tools, calls[t]).Returned?
                 && ms[|opening| + 1 + t] == ToolResult(calls[t].id, calls[t].name, Invoke(tools, calls[t]).value)
  {
    var results := Dispatch(tools, calls).value;
    var ms := FollowUpMessages(opening, calls, results);
    DispatchShape(tools, calls);
    assert ms[..|opening|] == opening;
  }

  /** Given first-pass messages without tool traffic, the follow-up list
      satisfies the API's rule for tool traffic. */
  lemma FollowUpWellFormed(tools: map<string, ToolSpec>, opening: seq<Message>, calls: seq<ToolCall>)
    requires forall m :: m in opening ==> m.Chat?
    requires Dispatch(tools, calls).Returned?
    ensures ToolTranscriptWellFormed(FollowUpMessages(opening, calls, Dispatch(tools, calls).value))
  {
    var results := Dispatch(tools, calls).value;
    var ms := FollowUpMessages(opening, calls, results);
    var o := |opening|;
    forall k | 0 <= k < o
      ensures ms[k].Chat?
    {
      assert opening[k] in opening;
    }
    forall k | o < k < |ms|
      ensures ms[k].ToolResult? && ms[k].callId == calls[k - o - 1].id
    {
      assert ms[o + 1 + (k - o - 1)] == results[k - o - 1];
    }
    RequestThenAnswersWellFormed(ms, o, calls);
  }

  /** A list made of chat messages, then one assistant turn with the calls,
      then one tool result per call in call order, is well formed. */
  lemma RequestThenAnswersWellFormed(ms: seq<Message>, o: nat, calls: seq<ToolCall>)
    requires |ms| == o + 1 + |calls|
    requires forall k :: 0 <= k < o ==> ms[k].Chat?
    requires ms[o] == ToolRequest(calls)
    requires forall k :: o < k < |ms| ==> ms[k].ToolResult? && ms[k].callId == calls[k - o - 1].id
    ensures ToolTranscriptWellFormed(ms)
  {
    forall j | 0 <= j < |ms| && ms[j].ToolResult?
      ensures exists i :: 0 <= i < j && AnswersRequest(ms, i, j)
    {
      assert AnswersRequest(ms, o, j);
    }
    forall i, t | 0 <= i < |ms| && ms[i].ToolRequest? && 0 <= t < |ms[i].calls|
      ensures AnsweredAt(ms, i, t)
    {
      assert ms[o + 1 + t].ToolResult?;
    }
  }

  /** As written, a follow-up after at least one tool call breaks the API's
      rule: it ends with an assistant turn whose calls nothing answers. */
  lemma FollowUpAsWrittenIllFormed(opening: seq<Message>, calls: seq<ToolCall>, results: seq<Message>)
    requires |calls| > 0
    ensures !ToolTranscriptWellFormed(FollowUpAsWritten(opening, calls, results))
  {
    var ms := FollowUpAsWritten(opening, calls, results);
    var i := |ms| - 1;
    assert ms[i] == ToolRequest(calls);
    assert !AnsweredAt(ms, i, 0);
  }

  // ---------------------------------------------------------------------
  // Memory and Agent
  // ---------------------------------------------------------------------

  /** The append-only turn log. */
  class Memory {
    var turns: seq<Turn>

    constructor()
      ensures turns == []
    {
      turns := [];
    }

    /** `add(role, content)`: one new turn at the end, earlier ones kept. */
    method Add(role: Role, content: string)
      modifies this
      ensures turns == old(turns) + [Turn(role, content)]
      ensures AsMessages() == old(AsMessages()) + [Chat(role, content)]
    {
      ReplayAppend(turns, [Turn(role, content)]);
      turns := turns + [Turn(role, content)];
    }

    /** `as_messages()`: the turns as messages, same length, same order, same
      role and content; reading it changes nothing. */
    function AsMessages(): (ms: seq<Message>)
      reads this
      ensures |ms| == |turns|
      ensures forall i :: 0 <= i < |turns| ==> ms[i] == Chat(turns[i].role, turns[i].content)
    {
      Replay(turns)
    }
  }

  class Agent {
    const memory: Memory
    var tools: map<string, ToolSpec>
    var order: seq<string>  // the keys of `tools` in insertion order

    ghost predicate Valid()
      reads this
    {
      WellKeyed(tools, order)
    }

    /** A new agent has an empty memory and exactly one tool, the math tool,
        filed under "evaluate_math". */
    constructor(rt: MathTool.Runtime)
      ensures Valid() && fresh(memory)
      ensures memory.turns == []
      ensures tools == map["evaluate_math" := MathToolSpec(rt)] && order == ["evaluate_math"]
    {
      memory := new Memory();
      tools := map[];
      order := [];
      new;
      RegisterTool(MathToolSpec(rt));
    }

    /** `register_tool(tool)`: files the tool under its name, replacing any
        tool of that name in place and leaving every other entry as it was;
        a new name goes last in the order. */
    method RegisterTool(tool: ToolSpec)
      requires Valid()
      modifies this`tools, this`order
      ensures Valid()
      ensures tools == old(tools)[tool.name := tool]
      ensures order == if tool.name in old(tools) then old(order) else old(order) + [tool.name]
    {
      if tool.name !in tools {
        order := order + [tool.name];
      }
      tools := tools[tool.name := tool];
    }

    /** `propose_question()` once the API has replied with `reply` (the
        content of its first choice): the question is that content stripped,
        or "" when absent, and memory gains exactly one user turn. */
    method ProposeQuestion(reply: Option<string>) returns (question: string, request: Request)
      modifies memory
      ensures request == ProposalRequest
      ensures question == Strip(reply.GetOr(""))
      ensures memory.turns == old(memory.turns) + [Turn(User, QuestionPrefix + question)]
    {
      request := ProposalRequest;
      question := Strip(reply.GetOr(""));
      memory.Add(User, QuestionPrefix + question);
    }

    /** `solve(question)` with the API's replies as parameters: `first` to the
        first request, and the content `second` of the reply to the follow-up
        request, sent only when the first reply asks for tools. Returns the
        final answer or the exception that escapes, and the requests sent. */
    method Solve(question: string, first: ChoiceMessage, second: Option<string>)
      returns (outcome: Attempt<string>, firstRequest: Request, followUp: Option<Request>)
      requires Valid()
      modifies memory
      ensures firstRequest == Request(DefaultModel, OpeningMessages(old(memory.turns), question),
                                      Some(ToolDefinitions(tools, order)), SolveTemperature)
      ensures |first.toolCalls| == 0 ==>
                followUp == None && outcome == Returned(Strip(first.content.GetOr("")))
      ensures |first.toolCalls| > 0 ==>
                match Dispatch(tools, first.toolCalls)
                case Raised(m) => followUp == None && outcome == Raised(m)
                case Returned(results) =>
                  followUp == Some(Request(DefaultModel, FollowUpMessages(firstRequest.messages, first.toolCalls, results),
                                           None, SolveTemperature))
                  && outcome == Returned(Strip(second.GetOr("")))
      ensures outcome.Returned? ==> memory.turns == old(memory.turns) + [Turn(Assistant, outcome.value)]
      ensures outcome.Raised? ==> memory.turns == old(memory.turns)
    {
      var defs := ToolDefinitions(tools, order);
      var messages := [Chat(System, SolverInstructions)] + memory.AsMessages() + [Chat(User, question)];
      firstRequest := Request(DefaultModel, messages, Some(defs), SolveTemperature);
      followUp := None;
      var final: string;
      if |first.toolCalls| > 0 {
        var calls := first.toolCalls;
        messages := messages + [ToolRequest(calls)];
        var i := 0;
        while i < |calls|
          invariant 0 <= i <= |calls|
          invariant Dispatch(tools, calls[..i]).Returned?
          invariant messages == firstRequest.messages + [ToolRequest(calls)] + Dispatch(tools, calls[..i]).value
          invariant memory.turns == old(memory.turns)
        {
          var call := calls[i];
          if call.name !in tools {
            assert Invoke(tools, call) == Raised(KeyErrorText(call.name));
            DispatchFirstFailure(tools, calls, i);
            outcome := Raised(KeyErrorText(call.name));
            return;
          }
          var result := tools[call.name].handler(call.arguments);
          assert Invoke(tools, call) == result;
          if result.Raised? {
            DispatchFirstFailure(tools, calls, i);
            outcome := Raised(result.message);
            return;
          }
          DispatchStep(tools, calls, i);
          messages := messages + [ToolResult(call.id, call.name, result.value)];
          i := i + 1;
        }
        assert calls[..i] == calls;
        followUp := Some(Request(DefaultModel, messages, None, SolveTemperature));
        final := Strip(second.GetOr(""));
      } else {
        final := Strip(first.content.GetOr(""));
      }
      memory.Add(Assistant, final);
      outcome := Returned(final);
    }
  }
}
