/** `agent/basic_agent.py`: the agent that talks the tool-call mini-protocol.
    Its directive parser and parameter parser live in `Directives` and
    `ToolParams`; this module holds the agent record, the way a tool call is
    turned into the text handed back to the model, the system prompt with the
    tool instructions, `add_tool` and the reply collection of `_execute_llm`.
    `run` is a stub in the source (it returns the empty string), so there is
    no orchestration loop to model. */
module BasicAgents {
  import opened Wrappers
  import opened Text
  import opened Values
  import opened Registry
  import opened Llm
  import opened Agents
  import opened ToolParams
  import McpTools

  /** The `Agent` state plus the two attributes `BasicAgent` adds. */
  datatype BasicAgent = BasicAgent(base: Agent, enableToolCalling: bool, registry: ToolRegistry)

  /** `BasicAgent.__init__`: tool calling off, a fresh registry unless one
      is given, then the `Agent` constructor with its guard. */
  function NewBasicAgent(name: string, llm: Option<LlmClient>, systemPrompt: Option<string>,
                         registry: Option<ToolRegistry>, config: Option<Config>)
    : (r: Result<BasicAgent>)
    ensures r.Err? <==> llm.None?
    ensures r.Err? ==> r.error == MissingLlm
    ensures r.Ok? ==> !r.value.enableToolCalling && r.value.base == NewAgent(name, llm, systemPrompt, config).value
    ensures r.Ok? ==> r.value.base.history == [] && r.value.base.systemPrompt == systemPrompt
    ensures r.Ok? && registry.None? ==> forall n :: GetTool(r.value.registry, n).None?
    ensures r.Ok? && registry.Some? ==> r.value.registry == registry.value
  {
    var base :- NewAgent(name, llm, systemPrompt, config);
    Ok(BasicAgent(base, false, registry.GetOr(NewRegistry())))
  }

  /** `add_tool`: tool calling switched on and the tool handed to
      `register_tool` with the same `auto_expand`; the base agent untouched. */
  function AddTool(b: BasicAgent, t: AnyTool, autoExpand: bool := true): (r: BasicAgent)
    ensures r.enableToolCalling
    ensures r.base == b.base
    ensures r.registry == RegisterTool(b.registry, t, autoExpand)
  {
    b.(enableToolCalling := true, registry := RegisterTool(b.registry, t, autoExpand))
  }

  /** Adding a tool that does not expand leaves every lookup as it was, so a
      call to it still reports an unknown tool unless the name was already
      registered; adding an expanding MCP tool makes each expanded name
      resolvable, and the MCP tool's own name stays as it was. */
  lemma AddToolLookups(b: BasicAgent, t: AnyTool, autoExpand: bool)
    ensures !Expands(t, autoExpand) ==>
              forall n :: GetTool(AddTool(b, t, autoExpand).registry, n) == GetTool(b.registry, n)
    ensures Expands(t, autoExpand) ==>
              forall k :: 0 <= k < |t.mcp.available| ==>
                GetTool(AddTool(b, t, autoExpand).registry, t.mcp.name + "_" + t.mcp.available[k].name).Some?
    ensures GetTool(AddTool(b, t, autoExpand).registry, t.Name()) == GetTool(b.registry, t.Name())
  {
    if Expands(t, autoExpand) {
      RegisterToolStoresExpansion(b.registry, t, autoExpand);
      var ts := McpTools.AutoExpandTools(t.mcp).value;
      forall k | 0 <= k < |t.mcp.available|
        ensures t.mcp.name + "_" + t.mcp.available[k].name in AddTool(b, t, autoExpand).registry.tools
      {
        assert ts[k].name == t.mcp.name + "_" + t.mcp.available[k].name;
        assert ts[k].name in Names(ts);
      }
    }
  }

  /** What `tool.run(params)` did: returned a value, shown with `str`, or
      raised an exception, shown with `str` as well. */
  datatype Outcome = Returned(text: string) | Raised(message: string)

  /** `tool.run(params)`. A user-defined or expanded tool's `run` is code
      outside this model and comes in as `run`; an MCP server tool's `run`
      is the stub that returns `None`, printed as `None`. */
  function RunTool(t: AnyTool, params: map<string, Value>, run: (AnyTool, map<string, Value>) -> Outcome)
    : (o: Outcome)
    ensures t.McpServer? ==> o == Returned("None")
    ensures !t.McpServer? ==> o == run(t, params)
  {
    if t.McpServer? then
      var v := McpTools.Run(t.mcp, params);
      assert v == Null;
      Returned("None")
    else run(t, params)
  }

  /** The three things a tool call can report to the model. */
  datatype CallReport = NoSuchTool | Done(result: string) | Failed(reason: string)

  function NotFoundText(name: string): string {
    "错误: 未找到工具 " + name
  }

  function DonePrefix(name: string): string {
    "工具 " + name + " 执行结果\n"
  }

  function FailedPrefix(name: string): string {
    "调用工具 " + name + " 失败: "
  }

  /** The f-strings of `_execute_tool_call`. */
  function ReportText(name: string, rep: CallReport): string {
    match rep
    case NoSuchTool => NotFoundText(name)
    case Done(result) => DonePrefix(name) + result
    case Failed(reason) => FailedPrefix(name) + reason
  }

  /** Reading a report back from the text, knowing the tool name. */
  function ReadReport(name: string, text: string): (r: Option<CallReport>)
    ensures r.Some? ==> ReportText(name, r.value) == text
  {
    if text == NotFoundText(name) then Some(NoSuchTool)
    else if DonePrefix(name) <= text then Some(Done(text[|DonePrefix(name)|..]))
    else if FailedPrefix(name) <= text then Some(Failed(text[|FailedPrefix(name)|..]))
    else None
  }

  /** The three report forms never collide: the text names the outcome and
      carries the result or the reason unchanged. */
  lemma ReportRoundTrip(name: string, rep: CallReport)
    ensures ReadReport(name, ReportText(name, rep)) == Some(rep)
  {
    var text := ReportText(name, rep);
    match rep
    case NoSuchTool =>
    case Done(result) =>
      assert text[0] == '工' && NotFoundText(name)[0] == '错';
    case Failed(reason) =>
      assert text[0] == '调' && NotFoundText(name)[0] == '错' && DonePrefix(name)[0] == '工';
  }

  /** `_execute_tool_call`: an unknown tool is reported as such; otherwise
      the parameters are parsed and the tool is run, and an exception from
      either step is reported as a failure with its message. It never raises. */
  function ExecuteToolCall(b: BasicAgent, toolName: string, parameters: string,
                           run: (AnyTool, map<string, Value>) -> Outcome): (r: string)
    ensures GetTool(b.registry, toolName).None? ==> r == ReportText(toolName, NoSuchTool)
    ensures GetTool(b.registry, toolName).Some? && ParseToolParameters(b.registry, toolName, parameters).Err? ==>
              r == ReportText(toolName, Failed(UnpackError.message))
    ensures GetTool(b.registry, toolName).Some? && ParseToolParameters(b.registry, toolName, parameters).Ok? ==>
              var o := RunTool(GetTool(b.registry, toolName).value, ParseToolParameters(b.registry, toolName, parameters).value, run);
              && (o.Returned? ==> r == ReportText(toolName, Done(o.text)))
              && (o.Raised? ==> r == ReportText(toolName, Failed(o.message)))
  {
    match GetTool(b.registry, toolName)
    case None => ReportText(toolName, NoSuchTool)
    case Some(t) =>
      match ParseToolParameters(b.registry, toolName, parameters)
      case Err(e) => ReportText(toolName, Failed(e.message))
      case Ok(params) =>
        match RunTool(t, params, run)
        case Returned(text) => ReportText(toolName, Done(text))
        case Raised(message) => ReportText(toolName, Failed(message))
  }

  /** A registered tool whose parameter text has an `=` and a
      comma-separated piece without one is reported as a failed call with
      Python's unpacking message, whatever the tool does. */
  lemma MalformedParametersReported(b: BasicAgent, toolName: string, parameters: string,
                                    run: (AnyTool, map<string, Value>) -> Outcome)
    requires toolName in b.registry.tools && '=' in parameters
    requires exists k :: 0 <= k < |Pieces(parameters)| && '=' !in Pieces(parameters)[k]
    ensures ExecuteToolCall(b, toolName, parameters, run)
            == "调用工具 " + toolName + " 失败: " + "not enough values to unpack (expected 2, got 1)"
  {
    PairsFailIffPieceLacksEquals(Pieces(parameters));
    assert ParseToolParameters(b.registry, toolName, parameters).Err?;
  }

  /** A registered MCP server tool with well-formed parameter text (no `=`
      at all, or one in every piece) reports the `None` its stub returns. */
  lemma McpServerCallReportsNone(b: BasicAgent, toolName: string, parameters: string,
                                 run: (AnyTool, map<string, Value>) -> Outcome)
    requires toolName in b.registry.tools && b.registry.tools[toolName].McpServer?
    requires '=' !in parameters || forall k :: 0 <= k < |Pieces(parameters)| ==> '=' in Pieces(parameters)[k]
    ensures ExecuteToolCall(b, toolName, parameters, run) == "工具 " + toolName + " 执行结果\n" + "None"
  {
    PairsFailIffPieceLacksEquals(Pieces(parameters));
    assert ParseToolParameters(b.registry, toolName, parameters).Ok?;
  }

  /** The basic prompt: the system prompt when it is truthy, else the default. */
  const DefaultPrompt: string := "你是一名有用的AI助手"

  /** What a registry with no tools describes itself as. */
  const NoToolsText: string := "无可用工具"

  function BasicPrompt(systemPrompt: Option<string>): (r: string)
    ensures r != ""
    ensures Present(systemPrompt) ==> r == systemPrompt.value
    ensures !Present(systemPrompt) ==> r == DefaultPrompt
  {
    if Present(systemPrompt) then systemPrompt.value else DefaultPrompt
  }

  /** `TOOL_USAGE_PROMPT` cut at its two fields, with the doubled braces
      already rendered as single ones. */
  const PromptHead: string := "\n"

  const PromptMiddle: string :=
    "\n" + "\n" + "## 可用工具\n" + "你可以使用以下工具来帮助回答问题\n"

  const PromptTail: string :=
    "\n" + "\n" + "## 工具调用格式\n" + "当需要调用工具时, 请使用以下格式:\n"
    + "`[TOOL_CALL:{tool_name}:{parameters}]`\n" + "\n" + "### 参数格式说明\n"
    + "1. **多个参数**：使用 `key=value` 格式，用逗号分隔\n"
    + "   示例：`[TOOL_CALL:calculator_multiply:a=12,b=8]`\n"
    + "   示例：`[TOOL_CALL:filesystem_read_file:path=README.md]`\n"
    + "2. **单个参数**：直接使用 `key=value`\n"
    + "   示例：`[TOOL_CALL:search:query=Python编程]`\n" + "\n" + "### 重要提示\n"
    + "- 参数名必须与工具定义的参数名完全匹配\n"
    + "- 数字参数直接写数字，不需要引号：`a=12` 而不是 `a=12`\n"
    + "- 文件路径等字符串参数直接写：`path=README.md`\n"
    + "- 工具调用结果会自动插入到对话中，然后你可以基于结果继续回答\n"

  /** `_get_system_tool_prompt`, given what `get_tool_descriptions()`
      returned: the basic prompt alone when there is nothing to describe,
      else the template filled with the basic prompt and the descriptions. */
  function SystemToolPrompt(systemPrompt: Option<string>, descriptions: string): (r: string)
    ensures r != ""
    ensures descriptions == "" || descriptions == NoToolsText ==> r == BasicPrompt(systemPrompt)
    ensures descriptions != "" && descriptions != NoToolsText ==>
              PromptHead <= r && |r| == |PromptHead| + |BasicPrompt(systemPrompt)| + |PromptMiddle| + |descriptions| + |PromptTail|
  {
    var basic := BasicPrompt(systemPrompt);
    if descriptions == "" || descriptions == NoToolsText then basic
    else PromptHead + basic + PromptMiddle + descriptions + PromptTail
  }

  /** With tools to describe, the prompt holds the basic prompt and the
      descriptions verbatim at fixed places between the template's fixed
      text, so both can be read back out of it. */
  lemma SystemToolPromptParts(systemPrompt: Option<string>, descriptions: string)
    requires descriptions != "" && descriptions != NoToolsText
    ensures var r := SystemToolPrompt(systemPrompt, descriptions);
            var basic := BasicPrompt(systemPrompt);
            var i := |PromptHead|;
            var j := i + |basic| + |PromptMiddle|;
            && |r| == j + |descriptions| + |PromptTail|
            && r[..i] == PromptHead
            && r[i..i + |basic|] == basic
            && r[i + |basic|..j] == PromptMiddle
            && r[j..j + |descriptions|] == descriptions
            && r[j + |descriptions|..] == PromptTail
  {
    FiveParts(PromptHead, BasicPrompt(systemPrompt), PromptMiddle, descriptions, PromptTail);
  }

  /** Each of five joined strings sits at its offset in the join. */
  lemma FiveParts(a: string, b: string, c: string, d: string, e: string)
    ensures var s := a + b + c + d + e;
            var j := |a| + |b| + |c|;
            && s[..|a|] == a && s[|a|..|a| + |b|] == b && s[|a| + |b|..j] == c
            && s[j..j + |d|] == d && s[j + |d|..] == e
  {
    var s := a + b + c + d + e;
    var j := |a| + |b| + |c|;
    assert s == (a + b + c) + (d + e);
    assert s[..j] == a + b + c;
    assert s[j..] == d + e;
    assert (a + b + c)[|a|..] == b + c;
  }

  /** `run`: a stub that answers with the empty string and leaves the agent
      as it was. */
  function Run(b: BasicAgent, input: string): (r: (string, BasicAgent))
    ensures r.0 == [] && r.1 == b
  {
    ("", b)
  }

  /** `_execute_llm`: a streamed reply is the chunks `think` yields, joined
      in order; otherwise it is what `invoke` returns. The transport's
      answer comes in as `streamed` or `reply`. */
  method ExecuteLlm(stream: bool, streamed: seq<StreamChunk>, reply: ReplyMessage) returns (response: string)
    ensures stream ==> response == Concat(Think(streamed))
    ensures stream ==> |response| == TotalLength(Think(streamed))
    ensures !stream ==> response == Invoke(reply)
  {
    response := "";
    if stream {
      var chunks := Think(streamed);
      var i := 0;
      while i < |chunks|
        invariant 0 <= i <= |chunks|
        invariant response == Concat(chunks[..i])
      {
        assert chunks[..i + 1] == chunks[..i] + [chunks[i]];
        ConcatAppend(chunks[..i], [chunks[i]]);
        ConcatOne(chunks[i]);
        response := response + chunks[i];
        i := i + 1;
      }
      assert chunks[..i] == chunks;
      ConcatLength(chunks);
    } else {
      response := Invoke(reply);
    }
  }
}
