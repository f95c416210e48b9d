/** `tools/mcp_tool.py`: a tool standing for an MCP server. Its constructor
    discovers the server's tools once; expansion turns each discovered entry
    into a tool of its own, named with the server tool's prefix. The discovery
    itself (an MCP session run on an event loop, possibly in a worker thread)
    is modelled only by its outcome. */
module McpTools {
  import opened Wrappers
  import opened Values
  import opened Tools
  import opened McpClient

  datatype McpTool = McpTool(
    name: string,
    description: Option<string>,
    serverCommand: Option<seq<string>>,
    serverArgs: seq<string>,
    server: Option<nat>,
    autoExpand: bool,
    prefix: string,
    env: Option<map<string, string>>,
    available: seq<ToolEntry>)

  /** `f"{name}_" if auto_expand else ""`: the name and an underscore for
      an expanding tool, and empty exactly when the tool does not expand. */
  function Prefix(name: string, autoExpand: bool): (r: string)
    ensures r == "" <==> !autoExpand
    ensures autoExpand ==> r == name + "_"
  {
    if autoExpand then name + "_" else ""
  }

  /** What `_discover_tools` keeps: the listed tools, or nothing at all when
      any step of discovery raised. */
  function Discovered(outcome: Result<seq<ToolEntry>>): (r: seq<ToolEntry>)
    ensures outcome.Err? ==> r == []
    ensures outcome.Ok? ==> r == outcome.value
  {
    match outcome
    case Ok(tools) => tools
    case Err(_) => []
  }

  /** The source discovery connects to: `server if server else server_command`
      (`None` when neither was given, and discovery then fails). */
  function DiscoverySource(server: Option<nat>, serverCommand: Option<seq<string>>): (r: Option<ServerSource>)
    ensures server.Some? ==> r == Some(OtherSource(server.value))
    ensures server.None? && serverCommand.Some? ==> r == Some(CommandLine(serverCommand.value))
    ensures server.None? && serverCommand.None? ==> r.None?
  {
    if server.Some? then Some(OtherSource(server.value))
    else if serverCommand.Some? then Some(CommandLine(serverCommand.value))
    else None
  }

  /** `MCPTool.__init__`. `discovery` is the outcome of listing the server's
      tools through an `MCPClient` opened on `DiscoverySource(server, serverCommand)`. */
  function NewMcpTool(
    discovery: Result<seq<ToolEntry>>,
    name: string := "mcp",
    description: Option<string> := None,
    serverCommand: Option<seq<string>> := None,
    serverArgs: Option<seq<string>> := None,
    server: Option<nat> := None,
    autoExpand: bool := true,
    env: Option<map<string, string>> := None): (m: McpTool)
    ensures m.name == name && m.description == description && m.autoExpand == autoExpand
    ensures m.available == Discovered(discovery)
  {
    McpTool(name, description, serverCommand, serverArgs.GetOr([]), server, autoExpand,
            Prefix(name, autoExpand), env, Discovered(discovery))
  }

  /** The descriptions `get_parameters` gives its six parameters. */
  const ActionText: string :=
    "操作类型: list_tools, call_tool, list_resources, read_resource, list_prompts, get_prompt"
  const ToolNameText: string := "工具名称（call_tool 操作需要）"
  const ArgumentsText: string := "工具参数（call_tool 操作需要）"
  const UriText: string := "资源 URI（read_resource 操作需要）"
  const PromptNameText: string := "提示词名称（get_prompt 操作需要）"
  const PromptArgumentsText: string := "提示词参数（get_prompt 操作可选）"

  /** `get_parameters`: six parameters in a fixed order, only `action` required. */
  function Parameters(): (ps: seq<ToolParameter>)
    ensures |ps| == 6
    ensures ps[0].name == "action" && ps[1].name == "tool_name" && ps[2].name == "arguments"
    ensures ps[3].name == "uri" && ps[4].name == "prompt_name" && ps[5].name == "prompt_arguments"
    ensures forall k :: 0 <= k < |ps| ==> (ps[k].required <==> k == 0)
    ensures forall k :: 0 <= k < |ps| ==> ps[k].default == Null
  {
    [
      NewParameter("action", "string", ActionText, required := true),
      NewParameter("tool_name", "string", ToolNameText, required := false),
      NewParameter("arguments", "object", ArgumentsText, required := false),
      NewParameter("uri", "string", UriText, required := false),
      NewParameter("prompt_name", "string", PromptNameText, required := false),
      NewParameter("prompt_arguments", "object", PromptArgumentsText, required := false)
    ]
  }

  /** The static face of an MCP tool. */
  function Descriptor(m: McpTool): Tool {
    Tool(m.name, m.description, Parameters())
  }

  /** `MCPTool.run` is a stub: it returns `None` whatever it is given. */
  function Run(m: McpTool, parameters: map<string, Value>): (r: Value)
    ensures r == Null && !Truthy(r)
  {
    Null
  }

  /** The tool `auto_expand_tools` builds for one discovered entry. The
      source passes no parameters to `Tool(...)` and never gets past that
      call, so the empty parameter list is this model's choice for the
      intended descriptor. */
  function ExpandEntry(parentName: string, e: ToolEntry): (t: Tool)
    ensures t.name == parentName + "_" + e.name
    ensures t.description == Some(e.description.GetOr(""))
  {
    Tool(parentName + "_" + e.name, Some(e.description.GetOr("")), [])
  }

  /** The message Python gives when a class with abstract methods is instantiated. */
  const AbstractToolError: Error :=
    TypeError("Can't instantiate abstract class Tool without an implementation for abstract methods 'get_parameters', 'run'")

  /** `auto_expand_tools` AS WRITTEN: it calls `Tool(...)`, and `Tool` is an
      abstract base class, so the first discovered entry raises `TypeError`.
      Only the cases that never reach that call return normally. */
  function AutoExpandToolsAsWritten(m: McpTool): (r: Result<Option<seq<Tool>>>)
    ensures !m.autoExpand ==> r == Ok(None)
    ensures m.autoExpand && m.available == [] ==> r == Ok(Some([]))
    ensures m.autoExpand && m.available != [] ==> r == Err(AbstractToolError)
  {
    if !m.autoExpand then Ok(None)
    else if m.available == [] then Ok(Some([]))
    else Err(AbstractToolError)
  }

  /** `auto_expand_tools` as evidently intended: `None` when the tool does not
      expand, else one descriptor per discovered entry, in discovery order. */
  function AutoExpandTools(m: McpTool): (r: Option<seq<Tool>>)
    ensures r.None? <==> !m.autoExpand
    ensures r.Some? ==> |r.value| == |m.available|
    ensures r.Some? ==> forall k :: 0 <= k < |r.value| ==> r.value[k] == ExpandEntry(m.name, m.available[k])
  {
    if !m.autoExpand then None
    else Some(seq(|m.available|, k requires 0 <= k < |m.available| => ExpandEntry(m.name, m.available[k])))
  }

  /** The discrepancy: for any expanding tool that discovered at least one
      entry, the code as written raises where the intended expansion returns
      a non-empty list; on every other input the two agree. */
  lemma AutoExpandAsWrittenDiverges(m: McpTool)
    ensures m.autoExpand && m.available != [] ==>
              AutoExpandToolsAsWritten(m).Err? && AutoExpandTools(m).Some? && |AutoExpandTools(m).value| > 0
    ensures !(m.autoExpand && m.available != []) ==>
              AutoExpandToolsAsWritten(m) == Ok(AutoExpandTools(m))
  {
  }

  /** A concrete instance: a server exposing one tool `add`. */
  lemma AutoExpandAsWrittenCounterexample()
    ensures var m := NewMcpTool(Ok([ToolEntry("add", Some("adds"), Dict(map[]))]), name := "calc");
            AutoExpandToolsAsWritten(m) == Err(AbstractToolError)
            && AutoExpandTools(m) == Some([Tool("calc_add", Some("adds"), [])])
  {
    var m := NewMcpTool(Ok([ToolEntry("add", Some("adds"), Dict(map[]))]), name := "calc");
    assert m.available == [ToolEntry("add", Some("adds"), Dict(map[]))];
    assert "calc" + "_" + "add" == "calc_add";
    var r := AutoExpandTools(m).value;
    assert |r| == 1 && r[0] == Tool("calc_add", Some("adds"), []);
    assert r == [Tool("calc_add", Some("adds"), [])];
  }

  /** Expanded names are the server tool's prefix followed by the entry name,
      so each is strictly longer than the parent's name and never equals it. */
  lemma ExpandedNamesUsePrefix(m: McpTool)
    requires m.autoExpand && m.prefix == Prefix(m.name, m.autoExpand)
    ensures forall k :: 0 <= k < |m.available| ==>
              AutoExpandTools(m).value[k].name == m.prefix + m.available[k].name
              && AutoExpandTools(m).value[k].name != m.name
  {
    forall k | 0 <= k < |m.available|
      ensures AutoExpandTools(m).value[k].name != m.name
    {
      assert |AutoExpandTools(m).value[k].name| > |m.name|;
    }
  }

  /** A failed discovery leaves nothing to expand: an expanding tool then
      yields the empty list, and a non-expanding one `None`. */
  lemma FailedDiscoveryExpandsToNothing(e: Error, name: string, autoExpand: bool)
    ensures var m := NewMcpTool(Err(e), name := name, autoExpand := autoExpand);
            AutoExpandTools(m) == (if autoExpand then Some([]) else None)
  {
  }
}
