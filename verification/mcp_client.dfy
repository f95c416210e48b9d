/** `protocols/mcp/client.py`: choosing the transport for a server source and
    reshaping what the MCP library returns from `list_tools` and `call_tool`.
    The library's session objects are modelled by the small datatypes below;
    connecting and disconnecting are not modelled, only whether a session is open. */
module McpClient {
  import opened Wrappers
  import opened Values
  import opened Text

  /** What a caller may pass as `server_source`: a string (a script path or a
      command), a list of strings (a command line), or any other object (an
      in-process server, which is handed to the library unchanged). */
  datatype ServerSource =
    | Command(text: string)
    | CommandLine(argv: seq<string>)
    | OtherSource(handle: nat)

  /** The transport objects the client may build. */
  datatype Transport =
    | PythonStdio(scriptPath: string, args: seq<string>, env: Option<map<string, string>>)
    | Stdio(command: string, args: seq<string>, env: Option<map<string, string>>)
    | Unchanged(source: ServerSource)

  /** The state `MCPClient.__init__` keeps: `server_args or []`, `env or {}`
      and the prepared transport. `session` is true between entering and
      leaving `async with`. */
  datatype Client = Client(serverArgs: seq<string>, env: map<string, string>, transport: Transport, session: bool)

  const NotConnected: Error := RuntimeError("Client not connected. Use 'async with client:' context manager.")

  /** `env if env else None`: an empty environment is passed as `None`. */
  function EnvOrNone(env: map<string, string>): (r: Option<map<string, string>>)
    ensures r.None? <==> env == map[]
    ensures r.Some? ==> r.value == env
  {
    if env == map[] then None else Some(env)
  }

  /** `_prepare_server_source`. */
  function PrepareServerSource(source: ServerSource, serverArgs: seq<string>, env: map<string, string>): (t: Transport)
    ensures source.Command? && EndsWith(source.text, ".py") ==>
              t == PythonStdio(source.text, serverArgs, EnvOrNone(env))
    ensures source.Command? && !EndsWith(source.text, ".py") ==>
              t == Stdio(source.text, serverArgs, EnvOrNone(env))
    ensures source.CommandLine? && |source.argv| > 0 ==>
              t == Stdio(source.argv[0], source.argv[1..] + serverArgs, EnvOrNone(env))
    ensures source.CommandLine? && |source.argv| == 0 ==> t == Unchanged(source)
    ensures source.OtherSource? ==> t == Unchanged(source)
  {
    match source
    case Command(s) =>
      if EndsWith(s, ".py") then PythonStdio(s, serverArgs, EnvOrNone(env))
      else Stdio(s, serverArgs, EnvOrNone(env))
    case CommandLine(argv) =>
      if |argv| > 0 then Stdio(argv[0], argv[1..] + serverArgs, EnvOrNone(env))
      else Unchanged(source)
    case OtherSource(_) => Unchanged(source)
  }

  /** The command line a stdio transport will start, as a list of words. */
  function CommandWords(t: Transport): seq<string> {
    match t
    case PythonStdio(script, args, _) => [script] + args
    case Stdio(command, args, _) => [command] + args
    case Unchanged(_) => []
  }

  /** A non-empty command line is started exactly as given, followed by the
      extra server arguments, whatever its first word looks like. */
  lemma CommandLinePreserved(argv: seq<string>, serverArgs: seq<string>, env: map<string, string>)
    requires |argv| > 0
    ensures CommandWords(PrepareServerSource(CommandLine(argv), serverArgs, env)) == argv + serverArgs
  {
    assert [argv[0]] + (argv[1..] + serverArgs) == argv + serverArgs;
  }

  /** `MCPClient.__init__`: `None` arguments become empty, then the transport is prepared. */
  function NewClient(source: ServerSource, serverArgs: Option<seq<string>>, env: Option<map<string, string>>): (c: Client)
    ensures !c.session
    ensures c.transport == PrepareServerSource(source, serverArgs.GetOr([]), env.GetOr(map[]))
  {
    var args := serverArgs.GetOr([]);
    var e := env.GetOr(map[]);
    Client(args, e, PrepareServerSource(source, args, e), false)
  }

  /** A tool as the MCP library describes it. `description` is `None` when
      the server gave none; `inputSchema` is `None` when the object has no
      such attribute (the attribute itself may hold `None`, i.e. `Null`). */
  datatype McpToolInfo = McpToolInfo(name: string, description: Option<string>, inputSchema: Option<Value>)

  /** The shapes `client.list_tools()` may return. */
  datatype ListToolsResult =
    | WithTools(tools: seq<McpToolInfo>)
    | PlainList(items: seq<McpToolInfo>)
    | Unrecognised

  /** One dictionary of the list `list_tools` returns (keys name,
      description, input_schema). `description` is `None` only for entries
      that lack the key, which `list_tools` never produces. */
  datatype ToolEntry = ToolEntry(name: string, description: Option<string>, inputSchema: Value)

  function NormaliseTool(t: McpToolInfo): (e: ToolEntry)
    ensures e.name == t.name
    ensures e.description.Some?
    ensures t.description.None? ==> e.description == Some("")
    ensures t.inputSchema.None? ==> e.inputSchema == Dict(map[])
  {
    ToolEntry(
      t.name,
      Some(if t.description.None? then "" else t.description.value),
      if t.inputSchema.None? then Dict(map[]) else t.inputSchema.value)
  }

  function ResultTools(result: ListToolsResult): seq<McpToolInfo> {
    match result
    case WithTools(tools) => tools
    case PlainList(items) => items
    case Unrecognised => []
  }

  /** `list_tools`: raises when not connected, else one entry per listed tool,
      in order, with a missing description read as `""` and a missing schema
      as `{}`. */
  function ListTools(c: Client, result: ListToolsResult): (r: Result<seq<ToolEntry>>)
    ensures !c.session ==> r == Err(NotConnected)
    ensures c.session ==> r.Ok? && |r.value| == |ResultTools(result)|
    ensures c.session ==> forall k :: 0 <= k < |r.value| ==>
              r.value[k].name == ResultTools(result)[k].name
              && r.value[k].description.Some?
              && (ResultTools(result)[k].description.Some? ==> r.value[k].description == ResultTools(result)[k].description)
              && (ResultTools(result)[k].description.None? ==> r.value[k].description == Some(""))
              && (ResultTools(result)[k].inputSchema.None? ==> r.value[k].inputSchema == Dict(map[]))
              && (ResultTools(result)[k].inputSchema.Some? ==> r.value[k].inputSchema == ResultTools(result)[k].inputSchema.value)
  {
    if !c.session then Err(NotConnected)
    else
      var tools := ResultTools(result);
      Ok(seq(|tools|, k requires 0 <= k < |tools| => NormaliseTool(tools[k])))
  }

  /** One item of a tool call's `content`: the attributes it has. */
  datatype ContentItem = ContentItem(text: Option<string>, data: Option<Value>, repr: string)

  /** What `client.call_tool` returns: `content` is `None` when the object
      has no such attribute. */
  datatype CallToolResult = CallToolResult(content: Option<seq<ContentItem>>)

  /** `getattr(c, "text", getattr(c, "data", str(c)))`. */
  function ItemValue(c: ContentItem): Value {
    if c.text.Some? then Str(c.text.value)
    else if c.data.Some? then c.data.value
    else Str(c.repr)
  }

  function ItemValues(items: seq<ContentItem>): (r: seq<Value>)
    ensures |r| == |items|
    ensures forall k :: 0 <= k < |items| ==> r[k] == ItemValue(items[k])
  {
    if |items| == 0 then [] else [ItemValue(items[0])] + ItemValues(items[1..])
  }

  /** `call_tool`: raises when not connected; a single item gives its text or
      else its data; several items (or a single item with neither) give the
      list of their values; empty or absent content gives `None`. */
  function CallTool(c: Client, result: CallToolResult): (r: Result<Value>)
    ensures !c.session ==> r == Err(NotConnected)
    ensures c.session && (result.content.None? || result.content.value == []) ==> r == Ok(Null)
    ensures c.session && result.content.Some? && |result.content.value| == 1 ==>
              var item := result.content.value[0];
              (item.text.Some? ==> r == Ok(Str(item.text.value)))
              && (item.text.None? && item.data.Some? ==> r == Ok(item.data.value))
              && (item.text.None? && item.data.None? ==> r == Ok(List([Str(item.repr)])))
    ensures c.session && result.content.Some? && |result.content.value| > 1 ==>
              r.Ok? && r.value.List? && |r.value.items| == |result.content.value|
              && forall k :: 0 <= k < |r.value.items| ==> r.value.items[k] == ItemValue(result.content.value[k])
  {
    if !c.session then Err(NotConnected)
    else match result.content
      case None => Ok(Null)
      case Some(items) =>
        if |items| == 0 then Ok(Null)
        else if |items| == 1 && items[0].text.Some? then Ok(Str(items[0].text.value))
        else if |items| == 1 && items[0].data.Some? then Ok(items[0].data.value)
        else
          assert |items| == 1 ==> ItemValues(items) == [ItemValue(items[0])];
          Ok(List(ItemValues(items)))
  }

  /** The values `call_tool` returns are the item values of the content: a
      single item with text or data is unwrapped, any other non-empty content
      is returned as the list of its item values. */
  lemma CallToolUnwrapsSingle(c: Client, items: seq<ContentItem>)
    requires c.session && |items| > 0
    ensures |items| == 1 && (items[0].text.Some? || items[0].data.Some?) ==>
              CallTool(c, CallToolResult(Some(items))) == Ok(ItemValue(items[0]))
    ensures !(|items| == 1 && (items[0].text.Some? || items[0].data.Some?)) ==>
              CallTool(c, CallToolResult(Some(items))).value.List?
              && CallTool(c, CallToolResult(Some(items))).value.items == ItemValues(items)
  {
    var r := CallTool(c, CallToolResult(Some(items)));
    if |items| == 1 && (items[0].text.Some? || items[0].data.Some?) {
      assert r == Ok(ItemValue(items[0]));
    } else {
      assert r == Ok(List(ItemValues(items)));
    }
  }
}
