# chick_agent tool-call core, modelled in Dafny

chick_agent is a small Python agent framework. An agent keeps a conversation
history, sends it to a chat model through an OpenAI-compatible client, and lets
the model call tools by writing directives of the form
`[TOOL_CALL:<name>:<parameters>]` into its reply. Tools are held in a registry.
An MCP server tool can be *expanded* into one tool per tool the server offers.

This project models that core as immutable datatypes and pure functions. It
proves what each operation promises:

- **Directives** (`directives.dfy`): the directive regular expression and
  `re.findall`. A match at a position is unique. The matches reported are
  exactly the leftmost non-overlapping ones. Each parsed call carries the
  stripped name and parameters, plus an `original` that is the matched text.
  A written directive parses back to itself.
- **Parameters** (`tool_params.dfy`): `_parse_tool_parameters` and
  `_convert_parameter_types`. Covered:
  - the `k=v,k=v` splitting;
  - the unpacking error;
  - last-wins keys;
  - the key-preserving coercion of declared `integer`, `number` and `boolean`
    parameters;
  - round trips from written pairs.
- **BasicAgent** (`basic_agent.dfy`):
  - the reply texts of `_execute_tool_call`, which can be read back without
    ambiguity;
  - the system prompt with the tool instructions;
  - `add_tool`;
  - the reply collection of `_execute_llm`;
  - the `run` stub.
- **SimpleAgent** (`simple_agent.dfy`):
  - the outbound message list `[system] + history + [user]`;
  - `run`;
  - `stream_run`, which yields the pieces unchanged and then records the
    exchange;
  - `add_tool`.
- **Agent** (`agent.py`, modelled in `agent.dfy`): the constructor guard, and
  the append-only history with `clear`.
- **Registry and MCP tool** (`registry.dfy`, `mcp_tool.dfy`, `tool.dfy`):
  - registration with expansion;
  - the MCP tool's fixed parameter list and its prefixed expansion;
  - the tool's dictionary form, with a round trip.
- **MCP client** (`mcp_client.dfy`):
  - the transport chosen for a server source;
  - the reshaping of `list_tools` and `call_tool` results;
  - the not-connected guards.
- **Model client** (`llm.dfy`):
  - provider normalisation and credential precedence, with the environment as
    a map;
  - the default model and timeout;
  - the header framing of streamed replies in `think`;
  - the reasoning prefix of `invoke`.
- **Support modules** (`text.dfy`, `values.dfy`, `wrappers.dfy`):
  - `str.strip`, `split`, `lower` and string joining;
  - Python values, `int()` and `float()` on text;
  - `Option` and `Result`.

The model transport, tool code supplied by users, and the process environment
are inputs:
- a streamed reply is a sequence of chunks;
- a non-streamed reply is a message;
- a user tool's `run` is a function argument;
- the environment is a map.

`ToolRegistry.get_tool` and `get_tool_descriptions` are called by the agents but
are not defined in `src/chick_agent/tools/registry.py`:
- `Registry.GetTool` assumes the evident map lookup, with `None` on a miss;
- the description text is an opaque string argument of
  `BasicAgents.SystemToolPrompt`.

`register_tool`'s own store loop is modelled as written: it stores the
expanded tools when an MCP tool expands to a non-empty list, in every other
case it stores nothing, and it never stores the parent tool.
`Registry.RegisterTool`, which the agents' `add_tool` uses, feeds that loop
the intended expansion of the Findings row below.
`Registry.RegisterToolAsWritten` uses the expansion as written instead. There,
every expansion that reaches a discovered entry raises `TypeError`, and
nothing is stored.

## Model

| member | source | states |
|---|---|---|
| Agents.NewAgent | src/chick_agent/core/agent.py:9-22 | construction fails with the `LLMException` message exactly when no client is given; history starts empty; the name and system prompt are stored as given; config is the given one or the defaults of `Config()` |
| Agents.AddMessage | src/chick_agent/core/agent.py:28-29 | one message appended at the end, earlier entries and all other fields unchanged |
| Agents.ClearHistory | src/chick_agent/core/agent.py:31-32 | history emptied, all other fields unchanged |
| Agents.AddMessagesAppend | src/chick_agent/core/agent.py:28-29 | adding messages one by one appends them to the history in order and changes no other field |
| Agents.GetHistory | src/chick_agent/core/agent.py:34-35 | the recorded messages themselves; `Agents.HistoryInInsertionOrder` gives their order |
| Agents.HistoryInInsertionOrder | src/chick_agent/core/agent.py:28-35 | after adding messages one by one the history is the old history followed by them in insertion order; after a clear it is exactly them |
| BasicAgents.NewBasicAgent | src/chick_agent/agent/basic_agent.py:37-50 | tool calling starts off; a fresh registry holds no tool; a given registry is kept; fails exactly as the base constructor does |
| BasicAgents.AddTool | src/chick_agent/agent/basic_agent.py:156-158 | tool calling switched on and the registry updated by `register_tool` with the same `auto_expand`; the rest of the agent unchanged |
| BasicAgents.AddToolLookups | src/chick_agent/agent/basic_agent.py:156-158 | adding a non-expanding tool changes no lookup (so it stays unknown); adding an expanding MCP tool makes every `<prefix><entry>` name resolvable; the added tool's own name resolves as before |
| BasicAgents.RunTool | src/chick_agent/agent/basic_agent.py:75-76 | an MCP server tool's stub result prints as `None`; any other tool's outcome is the supplied `run` |
| BasicAgents.ReadReport | src/chick_agent/agent/basic_agent.py:72-78 | a report read back from a reply text re-renders to that text |
| BasicAgents.ReportRoundTrip | src/chick_agent/agent/basic_agent.py:72-78 | the not-found, success and failure texts never collide: reading any rendered report gives the report back, result or reason unchanged |
| BasicAgents.ExecuteToolCall | src/chick_agent/agent/basic_agent.py:69-78 | unknown tool gives `错误: 未找到工具 {name}`; a parse error gives `调用工具 {name} 失败: ` with the unpacking message; otherwise success `工具 {name} 执行结果\n{result}` or failure with the exception text; it never raises |
| BasicAgents.MalformedParametersReported | src/chick_agent/agent/basic_agent.py:84-92 | for a registered tool, text with an `=` and a comma-separated piece lacking one is reported as a failed call with `not enough values to unpack (expected 2, got 1)` |
| BasicAgents.McpServerCallReportsNone | src/chick_agent/agent/basic_agent.py:74-76 | a registered MCP server tool with well-formed parameters reports `工具 {name} 执行结果\nNone` |
| BasicAgents.BasicPrompt | src/chick_agent/agent/basic_agent.py:161 | the system prompt when truthy, else `你是一名有用的AI助手`; never empty |
| BasicAgents.SystemToolPrompt | src/chick_agent/agent/basic_agent.py:160-170 | the basic prompt alone when the descriptions are empty or `无可用工具`; otherwise the filled template, whose length is the sum of its parts; never empty |
| BasicAgents.SystemToolPromptParts | src/chick_agent/agent/basic_agent.py:166-168 | the filled template holds the basic prompt and the descriptions verbatim at fixed positions between the template's fixed text (doubled braces rendered single) |
| BasicAgents.Run | src/chick_agent/agent/basic_agent.py:65-67 | `run` answers the empty string and leaves the agent unchanged |
| BasicAgents.ExecuteLlm | src/chick_agent/agent/basic_agent.py:52-63 | streaming: the response is all pieces `think` yields joined in order, its length the sum of theirs; otherwise what `invoke` returns |
| SimpleAgents.NewSimpleAgent | src/chick_agent/agent/simple_agent.py:10-22 | fresh registry unless given; fails exactly as the base constructor does |
| SimpleAgents.HistoryEntries | src/chick_agent/agent/simple_agent.py:28-29 | one outbound entry per history message, same role and content, same order |
| SimpleAgents.Compose | src/chick_agent/agent/simple_agent.py:25-31 | the outbound list is the system prompt, then each history entry in order, then the user input; its length is the history's plus two |
| SimpleAgents.Record | src/chick_agent/agent/simple_agent.py:49-50 | exactly two messages appended, user input then assistant reply; nothing else changes |
| SimpleAgents.ComposeAfterRecord | src/chick_agent/agent/simple_agent.py:37-50 | the turn after a recorded one sends the recorded turn's list, then the assistant reply, then the new input |
| SimpleAgents.Run | src/chick_agent/agent/simple_agent.py:24-34 | the reply is `invoke` of the model's answer to the composed list; the agent, history included, is unchanged |
| SimpleAgents.StreamRun | src/chick_agent/agent/simple_agent.py:36-50 | yields exactly what `think` yields, unchanged and in order; then records the input and the join of the yielded pieces |
| SimpleAgents.AddTool | src/chick_agent/agent/simple_agent.py:52-54 | tool calling switched on and the registry updated by `register_tool` with the same `auto_expand` |
| Directives.RunEnd | src/chick_agent/agent/basic_agent.py:143 | a greedy character-class run ends at the first stop character or at the end of the text |
| Directives.MatchAt | src/chick_agent/agent/basic_agent.py:143 | a match found at `i` starts at `i` and satisfies the pattern |
| Directives.MatchAtExact | src/chick_agent/agent/basic_agent.py:143 | the matcher returns a span exactly when the pattern admits it at that position, so the match there is unique |
| Directives.Scan | src/chick_agent/agent/basic_agent.py:143-144 | matches lie at or after the start, both groups non-empty, in increasing non-overlapping order |
| Directives.ScanReportsMatches | src/chick_agent/agent/basic_agent.py:144 | every reported span is the pattern's match at its start |
| Directives.ScanSkipsNothing | src/chick_agent/agent/basic_agent.py:144 | any position where the pattern matches lies inside a reported match |
| Directives.CallsOf | src/chick_agent/agent/basic_agent.py:146-153 | one call per match |
| Directives.ParseToolCalls | src/chick_agent/agent/basic_agent.py:142-154 | one call per `findall` match |
| Directives.ParsedCall | src/chick_agent/agent/basic_agent.py:146-153 | the k-th call is built from the k-th match; its `original` is exactly the matched text |
| Directives.MatchGroups | src/chick_agent/agent/basic_agent.py:143 | the raw name is non-empty and colon-free; the raw parameters are non-empty and free of `]` |
| Directives.MatchedText | src/chick_agent/agent/basic_agent.py:151 | a match covers exactly `[TOOL_CALL:` + raw name + `:` + raw parameters + `]` |
| Directives.NoCallsIffNoMatch | src/chick_agent/agent/basic_agent.py:142-154 | the call list is empty exactly when the pattern matches nowhere |
| Directives.DirectiveRoundTrip | src/chick_agent/agent/basic_agent.py:143-151 | a directive written from a colon-free name and `]`-free parameters parses to one call with the stripped name and parameters |
| ToolParams.Pieces | src/chick_agent/agent/basic_agent.py:85-91 | at least one piece, none containing a comma |
| ToolParams.PiecesAreSplit | src/chick_agent/agent/basic_agent.py:85-91 | with or without a comma the pieces are those of `split(",")` and join back to the text |
| ToolParams.Entry | src/chick_agent/agent/basic_agent.py:88-89 | a piece yields an entry exactly when it contains `=` |
| ToolParams.Entries | src/chick_agent/agent/basic_agent.py:87-89 | one entry per piece, in order |
| ToolParams.Assign | src/chick_agent/agent/basic_agent.py:87-89 | when the loop fails, the failure is the unpacking `ValueError` |
| ToolParams.AssignContents | src/chick_agent/agent/basic_agent.py:87-92 | the dictionary exists exactly when every piece has `=`; its keys are the stripped names; each holds the value of the last piece with that name |
| ToolParams.PairsFailIffPieceLacksEquals | src/chick_agent/agent/basic_agent.py:86-88 | parsing the pieces fails exactly when one lacks `=` |
| ToolParams.ParamTypes | src/chick_agent/agent/basic_agent.py:107-109 | the declared names are the keys; a later declaration of a name wins |
| ToolParams.ConvertValue | src/chick_agent/agent/basic_agent.py:113-137 | integer and number text parsed when valid and kept otherwise; boolean text true iff lower-cased in {true, 1, yes, 是}; non-text booleans by truthiness; other types unchanged |
| ToolParams.ConvertValueIdempotent | src/chick_agent/agent/basic_agent.py:113-137 | converting a converted value changes nothing |
| ToolParams.ConvertReadsPrintedInt | src/chick_agent/agent/basic_agent.py:117-119 | a printed integer converts to that number always, and to that integer when it has at most 4300 digits; beyond that `int()` raises and the text is kept |
| ToolParams.ConvertParameterTypes | src/chick_agent/agent/basic_agent.py:96-140 | keys preserved; unknown tool or no declared parameters leaves the map unchanged; undeclared keys unchanged; declared keys converted by their type |
| ToolParams.ConvertParameterTypesIdempotent | src/chick_agent/agent/basic_agent.py:96-140 | coercing twice is coercing once |
| ToolParams.ParseToolParameters | src/chick_agent/agent/basic_agent.py:80-94 | text without `=` gives an empty dictionary; it fails exactly when it has `=` and a piece lacks one, with the unpacking error; otherwise the coerced dictionary |
| ToolParams.Assignments | src/chick_agent/agent/basic_agent.py:22-26 | one `name=value` piece per pair, in order |
| ToolParams.ParseFormattedParameters | src/chick_agent/agent/basic_agent.py:80-94 | pairs written as `k=v,k=v` always parse; for an unknown tool the keys are the stripped names and each holds the stripped value of its last pair |
| Text.Strip | src/chick_agent/agent/basic_agent.py:149-150 | never longer than its input |
| Text.StripUnique | src/chick_agent/agent/basic_agent.py:149-150 | the slice between whitespace-only margins that neither starts nor ends with whitespace is the stripped string; all whitespace strips to empty |
| Text.StripEdges | src/chick_agent/agent/basic_agent.py:149-150 | a stripped string is empty or starts and ends with non-whitespace |
| Text.StripIsTrimmedSlice | src/chick_agent/agent/basic_agent.py:149-150 | a stripped string is a slice with whitespace-only margins |
| Text.StripEmptyIffAllSpace | src/chick_agent/agent/basic_agent.py:89 | stripping gives the empty string exactly for all-whitespace text |
| Text.StripKeepsTrimmed | src/chick_agent/agent/basic_agent.py:149-150 | text without whitespace at either edge strips to itself |
| Text.StripIdempotent | src/chick_agent/agent/basic_agent.py:149-150 | stripping twice is stripping once |
| Text.Lower | src/chick_agent/agent/basic_agent.py:125 | same length, each character lower-cased |
| Text.LowerIdempotent | src/chick_agent/agent/basic_agent.py:125 | lower-casing twice is lower-casing once |
| Text.EscapeChar | src/chick_agent/core/llm.py:35 | a character is written as itself exactly when it is printable and neither the quote nor a backslash; otherwise a backslash escape |
| Text.Escape | src/chick_agent/core/llm.py:35 | the escaped text is never shorter, and is as long as the input exactly when nothing needs escaping, in which case it is the input |
| Text.Repr | src/chick_agent/core/llm.py:35 | the text between matching quotes, double exactly when it holds a single quote and no double quote; it is the text itself between the quotes exactly when nothing needs escaping |
| Text.TruncatedRepr | src/chick_agent/core/llm.py:35 | a prefix of the repr of at most the given width, the whole repr when it fits |
| Text.Split | src/chick_agent/agent/basic_agent.py:86 | at least one piece, none containing the separator |
| Text.SplitJoin | src/chick_agent/agent/basic_agent.py:86 | joining the pieces of a split gives the text back |
| Text.JoinSplit | src/chick_agent/agent/basic_agent.py:86 | splitting a join of separator-free pieces gives the pieces back |
| Text.SplitOnce | src/chick_agent/agent/basic_agent.py:88 | splits at the first separator; fails exactly when there is none |
| Text.SplitOnceUnique | src/chick_agent/agent/basic_agent.py:88 | a head without the separator, the separator and any tail split back into that head and tail |
| Text.ConcatAppend | src/chick_agent/agent/basic_agent.py:57-59 | joining a concatenation of piece lists is joining each and concatenating |
| Text.ConcatLength | src/chick_agent/agent/basic_agent.py:57-59 | the joined text's length is the sum of the pieces' lengths |
| Values.SignOf | src/chick_agent/agent/basic_agent.py:119 | the sign is +1 or -1 and the rest is a suffix of the text |
| Values.IntRoundTrip | src/chick_agent/agent/basic_agent.py:119 | every printed integer is a literal denoting it; `int()` reads it back exactly when it has at most 4300 digits, and otherwise reports the digit limit with the digit count |
| Values.IntErrorMessage | src/chick_agent/core/llm.py:35 | the `ValueError` text of `int()`: the digit-limit message for over-long literals, else the invalid-literal message with the text's repr, at most 200 characters of it |
| Values.InvalidLiteralShowsText | src/chick_agent/core/llm.py:35 | short text with nothing to escape and no single quote is shown in single quotes as written |
| Values.InvalidLiteralShowsDoubleQuoted | src/chick_agent/core/llm.py:35 | short text holding a single quote and no double quote, with nothing else to escape, is shown in double quotes as written, so `LLM_TIMEOUT="it's"` is reported as `"it's"` |
| Values.ParseFloatExtendsParseInt | src/chick_agent/agent/basic_agent.py:119 | `float()` accepts every integer literal, with its value, whatever its length; so every text `int()` accepts, with the same value |
| Tools.NewParameterDefaults | src/chick_agent/tools/tool.py:6-11 | an omitted `required` is true and an omitted `default` is `None` |
| Tools.ParameterToDict | src/chick_agent/tools/tool.py:31 | a dumped parameter has exactly the five model fields |
| Tools.ParametersToList | src/chick_agent/tools/tool.py:31 | one dumped parameter per parameter, in order |
| Tools.ToDict | src/chick_agent/tools/tool.py:27-32 | exactly the keys name, description and parameters; parameters in order |
| Tools.ParameterRoundTrip | src/chick_agent/tools/tool.py:31 | the dump of one parameter, read back, gives the parameter: all five fields survive |
| Tools.ParametersRoundTrip | src/chick_agent/tools/tool.py:31 | dumped parameters read back to the parameters |
| Tools.ToDictRoundTrip | src/chick_agent/tools/tool.py:27-32 | the dictionary form reads back to the tool |
| McpTools.Discovered | src/chick_agent/tools/mcp_tool.py:52-81 | any discovery failure leaves the discovered list empty; success keeps the listed tools |
| McpTools.DiscoverySource | src/chick_agent/tools/mcp_tool.py:56 | the server object when given, else the server command |
| McpTools.NewMcpTool | src/chick_agent/tools/mcp_tool.py:11-31 | name, description and `auto_expand` stored; the discovered list is the discovery outcome |
| McpTools.Prefix | src/chick_agent/tools/mcp_tool.py:26 | `<name>_` for an expanding tool, empty exactly when the tool does not expand; `McpTools.ExpandedNamesUsePrefix` ties it to the expanded names |
| McpTools.Run | src/chick_agent/tools/mcp_tool.py:123-124 | the stub returns `None` whatever it is given; `BasicAgents.McpServerCallReportsNone` shows the resulting report |
| McpTools.Parameters | src/chick_agent/tools/mcp_tool.py:83-121 | six parameters in fixed order, only `action` required, none with a default |
| McpTools.ExpandEntry | src/chick_agent/tools/mcp_tool.py:38-40 | name is `<parent>_<entry>`; description defaults to the empty string |
| McpTools.AutoExpandToolsAsWritten | src/chick_agent/tools/mcp_tool.py:33-50 | as written: `None` when not expanding, `[]` for no entries, `TypeError` from instantiating the abstract `Tool` otherwise |
| McpTools.AutoExpandTools | src/chick_agent/tools/mcp_tool.py:33-50 | `None` exactly when not expanding; else one tool per discovered entry, in discovery order |
| McpTools.AutoExpandAsWrittenDiverges | src/chick_agent/tools/mcp_tool.py:36-49 | the written code raises exactly where the intended expansion is non-empty; elsewhere the two agree |
| McpTools.AutoExpandAsWrittenCounterexample | src/chick_agent/tools/mcp_tool.py:37-49 | a server with one tool `add` under `calc`: the written code raises, the intended one gives `calc_add` |
| McpTools.ExpandedNamesUsePrefix | src/chick_agent/tools/mcp_tool.py:26 | expanded names are the prefix followed by the entry name and never equal the parent's name |
| McpTools.FailedDiscoveryExpandsToNothing | src/chick_agent/tools/mcp_tool.py:80-81 | after a failed discovery an expanding tool expands to `[]`, a non-expanding one to `None` |
| McpClient.EnvOrNone | src/chick_agent/protocols/mcp/client.py:29 | an empty environment is passed as `None`, any other unchanged |
| McpClient.PrepareServerSource | src/chick_agent/protocols/mcp/client.py:22-49 | `.py` text selects PythonStdio; other text selects Stdio; a non-empty list selects Stdio with head and tail plus extra args; anything else unchanged |
| McpClient.CommandLinePreserved | src/chick_agent/protocols/mcp/client.py:40-47 | a non-empty command line is started as given followed by the extra arguments |
| McpClient.NewClient | src/chick_agent/protocols/mcp/client.py:6-19 | not connected; the transport is prepared from the defaulted arguments |
| McpClient.NormaliseTool | src/chick_agent/protocols/mcp/client.py:80-86 | name kept; missing description becomes `""`; missing schema becomes `{}` |
| McpClient.ListTools | src/chick_agent/protocols/mcp/client.py:63-88 | raises when not connected; else one entry per listed tool in order, normalised |
| McpClient.ItemValues | src/chick_agent/protocols/mcp/client.py:106-108 | one value per content item, in order |
| McpClient.CallTool | src/chick_agent/protocols/mcp/client.py:90-109 | raises when not connected; empty or absent content gives `None`; one item gives its text, else its data, else a one-item list; several give the list of their values |
| McpClient.CallToolUnwrapsSingle | src/chick_agent/protocols/mcp/client.py:99-108 | a single item with text or data is unwrapped; any other non-empty content is the list of item values |
| Registry.NewRegistry | src/chick_agent/tools/registry.py:5-7 | a fresh registry holds no tool |
| Registry.GetTool | src/chick_agent/agent/basic_agent.py:71 | the tool registered under the name, or `None` exactly when there is none |
| Registry.StoreAllContents | src/chick_agent/tools/registry.py:14-15 | every name in the list maps to the last tool with that name; other entries unchanged |
| Registry.RegisterTool | src/chick_agent/tools/registry.py:9-17 | unless the tool expands to a non-empty list, the registry is unchanged |
| Registry.RegisterToolAsWritten | src/chick_agent/tools/registry.py:9-17 | with the expansion as written: raises the abstract-class `TypeError` exactly when the tool would expand to a non-empty list, and otherwise leaves the registry unchanged |
| Registry.RegisterToolAsWrittenDiverges | src/chick_agent/tools/registry.py:9-17 | registration as written and with the intended expansion agree except where the intended one stores an expansion, which the one as written raises on |
| Registry.RegisterToolStoresExpansion | src/chick_agent/tools/registry.py:9-17 | an expansion adds exactly the expanded names, the last of each name wins, other entries are unchanged, and the parent's own name is never stored |
| Llm.NormaliseProvider | src/chick_agent/core/llm.py:38-40 | `None` exactly when no provider is given; otherwise an already lower-case text as long as the argument |
| Llm.ResolveCredentials | src/chick_agent/core/llm.py:50-70 | a given key or url wins; openai and deepseek always get a url; an unresolved key is what `LLM_API_KEY` held; `Llm.ResolveCredentialsPrecedence` gives the full order |
| Llm.DefaultModel | src/chick_agent/core/llm.py:72-78 | openai gets `gpt-3.5-turbo`, deepseek gets `deepseek-reasoner`, any other provider, `None` included, gets `deepseek-chat` |
| Llm.DefaultModelFollowsProvider | src/chick_agent/core/llm.py:38-40 | a provider argument lower-casing to openai or deepseek picks that provider's model; a missing or empty one picks `deepseek-chat` whatever `LLM_PROVIDER` holds |
| Llm.FirstPresent | src/chick_agent/core/llm.py:54-69 | a chain of `or` gives the first truthy candidate, or the last one when none is truthy |
| Llm.NormaliseProviderIgnoresEnv | src/chick_agent/core/llm.py:38-40 | the provider is the lower-cased argument when given, else `None`; `LLM_PROVIDER` never matters |
| Llm.ResolveCredentialsPrecedence | src/chick_agent/core/llm.py:50-70 | key and url are the first truthy entries of the provider's precedence lists; openai and deepseek always have a url |
| Llm.ResolveTimeout | src/chick_agent/core/llm.py:35 | a non-zero argument wins; else `LLM_TIMEOUT` (default `60`) parsed as an integer is the value, and when `int()` cannot read it the result is `int()`'s `ValueError` with its message |
| Llm.TimeoutFromEnvironment | src/chick_agent/core/llm.py:35 | without a non-zero argument, an integer of at most 4300 digits written into `LLM_TIMEOUT` is the timeout; a longer one fails with the digit-limit `ValueError` |
| Llm.DefaultTimeout | src/chick_agent/core/llm.py:35 | with neither argument nor variable the timeout is 60 |
| Llm.NewLlm | src/chick_agent/core/llm.py:19-47 | construction succeeds exactly when the timeout parses and both credentials are found, raising the missing-credentials error otherwise; the model is the argument, else `LLM_MODEL_ID`, else the provider's default; key, url, provider and timeout are the resolved ones |
| Llm.ThinkFrom | src/chick_agent/core/llm.py:103-120 | the loop of `think` over tagged pieces: at most four per chunk (two headers, two texts); the lemmas below characterise its content |
| Llm.Think | src/chick_agent/core/llm.py:88-120 | the strings `think` yields, at most four per chunk |
| Llm.ThinkYieldsNoEmpty | src/chick_agent/core/llm.py:107-120 | `think` never yields an empty string: headers are fixed non-empty texts and a text is yielded only when it is non-empty |
| Llm.ThinkTexts | src/chick_agent/core/llm.py:103-120 | every non-empty reasoning and content piece is yielded, on its channel, in stream order; empty pieces yield nothing |
| Llm.ThinkHeaderCount | src/chick_agent/core/llm.py:107-120 | each channel's header is yielded once if the channel carries a non-empty piece, and never otherwise |
| Llm.HeaderPrecedesText | src/chick_agent/core/llm.py:107-120 | each header is immediately followed by a non-empty piece of its channel |
| Llm.HeaderComesFirst | src/chick_agent/core/llm.py:107-120 | no piece of a channel is yielded before that channel's header |
| Llm.ThinkStopsAtEmptyChunk | src/chick_agent/core/llm.py:103-105 | nothing after the first chunk without choices is yielded |
| Llm.Invoke | src/chick_agent/core/llm.py:139-145 | the content, prefixed by the thinking frame iff the reasoning is non-empty; missing content prints as `None` |
| Llm.StreamFramingMatchesInvoke | src/chick_agent/core/llm.py:107-145 | a one-chunk stream joins to what `invoke` returns when there is reasoning, and to the answer header plus it when there is none |

## Left out

- Network and processes are left out: the OpenAI HTTP client, chat-completion calls, the MCP session lifecycle and the asynchronous, threaded discovery. Replies, stream chunks, listing results and discovery outcomes are inputs instead.
- `print` output, logging and the generator's suspension are left out. `stream_run` is modelled as returning the whole yielded sequence.
- Exceptions raised by the transport inside `think` and `invoke` are left out. So is their re-raising as `LLMException`.
- `temperature`, `max_tokens` and the extra keyword arguments passed to the model are left out. They only travel to the service.
- `core/config.py` loading from the environment and TOML is configuration I/O. Only the defaults of `Config()` are modelled.
- `core/message.py` is not part of this model. A message is modelled by its content and role.
- `tools/__init__.py` only re-exports names.
- `Registry.GetTool`: `get_tool` is not defined in `registry.py`. The evident map lookup is assumed.
- `get_tool_descriptions` is likewise not defined. Its result is an opaque string argument.
- `Values.ParseInt`: simplified `int()`. It accepts surrounding whitespace, an optional sign and one or more ASCII digits, up to CPython's default limit of 4300 digits. Underscores (`1_000`) and non-ASCII digits are not accepted, and a limit changed with `sys.set_int_max_str_digits()` is not modelled.
- `Values.ParseFloat`: simplified `float()`. It produces an exact decimal from sign, digits and at most one point. Exponents, `inf`, `nan`, underscores (`1_0.5`) and non-ASCII digits are not accepted. Binary floating-point rounding is not modelled. A `Float` holds the decimal as written, so `1.5` and `1.50` are equal numbers but unequal values in the model.
- `Text.Repr`: Python's `repr` escapes every non-printable character. The model escapes the ASCII controls, U+007F to U+00A0 and U+00AD, and writes every other non-ASCII character as itself. Python escapes separators, format characters and unassigned code points beyond U+00FF as `\uXXXX` or `\UXXXXXXXX`, so `Values.IntErrorMessage` shows such characters differently.
- `Text.Lower`: lower-cases ASCII letters only, not the full Unicode mapping. The only non-ASCII character whose lower case is ASCII is the Kelvin sign (U+212A), which becomes `k`. No boolean word (`true`, `1`, `yes`, `是`) contains `k`, so the boolean coercion is exact. A provider spelled with a Kelvin sign, which Python would read as `deepseek`, is not recognised by the model.
- `BasicAgents.SystemToolPrompt`: the template is stored with its two fields already cut out and its doubled braces already rendered. `str.format` itself is not modelled.
- `BasicAgents.RunTool`: a user tool's `run` is foreign code and comes in as a function argument. Exceptions that are not `Exception` subclasses are not modelled.
- `Registry.AnyTool`: only an MCP server tool carries `auto_expand`. In the source `register_tool` probes any tool for the attribute, so a user `Tool` subclass defining its own `auto_expand` and `auto_expand_tools` would expand too; such tools are not modelled.
- `McpTools.ExpandEntry`: the source passes no parameters to `Tool(...)` and raises before any descriptor exists. The empty parameter list of the intended descriptor is this model's choice.
- `SimpleAgents.SimpleAgent`: its constructor never sets `enable_tool_calling`. The model's `false` stands for the attribute being absent.

## Findings

| source | as written | input that shows it | evidently intended | confidence | as-written member | corrected member |
|---|---|---|---|---|---|---|
| src/chick_agent/tools/mcp_tool.py:38-48 | `auto_expand_tools` instantiates `Tool`, an abstract base class with abstract `run` and `get_parameters`, so Python raises `TypeError` | an MCP tool `calc` with `auto_expand=True` whose server lists one tool `add` | one descriptor per discovered entry named `calc_add`, with the entry's description, which the registry then stores | not executed | McpTools.AutoExpandToolsAsWritten | McpTools.AutoExpandTools |
