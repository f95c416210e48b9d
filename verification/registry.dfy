/** `tools/registry.py`: the name-to-tool map an agent dispatches against.
    `get_tool` and `get_tool_descriptions` are called by the agents but are
    not defined in `registry.py`; `GetTool` assumes the evident map lookup
    (`None` on a miss), and the description text is treated as an opaque
    string by its callers. */
module Registry {
  import opened Wrappers
  import opened Values
  import opened Tools
  import opened McpTools

  /** The tools a registry may hold: a user-defined subclass of `Tool`, an MCP
      server tool, or a tool built by MCP expansion. Only `McpServer` has the
      `auto_expand` attribute `register_tool` probes for. */
  datatype AnyTool =
    | Custom(tool: Tool)
    | McpServer(mcp: McpTool)
    | Expanded(tool: Tool)
  {
    function Name(): string {
      match this
      case Custom(t) => t.name
      case McpServer(m) => m.name
      case Expanded(t) => t.name
    }

    /** `get_parameters()`. */
    function Parameters(): seq<ToolParameter> {
      match this
      case Custom(t) => t.parameters
      case McpServer(_) => McpTools.Parameters()
      case Expanded(t) => t.parameters
    }
  }

  /** `_tools` and `_functions` (the latter is never written). */
  datatype ToolRegistry = ToolRegistry(tools: map<string, AnyTool>, functions: map<string, Value>)

  /** `ToolRegistry()`: both maps empty. */
  function NewRegistry(): (r: ToolRegistry)
    ensures forall name :: GetTool(r, name).None?
  {
    ToolRegistry(map[], map[])
  }

  /** The assumed `get_tool`: the registered tool, or `None`. */
  function GetTool(reg: ToolRegistry, name: string): (r: Option<AnyTool>)
    ensures r.Some? <==> name in reg.tools
    ensures r.Some? ==> r.value == reg.tools[name]
  {
    if name in reg.tools then Some(reg.tools[name]) else None
  }

  /** `for t in ts: self._tools[t.name] = t`. */
  function StoreAll(tools: map<string, AnyTool>, ts: seq<Tool>): map<string, AnyTool> {
    if |ts| == 0 then tools
    else StoreAll(tools, ts[..|ts| - 1])[ts[|ts| - 1].name := Expanded(ts[|ts| - 1])]
  }

  function Names(ts: seq<Tool>): set<string> {
    set k | 0 <= k < |ts| :: ts[k].name
  }

  /** `ts[i]` is the last tool in `ts` carrying its name. */
  predicate LastWithName(ts: seq<Tool>, i: int)
    requires 0 <= i < |ts|
  {
    forall j :: i < j < |ts| ==> ts[j].name != ts[i].name
  }

  lemma NamesSnoc(ts: seq<Tool>)
    requires |ts| > 0
    ensures Names(ts) == Names(ts[..|ts| - 1]) + {ts[|ts| - 1].name}
  {
    var init := ts[..|ts| - 1];
    forall n | n in Names(ts) ensures n in Names(init) + {ts[|ts| - 1].name} {
      var k :| 0 <= k < |ts| && ts[k].name == n;
      if k < |ts| - 1 { assert init[k] == ts[k]; }
    }
    forall n | n in Names(init) ensures n in Names(ts) {
      var k :| 0 <= k < |init| && init[k].name == n;
      assert ts[k] == init[k];
    }
  }

  /** After storing a list of tools: every name in the list maps to the last
      tool with that name, and every other entry is as it was. */
  lemma {:induction false} StoreAllContents(tools: map<string, AnyTool>, ts: seq<Tool>)
    ensures StoreAll(tools, ts).Keys == tools.Keys + Names(ts)
    ensures forall i :: 0 <= i < |ts| && LastWithName(ts, i) ==> StoreAll(tools, ts)[ts[i].name] == Expanded(ts[i])
    ensures forall name :: name in tools && name !in Names(ts) ==> StoreAll(tools, ts)[name] == tools[name]
  {
    if |ts| > 0 {
      var init := ts[..|ts| - 1];
      StoreAllContents(tools, init);
      NamesSnoc(ts);
      LastWithNameSnoc(ts, init, StoreAll(tools, init));
    }
  }

  /** Storing the last tool on top of a map in which the earlier tools'
      last occurrences win keeps the last occurrences winning. */
  lemma LastWithNameSnoc(ts: seq<Tool>, init: seq<Tool>, m: map<string, AnyTool>)
    requires |ts| > 0 && init == ts[..|ts| - 1]
    requires forall i :: 0 <= i < |init| ==> init[i].name in m
    requires forall i :: 0 <= i < |init| && LastWithName(init, i) ==> m[init[i].name] == Expanded(init[i])
    ensures forall i :: 0 <= i < |ts| && LastWithName(ts, i) ==>
              m[ts[|ts| - 1].name := Expanded(ts[|ts| - 1])][ts[i].name] == Expanded(ts[i])
  {
    var last := ts[|ts| - 1];
    forall i | 0 <= i < |ts| && LastWithName(ts, i)
      ensures m[last.name := Expanded(last)][ts[i].name] == Expanded(ts[i])
    {
      if i < |ts| - 1 {
        assert ts[i].name != last.name;
        assert init[i] == ts[i];
        assert LastWithName(init, i);
      }
    }
  }

  /** Whether `register_tool(tool, auto_expand)` reaches the store loop:
      expansion was asked for, the tool has a true `auto_expand` attribute,
      and expansion produced a non-empty list. */
  predicate Expands(t: AnyTool, autoExpand: bool) {
    autoExpand && t.McpServer? && t.mcp.autoExpand && t.mcp.available != []
  }

  /** `register_tool`, with expansion as `AutoExpandTools` defines it. As
      written, nothing is stored in any case other than a successful
      non-empty expansion, and the parent tool itself is never stored. */
  function RegisterTool(reg: ToolRegistry, t: AnyTool, autoExpand: bool): (r: ToolRegistry)
    ensures !Expands(t, autoExpand) ==> r == reg
    ensures r.functions == reg.functions
  {
    if autoExpand && t.McpServer? && t.mcp.autoExpand then
      match AutoExpandTools(t.mcp)
      case Some(ts) =>
        if |ts| > 0 then reg.(tools := StoreAll(reg.tools, ts)) else reg
      case None => reg
    else reg
  }

  /** `register_tool` with expansion AS WRITTEN: an expansion that reaches a
      discovered entry raises `TypeError` out of `auto_expand_tools`, so the
      store loop never runs and the registry is left as it was. */
  function RegisterToolAsWritten(reg: ToolRegistry, t: AnyTool, autoExpand: bool): (r: Result<ToolRegistry>)
    ensures r.Err? <==> Expands(t, autoExpand)
    ensures r.Err? ==> r.error == AbstractToolError
    ensures r.Ok? ==> r.value == reg
  {
    if autoExpand && t.McpServer? && t.mcp.autoExpand then
      match AutoExpandToolsAsWritten(t.mcp)
      case Err(e) => Err(e)
      case Ok(Some(ts)) => if |ts| > 0 then Ok(reg.(tools := StoreAll(reg.tools, ts))) else Ok(reg)
      case Ok(None) => Ok(reg)
    else Ok(reg)
  }

  /** The registration as written and the one with the intended expansion
      agree except where the intended one stores an expansion: there the
      one as written raises instead. */
  lemma RegisterToolAsWrittenDiverges(reg: ToolRegistry, t: AnyTool, autoExpand: bool)
    ensures !Expands(t, autoExpand) ==> RegisterToolAsWritten(reg, t, autoExpand) == Ok(RegisterTool(reg, t, autoExpand))
    ensures Expands(t, autoExpand) ==>
              RegisterToolAsWritten(reg, t, autoExpand).Err?
              && RegisterTool(reg, t, autoExpand).tools.Keys == reg.tools.Keys + Names(AutoExpandTools(t.mcp).value)
  {
    if Expands(t, autoExpand) {
      RegisterToolStoresExpansion(reg, t, autoExpand);
    }
  }

  /** What an expanding registration stores: each expanded tool under its own
      name (the last one wins among equal names), nothing else changes, and the
      parent's own name keeps whatever it mapped to before. */
  lemma RegisterToolStoresExpansion(reg: ToolRegistry, t: AnyTool, autoExpand: bool)
    requires Expands(t, autoExpand)
    ensures var ts := AutoExpandTools(t.mcp).value;
            var r := RegisterTool(reg, t, autoExpand);
            && r.tools.Keys == reg.tools.Keys + Names(ts)
            && (forall i :: 0 <= i < |ts| && LastWithName(ts, i) ==> r.tools[ts[i].name] == Expanded(ts[i]))
            && (forall name :: name in reg.tools && name !in Names(ts) ==> r.tools[name] == reg.tools[name])
            && (forall name :: name in r.tools ==> r.tools[name].Expanded? || (name in reg.tools && r.tools[name] == reg.tools[name]))
            && (t.Name() in r.tools <==> t.Name() in reg.tools)
            && (t.Name() in r.tools ==> r.tools[t.Name()] == reg.tools[t.Name()])
  {
    var ts := AutoExpandTools(t.mcp).value;
    StoreAllContents(reg.tools, ts);
    var r := RegisterTool(reg, t, autoExpand);
    forall name | name in r.tools
      ensures r.tools[name].Expanded? || (name in reg.tools && r.tools[name] == reg.tools[name])
    {
      if name in Names(ts) {
        var i :| 0 <= i < |ts| && ts[i].name == name;
        var j := LastIndex(ts, i);
        assert r.tools[name] == Expanded(ts[j]);
      }
    }
    assert t.Name() !in Names(ts);
  }

  /** The index of the last tool in `ts` that has the same name as `ts[i]`. */
  ghost function LastIndex(ts: seq<Tool>, i: int): (j: int)
    requires 0 <= i < |ts|
    ensures i <= j < |ts| && ts[j].name == ts[i].name && LastWithName(ts, j)
    decreases |ts| - i
  {
    if exists j :: i < j < |ts| && ts[j].name == ts[i].name then
      var j :| i < j < |ts| && ts[j].name == ts[i].name;
      LastIndex(ts, j)
    else i
  }
}
