/** `tools/tool.py`: the parameter record and the static face of a tool (its
    name, description and declared parameters), with its dictionary form. */
module Tools {
  import opened Wrappers
  import opened Values

  /** One declared parameter of a tool. `ty` is the JSON-schema type name
      (`string`, `integer`, `number`, `boolean`, `object`). */
  datatype ToolParameter = ToolParameter(
    name: string,
    ty: string,
    description: string,
    required: bool,
    default: Value)

  /** Building a parameter the way the pydantic model does: `required` and
      `default` may be omitted. */
  function NewParameter(name: string, ty: string, description: string,
                        required: bool := true, default: Value := Null): ToolParameter
  {
    ToolParameter(name, ty, description, required, default)
  }

  /** A parameter built without `required` or `default` is required and has
      no default. */
  lemma NewParameterDefaults(name: string, ty: string, description: string)
    ensures NewParameter(name, ty, description).required
    ensures NewParameter(name, ty, description).default == Null
    ensures NewParameter(name, ty, description).name == name
  {
  }

  /** What the `Tool` constructor stores, plus what `get_parameters()` returns
      for that tool. `description` is `None` when the caller passed `None`. */
  datatype Tool = Tool(name: string, description: Option<string>, parameters: seq<ToolParameter>)

  /** `model_dump()` of a parameter. */
  function ParameterToDict(p: ToolParameter): (r: Value)
    ensures r.Dict? && r.entries.Keys == {"name", "type", "description", "required", "default"}
  {
    Dict(map[
      "name" := Str(p.name),
      "type" := Str(p.ty),
      "description" := Str(p.description),
      "required" := Bool(p.required),
      "default" := p.default])
  }

  function ParametersToList(ps: seq<ToolParameter>): (r: seq<Value>)
    ensures |r| == |ps|
    ensures forall k :: 0 <= k < |ps| ==> r[k] == ParameterToDict(ps[k])
  {
    if |ps| == 0 then [] else [ParameterToDict(ps[0])] + ParametersToList(ps[1..])
  }

  function OptionalText(s: Option<string>): Value {
    match s
    case None => Null
    case Some(t) => Str(t)
  }

  /** `Tool.to_dict()`: exactly the keys name/description/parameters, the last
      holding one dumped parameter per declared parameter, in order. */
  function ToDict(t: Tool): (r: Value)
    ensures r.Dict? && r.entries.Keys == {"name", "description", "parameters"}
    ensures r.entries["name"] == Str(t.name)
    ensures r.entries["parameters"].List? && |r.entries["parameters"].items| == |t.parameters|
    ensures forall k :: 0 <= k < |t.parameters| ==>
              r.entries["parameters"].items[k] == ParameterToDict(t.parameters[k])
  {
    Dict(map[
      "name" := Str(t.name),
      "description" := OptionalText(t.description),
      "parameters" := List(ParametersToList(t.parameters))])
  }

  /** Reads a dumped parameter back. */
  function ParameterFromDict(v: Value): Option<ToolParameter> {
    if v.Dict? && "name" in v.entries && "type" in v.entries && "description" in v.entries
       && "required" in v.entries && "default" in v.entries
       && v.entries["name"].Str? && v.entries["type"].Str? && v.entries["description"].Str?
       && v.entries["required"].Bool?
    then Some(ToolParameter(v.entries["name"].s, v.entries["type"].s, v.entries["description"].s,
                            v.entries["required"].b, v.entries["default"]))
    else None
  }

  function ParametersFromList(items: seq<Value>): Option<seq<ToolParameter>> {
    if |items| == 0 then Some([])
    else match (ParameterFromDict(items[0]), ParametersFromList(items[1..]))
      case (Some(p), Some(ps)) => Some([p] + ps)
      case _ => None
  }

  /** Reads a tool dictionary back into the tool it describes. */
  function FromDict(v: Value): Option<Tool> {
    if v.Dict? && "name" in v.entries && "description" in v.entries && "parameters" in v.entries
       && v.entries["name"].Str? && v.entries["parameters"].List?
       && (v.entries["description"].Null? || v.entries["description"].Str?)
    then
      var d := if v.entries["description"].Null? then None else Some(v.entries["description"].s);
      match ParametersFromList(v.entries["parameters"].items)
      case None => None
      case Some(ps) => Some(Tool(v.entries["name"].s, d, ps))
    else None
  }

  lemma {:induction false} ParametersRoundTrip(ps: seq<ToolParameter>)
    ensures ParametersFromList(ParametersToList(ps)) == Some(ps)
  {
    if |ps| > 0 {
      var items := ParametersToList(ps);
      assert items[1..] == ParametersToList(ps[1..]);
      ParametersRoundTrip(ps[1..]);
      ParameterRoundTrip(ps[0]);
      assert [ps[0]] + ps[1..] == ps;
    }
  }

  /** A dumped parameter reads back as itself. */
  lemma ParameterRoundTrip(p: ToolParameter)
    ensures ParameterFromDict(ParameterToDict(p)) == Some(p)
  {
    var e := ParameterToDict(p).entries;
    assert e["name"] == Str(p.name) && e["type"] == Str(p.ty);
    assert e["description"] == Str(p.description) && e["required"] == Bool(p.required);
    assert e["default"] == p.default;
  }

  /** The dictionary form loses nothing: reading it back gives the tool. */
  lemma ToDictRoundTrip(t: Tool)
    ensures FromDict(ToDict(t)) == Some(t)
  {
    var v := ToDict(t);
    ParametersRoundTrip(t.parameters);
    match t.description
    case None => assert v.entries["description"] == Null;
    case Some(d) => assert v.entries["description"] == Str(d);
  }
}
