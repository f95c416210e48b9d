/** `BasicAgent._parse_tool_parameters` and `_convert_parameter_types`
    (`agent/basic_agent.py`): turning the parameter text of a directive into
    a dictionary, then coercing the values of declared numeric and boolean
    parameters. */
module ToolParams {
  import opened Wrappers
  import opened Text
  import opened Values
  import opened Tools
  import opened Registry

  /** What `n, v = pair.split("=", maxsplit=1)` raises on a pair without `=`. */
  const UnpackError: Error := ValueError("not enough values to unpack (expected 2, got 1)")

  /** The pieces the text is cut into: on every `,` when there is one,
      otherwise the whole text. */
  function Pieces(parameters: string): (ps: seq<string>)
    ensures |ps| >= 1
    ensures forall k :: 0 <= k < |ps| ==> ',' !in ps[k]
  {
    if ',' in parameters then Split(parameters, ',') else [parameters]
  }

  /** With or without a comma, the pieces are those of splitting on `,`. */
  lemma PiecesAreSplit(parameters: string)
    ensures Pieces(parameters) == Split(parameters, ',')
    ensures Join(Pieces(parameters), ',') == parameters
  {
    if ',' !in parameters {
      JoinSplit([parameters], ',');
      assert Join([parameters], ',') == parameters;
    }
    SplitJoin(parameters, ',');
  }

  /** One `name=value` piece: both sides stripped, the value kept as text;
      `None` when the piece has no `=`. */
  function Entry(piece: string): (e: Option<(string, Value)>)
    ensures e.None? <==> '=' !in piece
  {
    match SplitOnce(piece, '=')
    case None => None
    case Some((n, v)) => Some((Strip(n), Str(Strip(v))))
  }

  function Entries(pieces: seq<string>): (es: seq<Option<(string, Value)>>)
    ensures |es| == |pieces|
    ensures forall k :: 0 <= k < |pieces| ==> es[k] == Entry(pieces[k])
  {
    if |pieces| == 0 then [] else [Entry(pieces[0])] + Entries(pieces[1..])
  }

  /** The loop `params[n.strip()] = v.strip()` over the parsed pieces, in
      order; the first piece without `=` raises. */
  function Assign(es: seq<Option<(string, Value)>>): (r: Result<map<string, Value>>)
    ensures r.Err? ==> r.error == UnpackError
  {
    if |es| == 0 then Ok(map[])
    else
      match Assign(es[..|es| - 1])
      case Err(e) => Err(e)
      case Ok(m) =>
        match es[|es| - 1]
        case None => Err(UnpackError)
        case Some((n, v)) => Ok(m[n := v])
  }

  function Pairs(pieces: seq<string>): Result<map<string, Value>> {
    Assign(Entries(pieces))
  }

  function Keys(es: seq<Option<(string, Value)>>): set<string> {
    set k | 0 <= k < |es| && es[k].Some? :: es[k].value.0
  }

  /** `es[k]` is the last entry assigning its name. */
  predicate LastAssignment(es: seq<Option<(string, Value)>>, k: int)
    requires 0 <= k < |es|
  {
    es[k].Some? && forall j :: k < j < |es| && es[j].Some? ==> es[j].value.0 != es[k].value.0
  }

  lemma KeysSnoc(es: seq<Option<(string, Value)>>)
    requires |es| > 0 && es[|es| - 1].Some?
    ensures Keys(es) == Keys(es[..|es| - 1]) + {es[|es| - 1].value.0}
  {
    var init := es[..|es| - 1];
    forall n | n in Keys(es) ensures n in Keys(init) + {es[|es| - 1].value.0} {
      var k :| 0 <= k < |es| && es[k].Some? && es[k].value.0 == n;
      if k < |es| - 1 { assert init[k] == es[k]; }
    }
    forall n | n in Keys(init) ensures n in Keys(es) {
      var k :| 0 <= k < |init| && init[k].Some? && init[k].value.0 == n;
      assert es[k] == init[k];
    }
  }

  /** The dictionary the loop builds: it raises exactly when some piece has
      no `=`; otherwise its keys are the stripped names and each maps to the
      stripped value of the last piece assigning it. */
  lemma {:induction false} AssignContents(es: seq<Option<(string, Value)>>)
    ensures Assign(es).Ok? <==> forall k :: 0 <= k < |es| ==> es[k].Some?
    ensures Assign(es).Ok? ==> Assign(es).value.Keys == Keys(es)
    ensures Assign(es).Ok? ==> forall k :: 0 <= k < |es| && LastAssignment(es, k) ==>
              Assign(es).value[es[k].value.0] == es[k].value.1
  {
    if |es| > 0 {
      var init := es[..|es| - 1];
      AssignContents(init);
      AllSomeSnoc(es, init);
      if Assign(es).Ok? {
        KeysSnoc(es);
        LastWinsSnoc(es, init, Assign(init).value);
      }
    }
  }

  /** Every entry of `es` is an assignment exactly when every entry before
      the last is and the last is too. */
  lemma AllSomeSnoc(es: seq<Option<(string, Value)>>, init: seq<Option<(string, Value)>>)
    requires |es| > 0 && init == es[..|es| - 1]
    ensures (forall k :: 0 <= k < |es| ==> es[k].Some?)
        <==> (forall k :: 0 <= k < |init| ==> init[k].Some?) && es[|es| - 1].Some?
  {
    assert forall k :: 0 <= k < |init| ==> init[k] == es[k];
  }

  /** Assigning the last entry on top of a dictionary in which the earlier
      entries' last assignments win keeps the last assignments winning. */
  lemma LastWinsSnoc(es: seq<Option<(string, Value)>>, init: seq<Option<(string, Value)>>, m: map<string, Value>)
    requires |es| > 0 && es[|es| - 1].Some? && init == es[..|es| - 1]
    requires Keys(init) <= m.Keys
    requires forall k :: 0 <= k < |init| && LastAssignment(init, k) ==> m[init[k].value.0] == init[k].value.1
    ensures forall k :: 0 <= k < |es| && LastAssignment(es, k) ==>
              m[es[|es| - 1].value.0 := es[|es| - 1].value.1][es[k].value.0] == es[k].value.1
  {
    var last := es[|es| - 1].value;
    forall k | 0 <= k < |es| && LastAssignment(es, k)
      ensures m[last.0 := last.1][es[k].value.0] == es[k].value.1
    {
      if k < |es| - 1 {
        assert es[k].value.0 != last.0;
        assert init[k] == es[k];
        assert LastAssignment(init, k);
      }
    }
  }

  /** The same, read on the text pieces: parsing raises exactly when a piece
      lacks `=`. */
  lemma PairsFailIffPieceLacksEquals(pieces: seq<string>)
    ensures Pairs(pieces).Ok? <==> forall k :: 0 <= k < |pieces| ==> '=' in pieces[k]
  {
    AssignContents(Entries(pieces));
  }

  /** The declared type of each parameter name; a later declaration of the
      same name wins. */
  function ParamTypes(ps: seq<ToolParameter>): (types: map<string, string>)
    ensures types.Keys == DeclaredNames(ps)
    ensures forall k :: 0 <= k < |ps| && LastDeclaration(ps, k) ==> types[ps[k].name] == ps[k].ty
  {
    if |ps| == 0 then map[]
    else
      var init := ps[..|ps| - 1];
      ParamTypesSnoc(ps, init, ParamTypes(init));
      ParamTypes(init)[ps[|ps| - 1].name := ps[|ps| - 1].ty]
  }

  function DeclaredNames(ps: seq<ToolParameter>): set<string> {
    set k | 0 <= k < |ps| :: ps[k].name
  }

  /** `ps[k]` is the last declaration of its name. */
  predicate LastDeclaration(ps: seq<ToolParameter>, k: int)
    requires 0 <= k < |ps|
  {
    forall j :: k < j < |ps| ==> ps[j].name != ps[k].name
  }

  /** Recording the last declaration on top of the earlier ones' map keeps
      the keys the declared names and the last declaration winning. */
  lemma ParamTypesSnoc(ps: seq<ToolParameter>, init: seq<ToolParameter>, m: map<string, string>)
    requires |ps| > 0 && init == ps[..|ps| - 1]
    requires m.Keys == DeclaredNames(init)
    requires forall k :: 0 <= k < |init| && LastDeclaration(init, k) ==> m[init[k].name] == init[k].ty
    ensures m[ps[|ps| - 1].name := ps[|ps| - 1].ty].Keys == DeclaredNames(ps)
    ensures forall k :: 0 <= k < |ps| && LastDeclaration(ps, k) ==>
              m[ps[|ps| - 1].name := ps[|ps| - 1].ty][ps[k].name] == ps[k].ty
  {
    var last := ps[|ps| - 1];
    assert forall k :: 0 <= k < |init| ==> init[k] == ps[k];
    assert DeclaredNames(ps) == DeclaredNames(init) + {last.name};
    forall k | 0 <= k < |ps| && LastDeclaration(ps, k)
      ensures m[last.name := last.ty][ps[k].name] == ps[k].ty
    {
      if k < |ps| - 1 {
        assert LastDeclaration(init, k);
      }
    }
  }

  /** The strings `v.lower()` must equal for a boolean parameter to be true. */
  const TrueWords: set<string> := {"true", "1", "yes", "是"}

  /** One value coerced to a declared type: `float()` for `number`, `int()`
      for `integer`, membership in `TrueWords` after lower-casing for
      `boolean`, `bool()` for a boolean that is not text; a failed number
      conversion keeps the original value, and other types are left alone. */
  function ConvertValue(ty: string, v: Value): (r: Value)
    ensures ty != "number" && ty != "integer" && ty != "boolean" ==> r == v
    ensures (ty == "number" || ty == "integer") && !v.Str? ==> r == v
    ensures ty == "integer" && v.Str? ==> r == (if ParseInt(v.s).Some? then Int(ParseInt(v.s).value) else v)
    ensures ty == "number" && v.Str? ==> r == (if ParseFloat(v.s).Some? then Float(ParseFloat(v.s).value) else v)
    ensures ty == "boolean" ==> r.Bool? && (v.Str? ==> (r.b <==> Lower(v.s) in TrueWords))
    ensures ty == "boolean" && !v.Str? ==> (r.b <==> Truthy(v))
  {
    if ty == "number" || ty == "integer" then
      if !v.Str? then v
      else if ty == "number" then
        match ParseFloat(v.s)
        case Some(d) => Float(d)
        case None => v
      else
        match ParseInt(v.s)
        case Some(i) => Int(i)
        case None => v
    else if ty == "boolean" then
      if v.Str? then Bool(Lower(v.s) in TrueWords) else Bool(Truthy(v))
    else v
  }

  /** Coercing twice is coercing once: a converted value is no longer text,
      and text that failed to convert fails again. */
  lemma ConvertValueIdempotent(ty: string, v: Value)
    ensures ConvertValue(ty, ConvertValue(ty, v)) == ConvertValue(ty, v)
  {
  }

  /** An integer parameter written as Python prints it is read back as that
      integer, or as that number; `int()` refuses more than `MaxStrDigits`
      digits, and the failed conversion keeps the text. */
  lemma ConvertReadsPrintedInt(n: int)
    ensures StrWithinLimit(n) ==> ConvertValue("integer", Str(IntToString(n))) == Int(n)
    ensures !StrWithinLimit(n) ==> ConvertValue("integer", Str(IntToString(n))) == Str(IntToString(n))
    ensures ConvertValue("number", Str(IntToString(n))) == Float(Decimal(n, 0))
  {
    IntRoundTrip(n);
    ParseFloatExtendsParseInt(IntToString(n));
  }

  /** `_convert_parameter_types`: without a registered tool, or for a tool
      declaring no parameters, the dictionary is returned as it is; otherwise
      every key stays, a key the tool declares has its value coerced to the
      declared type and any other key keeps its value. */
  function ConvertParameterTypes(reg: ToolRegistry, toolName: string, params: map<string, Value>)
    : (r: map<string, Value>)
    ensures r.Keys == params.Keys
    ensures GetTool(reg, toolName).None? || GetTool(reg, toolName).value.Parameters() == [] ==> r == params
    ensures GetTool(reg, toolName).Some? ==>
              var ps := GetTool(reg, toolName).value.Parameters();
              forall k :: k in params ==>
                (forall j :: 0 <= j < |ps| ==> ps[j].name != k) ==> r[k] == params[k]
    ensures GetTool(reg, toolName).Some? ==>
              var ps := GetTool(reg, toolName).value.Parameters();
              forall j :: 0 <= j < |ps| && ps[j].name in params && (forall i :: j < i < |ps| ==> ps[i].name != ps[j].name) ==>
                r[ps[j].name] == ConvertValue(ps[j].ty, params[ps[j].name])
  {
    match GetTool(reg, toolName)
    case None => params
    case Some(tool) =>
      var ps := tool.Parameters();
      if ps == [] then params
      else
        var types := ParamTypes(ps);
        map k | k in params :: if k in types then ConvertValue(types[k], params[k]) else params[k]
  }

  /** Coercing a whole dictionary twice is coercing it once. */
  lemma ConvertParameterTypesIdempotent(reg: ToolRegistry, toolName: string, params: map<string, Value>)
    ensures ConvertParameterTypes(reg, toolName, ConvertParameterTypes(reg, toolName, params))
         == ConvertParameterTypes(reg, toolName, params)
  {
    var once := ConvertParameterTypes(reg, toolName, params);
    var twice := ConvertParameterTypes(reg, toolName, once);
    if GetTool(reg, toolName).Some? && GetTool(reg, toolName).value.Parameters() != [] {
      var types := ParamTypes(GetTool(reg, toolName).value.Parameters());
      forall k | k in params ensures twice[k] == once[k] {
        if k in types {
          ConvertValueIdempotent(types[k], params[k]);
        }
      }
    }
  }

  /** `_parse_tool_parameters`: text without `=` gives an empty dictionary
      (and no coercion); otherwise the pieces are parsed, which raises when
      one lacks `=`, and the result is coerced. */
  function ParseToolParameters(reg: ToolRegistry, toolName: string, parameters: string)
    : (r: Result<map<string, Value>>)
    ensures '=' !in parameters ==> r == Ok(map[])
    ensures r.Err? <==> '=' in parameters && Pairs(Pieces(parameters)).Err?
    ensures r.Err? ==> r.error == UnpackError
    ensures '=' in parameters && r.Ok? ==>
              r.value == ConvertParameterTypes(reg, toolName, Pairs(Pieces(parameters)).value)
  {
    if '=' !in parameters then Ok(map[])
    else
      match Pairs(Pieces(parameters))
      case Err(e) => Err(e)
      case Ok(m) => Ok(ConvertParameterTypes(reg, toolName, m))
  }

  /** The parameter text of a directive written from `name=value` pairs. */
  function Assignments(pairs: seq<(string, string)>): (parts: seq<string>)
    ensures |parts| == |pairs|
    ensures forall k :: 0 <= k < |pairs| ==> parts[k] == pairs[k].0 + "=" + pairs[k].1
  {
    if |pairs| == 0 then [] else [pairs[0].0 + "=" + pairs[0].1] + Assignments(pairs[1..])
  }

  function FormatParameters(pairs: seq<(string, string)>): string
    requires |pairs| >= 1
  {
    Join(Assignments(pairs), ',')
  }

  /** Writing `name=value` pairs as the prompt template asks and parsing them
      back: parsing succeeds, and for a tool the registry does not know, the
      result maps each stripped name to the stripped value of the last pair
      with that name, and holds no other key. */
  lemma ParseFormattedParameters(reg: ToolRegistry, toolName: string, pairs: seq<(string, string)>)
    requires |pairs| >= 1
    requires forall k :: 0 <= k < |pairs| ==> '=' !in pairs[k].0 && ',' !in pairs[k].0 && ',' !in pairs[k].1
    ensures ParseToolParameters(reg, toolName, FormatParameters(pairs)).Ok?
    ensures GetTool(reg, toolName).None? ==>
              var m := ParseToolParameters(reg, toolName, FormatParameters(pairs)).value;
              && m.Keys == (set k | 0 <= k < |pairs| :: Strip(pairs[k].0))
              && forall k :: 0 <= k < |pairs| && (forall j :: k < j < |pairs| ==> Strip(pairs[j].0) != Strip(pairs[k].0)) ==>
                   m[Strip(pairs[k].0)] == Str(Strip(pairs[k].1))
  {
    var text := FormatParameters(pairs);
    FormattedAssign(pairs);
    FormattedPieces(pairs);
    var m := Pairs(Pieces(text)).value;
    assert ParseToolParameters(reg, toolName, text) == Ok(ConvertParameterTypes(reg, toolName, m));
  }

  /** The dictionary built from formatted text, before any coercion. */
  lemma FormattedAssign(pairs: seq<(string, string)>)
    requires |pairs| >= 1
    requires forall k :: 0 <= k < |pairs| ==> '=' !in pairs[k].0 && ',' !in pairs[k].0 && ',' !in pairs[k].1
    ensures Pairs(Pieces(FormatParameters(pairs))).Ok?
    ensures var m := Pairs(Pieces(FormatParameters(pairs))).value;
            && m.Keys == (set k | 0 <= k < |pairs| :: Strip(pairs[k].0))
            && forall k :: 0 <= k < |pairs| && (forall j :: k < j < |pairs| ==> Strip(pairs[j].0) != Strip(pairs[k].0)) ==>
                 m[Strip(pairs[k].0)] == Str(Strip(pairs[k].1))
  {
    FormattedPieces(pairs);
    FormattedEntries(pairs);
    var es := StrippedEntries(pairs);
    assert Pairs(Pieces(FormatParameters(pairs))) == Assign(es);
    AssignContents(es);
    FormattedKeys(pairs);
    forall k | 0 <= k < |pairs| && (forall j :: k < j < |pairs| ==> Strip(pairs[j].0) != Strip(pairs[k].0))
      ensures LastAssignment(es, k)
    {
      FormattedLast(pairs, k);
    }
  }

  /** The entries of formatted text, written directly from the pairs. */
  function StrippedEntries(pairs: seq<(string, string)>): (es: seq<Option<(string, Value)>>)
    ensures |es| == |pairs|
    ensures forall k :: 0 <= k < |pairs| ==> es[k] == Some((Strip(pairs[k].0), Str(Strip(pairs[k].1))))
  {
    if |pairs| == 0 then [] else [Some((Strip(pairs[0].0), Str(Strip(pairs[0].1))))] + StrippedEntries(pairs[1..])
  }

  lemma FormattedKeys(pairs: seq<(string, string)>)
    ensures Keys(StrippedEntries(pairs)) == set k | 0 <= k < |pairs| :: Strip(pairs[k].0)
  {
    var es := StrippedEntries(pairs);
    var names := set k | 0 <= k < |pairs| :: Strip(pairs[k].0);
    forall n | n in names ensures n in Keys(es) {
      var k :| 0 <= k < |pairs| && Strip(pairs[k].0) == n;
      assert es[k].Some? && es[k].value.0 == n;
    }
  }

  lemma FormattedLast(pairs: seq<(string, string)>, k: nat)
    requires k < |pairs| && forall j :: k < j < |pairs| ==> Strip(pairs[j].0) != Strip(pairs[k].0)
    ensures LastAssignment(StrippedEntries(pairs), k)
  {
  }

  /** Formatted text is cut back into exactly the assignments it was made of. */
  lemma FormattedPieces(pairs: seq<(string, string)>)
    requires |pairs| >= 1
    requires forall k :: 0 <= k < |pairs| ==> ',' !in pairs[k].0 && ',' !in pairs[k].1
    ensures Pieces(FormatParameters(pairs)) == Assignments(pairs)
    ensures '=' in FormatParameters(pairs)
  {
    var parts := Assignments(pairs);
    forall k | 0 <= k < |parts| ensures ',' !in parts[k] {
      assert parts[k] == pairs[k].0 + ['='] + pairs[k].1;
    }
    JoinSplit(parts, ',');
    PiecesAreSplit(FormatParameters(pairs));
    assert parts[0][|pairs[0].0|] == '=';
    JoinContains(parts, 0, '=');
  }

  /** Each assignment reads back as its stripped name and stripped value. */
  lemma FormattedEntries(pairs: seq<(string, string)>)
    requires forall k :: 0 <= k < |pairs| ==> '=' !in pairs[k].0
    ensures Entries(Assignments(pairs)) == StrippedEntries(pairs)
  {
    forall k | 0 <= k < |pairs|
      ensures Entry(Assignments(pairs)[k]) == Some((Strip(pairs[k].0), Str(Strip(pairs[k].1))))
    {
      SplitOnceUnique(pairs[k].0, '=', pairs[k].1);
      assert Assignments(pairs)[k] == pairs[k].0 + ['='] + pairs[k].1;
    }
  }

  /** A character of a joined piece occurs in the joined text. */
  lemma {:induction false} JoinContains(parts: seq<string>, k: nat, c: char)
    requires |parts| >= 1 && k < |parts| && c in parts[k]
    ensures c in Join(parts, ',')
  {
    if |parts| > 1 {
      if k == 0 {
        assert Join(parts, ',') == parts[0] + ([','] + Join(parts[1..], ','));
      } else {
        JoinContains(parts[1..], k - 1, c);
        assert Join(parts, ',') == parts[0] + [','] + Join(parts[1..], ',');
      }
    }
  }
}
