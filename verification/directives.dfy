/** `BasicAgent._parse_tool_calls` (`agent/basic_agent.py`): finding the tool
    directives `[TOOL_CALL:<name>:<parameters>]` in a model reply.

    The source applies `re.findall` with the pattern
    `\[TOOL_CALL:([^:]+):([^\]]+)\]`. Because each group is a greedy run of
    characters that excludes exactly the character that must follow it, no
    backtracking can change a match: a match at a position is unique, the
    name is the whole colon-free run after the opening and the parameters
    are the whole `]`-free run after the colon. `findall` tries positions
    left to right and resumes after each match, so matches never overlap.
    The name may hold `]`, `[` or line breaks; the parameters may hold `:`. */
module Directives {
  import opened Wrappers
  import opened Text

  const Opening: string := "[TOOL_CALL:"

  /** The first position at or after `from` holding `stop`, or `|text|`. */
  function RunEnd(text: string, from: nat, stop: char): (r: nat)
    requires from <= |text|
    ensures from <= r <= |text|
    ensures forall k :: from <= k < r ==> text[k] != stop
    ensures r < |text| ==> text[r] == stop
    decreases |text| - from
  {
    if from == |text| || text[from] == stop then from else RunEnd(text, from + 1, stop)
  }

  /** A match: the opening at `start`, the name in `[start + 11, nameEnd)`,
      the colon at `nameEnd`, the parameters in `[nameEnd + 1, end - 1)`
      and the closing bracket at `end - 1`. */
  datatype Span = Span(start: nat, nameEnd: nat, end: nat)

  /** Both groups non-empty and the span inside the text. */
  predicate Fits(text: string, sp: Span) {
    sp.start + 11 < sp.nameEnd && sp.nameEnd + 2 < sp.end <= |text|
  }

  /** The pattern, read declaratively: both groups non-empty, the name
      without `:`, the parameters without `]`. */
  predicate IsMatch(text: string, sp: Span) {
    && Fits(text, sp)
    && text[sp.start..sp.start + |Opening|] == Opening
    && ':' !in text[sp.start + |Opening|..sp.nameEnd]
    && text[sp.nameEnd] == ':'
    && ']' !in text[sp.nameEnd + 1..sp.end - 1]
    && text[sp.end - 1] == ']'
  }

  /** The regular expression tried at one position. */
  function MatchAt(text: string, i: nat): (r: Option<Span>)
    requires i <= |text|
    ensures r.Some? ==> r.value.start == i && IsMatch(text, r.value)
  {
    if |text| - i < |Opening| || text[i..i + |Opening|] != Opening then None
    else
      var a := RunEnd(text, i + |Opening|, ':');
      if a == i + |Opening| || a == |text| then None
      else
        var b := RunEnd(text, a + 1, ']');
        if b == a + 1 || b == |text| then None
        else Some(Span(i, a, b + 1))
  }

  /** The matcher finds a match at `i` exactly when the pattern admits one
      there, and it is the only one the pattern admits. */
  lemma MatchAtExact(text: string, i: nat, sp: Span)
    requires i <= |text|
    ensures MatchAt(text, i) == Some(sp) <==> (sp.start == i && IsMatch(text, sp))
  {
    if sp.start == i && IsMatch(text, sp) {
      var a := RunEnd(text, i + |Opening|, ':');
      assert a == sp.nameEnd;
      var b := RunEnd(text, a + 1, ']');
      assert b == sp.end - 1;
    }
  }

  /** `findall` from position `i`: the matches, left to right, each search
      resuming after the previous match. */
  function Scan(text: string, i: nat): (spans: seq<Span>)
    requires i <= |text|
    ensures forall k :: 0 <= k < |spans| ==> i <= spans[k].start && Fits(text, spans[k])
    ensures forall k :: 0 <= k < |spans| - 1 ==> spans[k].end <= spans[k + 1].start
    decreases |text| - i
  {
    if i == |text| then []
    else match MatchAt(text, i)
      case Some(sp) => [sp] + Scan(text, sp.end)
      case None => Scan(text, i + 1)
  }

  /** Every reported span is the match the pattern gives at its start. */
  lemma {:induction false} ScanReportsMatches(text: string, i: nat)
    requires i <= |text|
    ensures forall k :: 0 <= k < |Scan(text, i)| ==> MatchAt(text, Scan(text, i)[k].start) == Some(Scan(text, i)[k])
    decreases |text| - i
  {
    if i < |text| {
      match MatchAt(text, i)
      case Some(sp) =>
        ScanReportsMatches(text, sp.end);
        var rest := Scan(text, sp.end);
        assert Scan(text, i) == [sp] + rest;
        assert forall k :: 0 < k < |Scan(text, i)| ==> Scan(text, i)[k] == rest[k - 1];
      case None =>
        ScanReportsMatches(text, i + 1);
    }
  }

  /** Position `j` lies inside one of the matches. */
  predicate Covered(spans: seq<Span>, j: int) {
    exists k :: 0 <= k < |spans| && spans[k].start <= j < spans[k].end
  }

  /** Nothing is skipped: a position from `i` on where the pattern matches
      lies inside a reported match. With the ordering `Scan` guarantees, the
      reported matches are therefore exactly the leftmost non-overlapping ones. */
  lemma {:induction false} ScanSkipsNothing(text: string, i: nat, j: nat)
    requires i <= j <= |text| && MatchAt(text, j).Some?
    ensures Covered(Scan(text, i), j)
    decreases |text| - i
  {
    var m := MatchAt(text, i);
    ScanStep(text, i);
    if m.Some? {
      if m.value.end <= j {
        ScanSkipsNothing(text, m.value.end, j);
      }
      CoveredCons(m.value, Scan(text, m.value.end), j);
    } else {
      ScanSkipsNothing(text, i + 1, j);
    }
  }

  /** One step of `findall`: a match at `i` is reported and the search
      resumes after it; otherwise the search moves one position on. */
  lemma ScanStep(text: string, i: nat)
    requires i < |text|
    ensures MatchAt(text, i).Some? ==> i < MatchAt(text, i).value.end <= |text|
    ensures MatchAt(text, i).Some? ==>
              Scan(text, i) == [MatchAt(text, i).value] + Scan(text, MatchAt(text, i).value.end)
    ensures MatchAt(text, i).None? ==> Scan(text, i) == Scan(text, i + 1)
  {
  }

  /** A position is covered by a match followed by more matches when the
      first covers it or the rest do. */
  lemma CoveredCons(sp: Span, rest: seq<Span>, j: int)
    requires sp.start <= j < sp.end || Covered(rest, j)
    ensures Covered([sp] + rest, j)
  {
    var spans := [sp] + rest;
    if sp.start <= j < sp.end {
      assert spans[0] == sp;
    } else {
      var k :| 0 <= k < |rest| && rest[k].start <= j < rest[k].end;
      assert spans[k + 1] == rest[k];
    }
  }

  /** The dictionary `_parse_tool_calls` builds for one match: the stripped
      name and parameters, and the directive rebuilt from the raw groups. */
  datatype ToolCall = ToolCall(toolName: string, parameters: string, original: string)

  function RawName(text: string, sp: Span): string
    requires Fits(text, sp)
  {
    text[sp.start + 11..sp.nameEnd]
  }

  function RawParameters(text: string, sp: Span): string
    requires Fits(text, sp)
  {
    text[sp.nameEnd + 1..sp.end - 1]
  }

  /** A directive written out from a name and a parameter string. */
  function Directive(name: string, parameters: string): string {
    Opening + name + ":" + parameters + "]"
  }

  function CallOf(text: string, sp: Span): ToolCall
    requires Fits(text, sp)
  {
    ToolCall(Strip(RawName(text, sp)), Strip(RawParameters(text, sp)),
             Directive(RawName(text, sp), RawParameters(text, sp)))
  }

  function CallsOf(text: string, spans: seq<Span>): (calls: seq<ToolCall>)
    requires forall k :: 0 <= k < |spans| ==> Fits(text, spans[k])
    ensures |calls| == |spans|
  {
    if |spans| == 0 then [] else [CallOf(text, spans[0])] + CallsOf(text, spans[1..])
  }

  lemma {:induction false} CallsOfAt(text: string, spans: seq<Span>, k: nat)
    requires forall k :: 0 <= k < |spans| ==> Fits(text, spans[k])
    requires k < |spans|
    ensures CallsOf(text, spans)[k] == CallOf(text, spans[k])
  {
    if k > 0 {
      CallsOfAt(text, spans[1..], k - 1);
    }
  }

  /** `_parse_tool_calls`: one call per match, in order. */
  function ParseToolCalls(text: string): (calls: seq<ToolCall>)
    ensures |calls| == |Scan(text, 0)|
  {
    CallsOf(text, Scan(text, 0))
  }

  /** The k-th parsed call is the one built from the k-th match: its name
      and parameters are the stripped groups, and its `original` is exactly
      the text the match covered, so replacing it in the reply replaces the
      directive. */
  lemma ParsedCall(text: string, k: nat)
    requires k < |ParseToolCalls(text)|
    ensures ParseToolCalls(text)[k] == CallOf(text, Scan(text, 0)[k])
    ensures ParseToolCalls(text)[k].original == text[Scan(text, 0)[k].start..Scan(text, 0)[k].end]
  {
    var sp := Scan(text, 0)[k];
    CallsOfAt(text, Scan(text, 0), k);
    MatchGroups(text, k);
    MatchedText(text, sp);
  }

  /** The groups of every match: the raw name is a non-empty colon-free run,
      the raw parameters a non-empty run without `]`. */
  lemma MatchGroups(text: string, k: nat)
    requires k < |Scan(text, 0)|
    ensures IsMatch(text, Scan(text, 0)[k])
    ensures var sp := Scan(text, 0)[k];
            && RawName(text, sp) != [] && ':' !in RawName(text, sp)
            && RawParameters(text, sp) != [] && ']' !in RawParameters(text, sp)
  {
    ScanReportsMatches(text, 0);
    assert MatchAt(text, Scan(text, 0)[k].start) == Some(Scan(text, 0)[k]);
  }

  /** A match covers exactly the directive rebuilt from its raw groups. */
  lemma MatchedText(text: string, sp: Span)
    requires IsMatch(text, sp)
    ensures text[sp.start..sp.end] == Directive(RawName(text, sp), RawParameters(text, sp))
  {
    var s := sp.start + 11;
    assert text[sp.start..s] == Opening;
    assert text[sp.start..sp.end]
        == text[sp.start..s] + text[s..sp.nameEnd] + [text[sp.nameEnd]]
           + text[sp.nameEnd + 1..sp.end - 1] + [text[sp.end - 1]];
  }

  /** No directive is found exactly when the pattern matches nowhere. */
  lemma NoCallsIffNoMatch(text: string)
    ensures ParseToolCalls(text) == [] <==> forall j :: 0 <= j <= |text| ==> MatchAt(text, j).None?
  {
    var spans := Scan(text, 0);
    if spans != [] {
      ScanReportsMatches(text, 0);
      assert MatchAt(text, spans[0].start).Some?;
    } else {
      forall j | 0 <= j <= |text| ensures MatchAt(text, j).None? {
        if MatchAt(text, j).Some? {
          ScanSkipsNothing(text, 0, j);
        }
      }
    }
  }

  /** Writing a directive and parsing it back gives one call with the
      stripped name and parameters, whenever the name is colon-free, the
      parameters are `]`-free and neither is empty. */
  lemma DirectiveRoundTrip(name: string, parameters: string)
    requires name != [] && ':' !in name
    requires parameters != [] && ']' !in parameters
    ensures ParseToolCalls(Directive(name, parameters))
         == [ToolCall(Strip(name), Strip(parameters), Directive(name, parameters))]
  {
    var d := Directive(name, parameters);
    var sp := DirectiveSpan(name, parameters);
    MatchAtExact(d, 0, sp);
    assert Scan(d, 0) == [sp] + Scan(d, |d|);
    CallsOfAt(d, [sp], 0);
    assert ParseToolCalls(d) == [CallOf(d, sp)];
  }

  /** The span a written directive occupies, with its groups. */
  function DirectiveSpan(name: string, parameters: string): (sp: Span)
    requires name != [] && ':' !in name
    requires parameters != [] && ']' !in parameters
    ensures IsMatch(Directive(name, parameters), sp) && sp.start == 0
    ensures sp.end == |Directive(name, parameters)|
    ensures RawName(Directive(name, parameters), sp) == name
    ensures RawParameters(Directive(name, parameters), sp) == parameters
  {
    var d := Directive(name, parameters);
    var n := 11 + |name|;
    assert d == Opening + name + [':'] + parameters + [']'];
    assert d[..11] == Opening;
    assert d[11..n] == name;
    assert d[n + 1..|d| - 1] == parameters;
    Span(0, n, |d|)
  }
}
