/** `agent/simple_agent.py`: an agent without tool calling in its turns. A
    turn sends the system prompt, the history and the new input to the model;
    `run` returns the reply and records nothing, `stream_run` yields the
    streamed pieces unchanged and, once the stream is exhausted, records the
    exchange. The model transport is a function argument. */
module SimpleAgents {
  import opened Wrappers
  import opened Text
  import opened Registry
  import opened Llm
  import opened Agents

  /** `SimpleAgent` never sets `enable_tool_calling` in its constructor; the
      attribute only appears in `add_tool`. `false` stands for "not set". */
  datatype SimpleAgent = SimpleAgent(base: Agent, enableToolCalling: bool, registry: ToolRegistry)

  /** One entry of the outbound message list. The system entry carries the
      system prompt as it is, `None` included. */
  datatype Outbound = Outbound(role: Role, content: Option<string>)

  /** `SimpleAgent.__init__`: a fresh registry unless one is given, then the
      `Agent` constructor with its guard. */
  function NewSimpleAgent(name: string, llm: Option<LlmClient>, systemPrompt: Option<string>,
                          registry: Option<ToolRegistry>, config: Option<Config>)
    : (r: Result<SimpleAgent>)
    ensures r.Err? <==> llm.None?
    ensures r.Err? ==> r.error == MissingLlm
    ensures r.Ok? ==> !r.value.enableToolCalling && r.value.base == NewAgent(name, llm, systemPrompt, config).value
    ensures r.Ok? && registry.None? ==> forall n :: GetTool(r.value.registry, n).None?
    ensures r.Ok? && registry.Some? ==> r.value.registry == registry.value
  {
    var base :- NewAgent(name, llm, systemPrompt, config);
    Ok(SimpleAgent(base, false, registry.GetOr(NewRegistry())))
  }

  /** The history entries as outbound messages, in order. */
  function HistoryEntries(h: seq<Message>): (r: seq<Outbound>)
    ensures |r| == |h|
    ensures forall k :: 0 <= k < |h| ==> r[k] == Outbound(h[k].role, Some(h[k].content))
  {
    if |h| == 0 then [] else [Outbound(h[0].role, Some(h[0].content))] + HistoryEntries(h[1..])
  }

  /** The message list `run` and `stream_run` send: the system prompt first,
      then every history entry in order, then the new input as the user. */
  function Compose(a: Agent, input: string): (r: seq<Outbound>)
    ensures |r| == |a.history| + 2
    ensures r[0] == Outbound(System, a.systemPrompt)
    ensures forall k :: 0 <= k < |a.history| ==> r[k + 1] == Outbound(a.history[k].role, Some(a.history[k].content))
    ensures r[|r| - 1] == Outbound(User, Some(input))
  {
    [Outbound(System, a.systemPrompt)] + HistoryEntries(a.history) + [Outbound(User, Some(input))]
  }

  /** What `stream_run` records once the stream is exhausted: the input as
      the user's message, then the joined reply as the assistant's. */
  function Record(s: SimpleAgent, input: string, reply: string): (r: SimpleAgent)
    ensures r.base.history == s.base.history + [Message(input, User), Message(reply, Assistant)]
    ensures r.(base := s.base) == s
    ensures r.base.(history := s.base.history) == s.base
  {
    var t := s.base;
    HistoryInInsertionOrder(t, [Message(input, User), Message(reply, Assistant)]);
    s.(base := AddMessage(AddMessage(t, Message(input, User)), Message(reply, Assistant)))
  }

  /** The next turn after a recorded one sends what the recorded turn sent,
      then the assistant's reply, then the new input: the conversation is
      carried forward whole and in order. */
  lemma ComposeAfterRecord(s: SimpleAgent, input: string, reply: string, next: string)
    ensures Compose(Record(s, input, reply).base, next)
         == Compose(s.base, input) + [Outbound(Assistant, Some(reply)), Outbound(User, Some(next))]
  {
    var h := s.base.history;
    var added := [Message(input, User), Message(reply, Assistant)];
    var sys := [Outbound(System, s.base.systemPrompt)];
    var e := HistoryEntries(h);
    var u := Outbound(User, Some(input));
    var ar := Outbound(Assistant, Some(reply));
    var n := Outbound(User, Some(next));
    HistoryEntriesAppend(h, added);
    assert HistoryEntries(added) == [u, ar];
    assert Compose(Record(s, input, reply).base, next) == sys + (e + [u, ar]) + [n];
    assert sys + (e + [u, ar]) + [n] == (sys + e + [u]) + [ar, n];
  }

  /** Outbound entries of joined histories are the joined entries. */
  lemma HistoryEntriesAppend(h: seq<Message>, t: seq<Message>)
    ensures HistoryEntries(h + t) == HistoryEntries(h) + HistoryEntries(t)
  {
    var l := HistoryEntries(h + t);
    var r := HistoryEntries(h) + HistoryEntries(t);
    forall k | 0 <= k < |l| ensures l[k] == r[k] {
      if k >= |h| {
        assert (h + t)[k] == t[k - |h|];
      }
    }
  }

  /** `run`: the reply `invoke` makes of the model's answer to the composed
      list; the agent is left as it was, history included. */
  function Run(s: SimpleAgent, input: string, model: seq<Outbound> -> ReplyMessage): (r: (string, SimpleAgent))
    ensures r.1 == s
    ensures r.0 == Invoke(model(Compose(s.base, input)))
  {
    (Invoke(model(Compose(s.base, input))), s)
  }

  /** `stream_run`: the pieces `think` makes of the model's streamed answer
      to the composed list, yielded unchanged and in order; their join is
      recorded with the input once the stream is exhausted. */
  method StreamRun(s: SimpleAgent, input: string, model: seq<Outbound> -> seq<StreamChunk>)
    returns (yielded: seq<string>, r: SimpleAgent)
    ensures yielded == Think(model(Compose(s.base, input)))
    ensures r == Record(s, input, Concat(yielded))
    ensures |r.base.history| == |s.base.history| + 2
  {
    var pieces := Think(model(Compose(s.base, input)));
    var full := "";
    yielded := [];
    var i := 0;
    while i < |pieces|
      invariant 0 <= i <= |pieces|
      invariant yielded == pieces[..i]
      invariant full == Concat(yielded)
    {
      assert pieces[..i + 1] == yielded + [pieces[i]];
      ConcatAppend(yielded, [pieces[i]]);
      ConcatOne(pieces[i]);
      full := full + pieces[i];
      yielded := yielded + [pieces[i]];
      i := i + 1;
    }
    assert yielded == pieces;
    r := Record(s, input, full);
  }

  /** `add_tool`: tool calling switched on and the tool handed to
      `register_tool` with the same `auto_expand`; the base agent untouched. */
  function AddTool(s: SimpleAgent, t: AnyTool, autoExpand: bool := true): (r: SimpleAgent)
    ensures r.enableToolCalling
    ensures r.base == s.base
    ensures r.registry == RegisterTool(s.registry, t, autoExpand)
  {
    s.(enableToolCalling := true, registry := RegisterTool(s.registry, t, autoExpand))
  }
}
