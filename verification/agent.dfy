/** `core/agent.py`: the state every agent shares, namely a reference to the
    model client, an optional system prompt, a configuration and the
    conversation history. The history only grows, except for an explicit clear. */
module Agents {
  import opened Wrappers
  import opened Llm

  datatype Role = System | User | Assistant

  /** One history entry (`Message(content, role)`); `core/message.py` is not
      part of this model, so only its two fields are. */
  datatype Message = Message(content: string, role: Role)

  /** The defaults of `Config()` (its float `temperature` is not modelled). */
  datatype Config = Config(
    model: string,
    provider: string,
    apiKey: string,
    baseUrl: string,
    maxTokens: Option<int>,
    timeout: int,
    debug: bool,
    logLevel: string,
    maxHistoryLength: int)

  function DefaultConfig(): Config {
    Config("deepseek-chat", "deepseek", "", "", None, 60, false, "INFO", 100)
  }

  datatype Agent = Agent(
    name: string,
    llm: LlmClient,
    systemPrompt: Option<string>,
    config: Config,
    history: seq<Message>)

  const MissingLlm: Error := LlmException("llm client should be initialized.")

  /** `Agent.__init__`: refuses a missing model client; starts with an empty
      history and the default configuration when none is given. */
  function NewAgent(name: string, llm: Option<LlmClient>, systemPrompt: Option<string>, config: Option<Config>)
    : (r: Result<Agent>)
    ensures llm.None? <==> r.Err?
    ensures r.Err? ==> r.error == MissingLlm
    ensures r.Ok? ==> r.value.history == [] && r.value.llm == llm.value && r.value.name == name
    ensures r.Ok? ==> r.value.systemPrompt == systemPrompt
    ensures r.Ok? && config.None? ==> r.value.config == DefaultConfig()
    ensures r.Ok? && config.Some? ==> r.value.config == config.value
  {
    if llm.None? then Err(MissingLlm)
    else Ok(Agent(name, llm.value, systemPrompt, config.GetOr(DefaultConfig()), []))
  }

  /** `add_message`: one more entry at the end, the earlier entries and every
      other field unchanged. */
  function AddMessage(a: Agent, m: Message): (r: Agent)
    ensures |r.history| == |a.history| + 1
    ensures r.history[..|a.history|] == a.history && r.history[|a.history|] == m
    ensures r.(history := a.history) == a
  {
    a.(history := a.history + [m])
  }

  /** `clear_history`: nothing left, every other field unchanged. */
  function ClearHistory(a: Agent): (r: Agent)
    ensures r.history == []
    ensures r.(history := a.history) == a
  {
    a.(history := [])
  }

  /** `get_history`: the recorded messages themselves, oldest first. */
  function GetHistory(a: Agent): (h: seq<Message>)
    ensures h == a.history
  {
    a.history
  }

  /** Adding several messages one after another. */
  function AddMessages(a: Agent, ms: seq<Message>): Agent
    decreases |ms|
  {
    if |ms| == 0 then a else AddMessages(AddMessage(a, ms[0]), ms[1..])
  }

  /** The history is the messages added, in insertion order, after the ones
      already there; clearing first leaves exactly the messages added. */
  lemma HistoryInInsertionOrder(a: Agent, ms: seq<Message>)
    ensures GetHistory(AddMessages(a, ms)) == GetHistory(a) + ms
    ensures GetHistory(AddMessages(ClearHistory(a), ms)) == ms
    ensures AddMessages(a, ms).(history := a.history) == a
  {
    AddMessagesAppend(a, ms);
    AddMessagesAppend(ClearHistory(a), ms);
  }

  /** Adding messages appends them to the history and changes nothing else. */
  lemma {:induction false} AddMessagesAppend(a: Agent, ms: seq<Message>)
    ensures AddMessages(a, ms) == a.(history := a.history + ms)
    decreases |ms|
  {
    if |ms| > 0 {
      AddMessagesAppend(AddMessage(a, ms[0]), ms[1..]);
      assert a.history + [ms[0]] + ms[1..] == a.history + ms;
    }
  }
}
