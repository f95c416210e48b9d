/** `core/llm.py`: how the model client resolves its provider, credentials,
    default model and timeout from arguments and the environment, and how
    it frames streamed and non-streamed replies. The HTTP client and the
    chat-completion calls are not modelled: a streamed reply is an input
    sequence of chunks, a non-streamed reply an input message. */
module Llm {
  import opened Wrappers
  import opened Text
  import opened Values

  /** The process environment, as read by `os.getenv`. */
  type Env = map<string, string>

  function Getenv(env: Env, key: string): Option<string> {
    if key in env then Some(env[key]) else None
  }

  function GetenvOr(env: Env, key: string, default: string): string {
    if key in env then env[key] else default
  }

  /** Python truthiness of an optional string: present and non-empty. */
  predicate Present(s: Option<string>) {
    s.Some? && s.value != ""
  }

  /** Python's `a or b` on optional strings. */
  function Or(a: Option<string>, b: Option<string>): Option<string> {
    if Present(a) then a else b
  }

  /** A chain `c0 or c1 or ... or cn`: the first truthy candidate, or the
      last candidate when none is truthy. */
  function FirstPresent(cs: seq<Option<string>>): (r: Option<string>)
    requires |cs| > 0
    ensures Present(r) <==> exists k :: 0 <= k < |cs| && Present(cs[k])
    ensures forall k :: 0 <= k < |cs| && Present(cs[k]) && (forall j :: 0 <= j < k ==> !Present(cs[j])) ==> r == cs[k]
    ensures !Present(r) ==> r == cs[|cs| - 1]
  {
    if Present(cs[0]) || |cs| == 1 then cs[0]
    else
      var r := FirstPresent(cs[1..]);
      assert forall k :: 1 <= k < |cs| ==> cs[k] == cs[1..][k - 1];
      r
  }

  /** `self.provider`: the lower-cased argument when one is given, else `None`.
      `LLM_PROVIDER` is only read inside a branch that the argument already
      decides, so it never matters. */
  function NormaliseProvider(provider: Option<string>, env: Env): (r: Option<string>)
    ensures r.Some? <==> Present(provider)
    ensures r.Some? ==> Lower(r.value) == r.value && |r.value| == |provider.value|
  {
    if Present(provider) then Some(Lower(Or(provider, Some(GetenvOr(env, "LLM_PROVIDER", ""))).value))
    else None
  }

  lemma NormaliseProviderIgnoresEnv(provider: Option<string>, env: Env)
    ensures Present(provider) ==> NormaliseProvider(provider, env) == Some(Lower(provider.value))
    ensures !Present(provider) ==> NormaliseProvider(provider, env) == None
  {
  }

  /** `_resolve_credentials`: the api key and base url, each from the
      argument, then the provider's own variables, then the generic ones or a
      fixed default url. */
  function ResolveCredentials(provider: Option<string>, apiKey: Option<string>, baseUrl: Option<string>, env: Env)
    : (r: (Option<string>, Option<string>))
    ensures Present(apiKey) ==> r.0 == apiKey
    ensures Present(baseUrl) ==> r.1 == baseUrl
    ensures provider == Some("openai") || provider == Some("deepseek") ==> Present(r.1)
    ensures !Present(r.0) ==> r.0 == Getenv(env, "LLM_API_KEY")
  {
    if provider == Some("openai") then
      (Or(Or(apiKey, Getenv(env, "OPENAI_API_KEY")), Getenv(env, "LLM_API_KEY")),
       Or(Or(baseUrl, Getenv(env, "OPENAI_BASE_URL")), Some("https://api.openai.com/v1")))
    else if provider == Some("deepseek") then
      (Or(Or(apiKey, Getenv(env, "DEEPSEEK_API_KEY")), Getenv(env, "LLM_API_KEY")),
       Or(Or(baseUrl, Getenv(env, "DEEPSEEK_BASE_URL")), Some("https://api.deepseek.com")))
    else
      (Or(apiKey, Getenv(env, "LLM_API_KEY")), Or(baseUrl, Getenv(env, "LLM_BASE_URL")))
  }

  /** The precedence lists, one per provider. */
  function KeyCandidates(provider: Option<string>, apiKey: Option<string>, env: Env): seq<Option<string>> {
    if provider == Some("openai") then [apiKey, Getenv(env, "OPENAI_API_KEY"), Getenv(env, "LLM_API_KEY")]
    else if provider == Some("deepseek") then [apiKey, Getenv(env, "DEEPSEEK_API_KEY"), Getenv(env, "LLM_API_KEY")]
    else [apiKey, Getenv(env, "LLM_API_KEY")]
  }

  function UrlCandidates(provider: Option<string>, baseUrl: Option<string>, env: Env): seq<Option<string>> {
    if provider == Some("openai") then [baseUrl, Getenv(env, "OPENAI_BASE_URL"), Some("https://api.openai.com/v1")]
    else if provider == Some("deepseek") then [baseUrl, Getenv(env, "DEEPSEEK_BASE_URL"), Some("https://api.deepseek.com")]
    else [baseUrl, Getenv(env, "LLM_BASE_URL")]
  }

  /** Each credential is the first truthy entry of its provider's precedence
      list; for openai and deepseek the url list ends in a fixed default, so
      a base url is always found. */
  lemma ResolveCredentialsPrecedence(provider: Option<string>, apiKey: Option<string>, baseUrl: Option<string>, env: Env)
    ensures ResolveCredentials(provider, apiKey, baseUrl, env).0 == FirstPresent(KeyCandidates(provider, apiKey, env))
    ensures ResolveCredentials(provider, apiKey, baseUrl, env).1 == FirstPresent(UrlCandidates(provider, baseUrl, env))
    ensures provider == Some("openai") || provider == Some("deepseek") ==>
              Present(ResolveCredentials(provider, apiKey, baseUrl, env).1)
  {
    var ks := KeyCandidates(provider, apiKey, env);
    var us := UrlCandidates(provider, baseUrl, env);
    if provider == Some("openai") || provider == Some("deepseek") {
      assert FirstPresent(ks) == Or(ks[0], FirstPresent(ks[1..]));
      assert FirstPresent(ks[1..]) == Or(ks[1], FirstPresent(ks[2..]));
      assert FirstPresent(us) == Or(us[0], FirstPresent(us[1..]));
      assert FirstPresent(us[1..]) == Or(us[1], FirstPresent(us[2..]));
      assert Present(us[2]);
    } else {
      assert FirstPresent(ks) == Or(ks[0], FirstPresent(ks[1..]));
      assert FirstPresent(us) == Or(us[0], FirstPresent(us[1..]));
    }
  }

  /** `_get_default_model`. */
  function DefaultModel(provider: Option<string>): (r: string)
    ensures r != ""
    ensures provider == Some("openai") ==> r == "gpt-3.5-turbo"
    ensures provider == Some("deepseek") ==> r == "deepseek-reasoner"
    ensures provider != Some("openai") && provider != Some("deepseek") ==> r == "deepseek-chat"
  {
    if provider == Some("openai") then "gpt-3.5-turbo"
    else if provider == Some("deepseek") then "deepseek-reasoner"
    else "deepseek-chat"
  }

  /** The default model follows the provider argument in any letter case:
      a provider that lower-cases to `openai` or `deepseek` picks that
      provider's model, and a missing or empty one picks `deepseek-chat`
      whatever `LLM_PROVIDER` says. */
  lemma DefaultModelFollowsProvider(p: string, env: Env)
    ensures Lower(p) == "openai" ==> DefaultModel(NormaliseProvider(Some(p), env)) == "gpt-3.5-turbo"
    ensures Lower(p) == "deepseek" ==> DefaultModel(NormaliseProvider(Some(p), env)) == "deepseek-reasoner"
    ensures DefaultModel(NormaliseProvider(None, env)) == "deepseek-chat"
    ensures DefaultModel(NormaliseProvider(Some(""), env)) == "deepseek-chat"
  {
    if p != "" {
      assert Or(Some(p), Some(GetenvOr(env, "LLM_PROVIDER", ""))) == Some(p);
    }
  }

  /** A constructed client's settings (`temperature` and `max_tokens` are
      passed through to the service and not modelled). */
  datatype LlmClient = LlmClient(model: string, apiKey: string, baseUrl: string, provider: Option<string>, timeout: int)

  const MissingCredentials: Error := ChickAgentException("未找到合适的api_key或api地址")

  /** `timeout or int(os.getenv("LLM_TIMEOUT", "60"))`: a non-zero argument,
      else the environment's value parsed as an integer, `60` by default. */
  function ResolveTimeout(timeout: Option<int>, env: Env): (r: Result<int>)
    ensures timeout.Some? && timeout.value != 0 ==> r == Ok(timeout.value)
    ensures !(timeout.Some? && timeout.value != 0) ==>
              (r.Ok? <==> ParseInt(GetenvOr(env, "LLM_TIMEOUT", "60")).Some?)
    ensures !(timeout.Some? && timeout.value != 0) && r.Ok? ==>
              r.value == ParseInt(GetenvOr(env, "LLM_TIMEOUT", "60")).value
    ensures r.Err? ==> r.error == InvalidInt(GetenvOr(env, "LLM_TIMEOUT", "60"))
  {
    if timeout.Some? && timeout.value != 0 then Ok(timeout.value)
    else
      var text := GetenvOr(env, "LLM_TIMEOUT", "60");
      match ParseInt(text)
      case Some(t) => Ok(t)
      case None => Err(InvalidInt(text))
  }

  /** The `ValueError` `int()` raises on text it cannot read. */
  function InvalidInt(text: string): Error {
    ValueError(IntErrorMessage(text))
  }

  /** Without a non-zero argument, an integer written into `LLM_TIMEOUT` is
      the timeout when `int()` converts that many digits, and otherwise
      construction fails with the digit-limit `ValueError`. */
  lemma TimeoutFromEnvironment(env: Env, n: int)
    requires "LLM_TIMEOUT" in env && env["LLM_TIMEOUT"] == IntToString(n)
    ensures StrWithinLimit(n) ==> ResolveTimeout(None, env) == Ok(n) && ResolveTimeout(Some(0), env) == Ok(n)
    ensures !StrWithinLimit(n) ==>
              ResolveTimeout(None, env) == Err(ValueError(LimitTextHead + IntToString(DigitCount(n)) + LimitTextTail))
  {
    IntRoundTrip(n);
  }

  /** Without an argument or `LLM_TIMEOUT`, the timeout is 60 seconds. */
  lemma DefaultTimeout(env: Env)
    requires "LLM_TIMEOUT" !in env
    ensures ResolveTimeout(None, env) == Ok(60)
  {
    assert DigitsOf(60) == DigitsOf(6) + ['0'];
    assert IntToString(60) == "60";
    IntRoundTrip(60);
  }

  /** `ChickAgentLLM.__init__` up to, not including, creating the HTTP client. */
  function NewLlm(model: Option<string>, apiKey: Option<string>, baseUrl: Option<string>,
                  provider: Option<string>, timeout: Option<int>, env: Env): (r: Result<LlmClient>)
    ensures var creds := ResolveCredentials(NormaliseProvider(provider, env), apiKey, baseUrl, env);
            r.Ok? <==> ResolveTimeout(timeout, env).Ok? && Present(creds.0) && Present(creds.1)
    ensures ResolveTimeout(timeout, env).Ok? && r.Err? ==> r == Err(MissingCredentials)
    ensures r.Ok? ==> r.value.apiKey != "" && r.value.baseUrl != "" && r.value.model != ""
    ensures r.Ok? && !Present(model) && !Present(Getenv(env, "LLM_MODEL_ID")) ==>
              r.value.model == DefaultModel(NormaliseProvider(provider, env))
    ensures r.Ok? && Present(model) ==> r.value.model == model.value
    ensures r.Ok? && !Present(model) && Present(Getenv(env, "LLM_MODEL_ID")) ==>
              r.value.model == Getenv(env, "LLM_MODEL_ID").value
    ensures r.Ok? ==> var creds := ResolveCredentials(NormaliseProvider(provider, env), apiKey, baseUrl, env);
              && r.value.apiKey == creds.0.value && r.value.baseUrl == creds.1.value
              && r.value.provider == NormaliseProvider(provider, env)
              && r.value.timeout == ResolveTimeout(timeout, env).value
  {
    var m := Or(model, Getenv(env, "LLM_MODEL_ID"));
    match ResolveTimeout(timeout, env)
    case Err(e) => Err(e)
    case Ok(t) =>
      var p := NormaliseProvider(provider, env);
      var (key, url) := ResolveCredentials(p, apiKey, baseUrl, env);
      var chosen := if Present(m) then m.value else DefaultModel(p);
      if !Present(key) || !Present(url) then Err(MissingCredentials)
      else Ok(LlmClient(chosen, key.value, url.value, p, t))
  }

  // ---------------------------------------------------------------------
  // Framing of replies.

  /** The first choice's delta of one streamed chunk: `None` stands both for
      a missing attribute and for an attribute holding `None`. */
  datatype Delta = Delta(reasoning: Option<string>, content: Option<string>)

  datatype StreamChunk = StreamChunk(choices: seq<Delta>)

  /** The two channels a reply may carry. */
  datatype Channel = Thinking | Answering

  /** One string `think` yields, tagged with its role. */
  datatype Piece = Header(ch: Channel) | Text(ch: Channel, text: string)

  const ThinkingBanner: string := "\n思考中...\n"
  const AnsweringBanner: string := "\n\n开始回答:\n"

  function PieceText(p: Piece): string {
    match p
    case Header(Thinking) => ThinkingBanner
    case Header(Answering) => AnsweringBanner
    case Text(_, t) => t
  }

  function Render(ps: seq<Piece>): (r: seq<string>)
    ensures |r| == |ps| && forall k :: 0 <= k < |ps| ==> r[k] == PieceText(ps[k])
  {
    if |ps| == 0 then [] else [PieceText(ps[0])] + Render(ps[1..])
  }

  function Field(d: Delta, ch: Channel): Option<string> {
    if ch == Thinking then d.reasoning else d.content
  }

  /** The one-shot flag of a channel. */
  function Started(thinking: bool, answering: bool, ch: Channel): bool {
    if ch == Thinking then thinking else answering
  }

  /** What one channel of one delta yields. */
  function ChannelPieces(ch: Channel, x: Option<string>, started: bool): seq<Piece> {
    if Present(x) then (if started then [] else [Header(ch)]) + [Text(ch, x.value)] else []
  }

  function DeltaPieces(d: Delta, thinking: bool, answering: bool): seq<Piece> {
    ChannelPieces(Thinking, d.reasoning, thinking) + ChannelPieces(Answering, d.content, answering)
  }

  /** The loop of `think` from a given pair of flags: stop at the first chunk
      without choices, otherwise frame the first choice's delta. */
  function ThinkFrom(s: seq<StreamChunk>, thinking: bool, answering: bool): (ps: seq<Piece>)
    ensures |ps| <= 4 * |s|
    decreases |s|
  {
    if |s| == 0 || |s[0].choices| == 0 then []
    else
      var d := s[0].choices[0];
      DeltaPieces(d, thinking, answering)
        + ThinkFrom(s[1..], thinking || Present(d.reasoning), answering || Present(d.content))
  }

  /** `think`: what the generator yields for a streamed reply. */
  function Think(s: seq<StreamChunk>): (r: seq<string>)
    ensures |r| <= 4 * |s|
  {
    Render(ThinkFrom(s, false, false))
  }

  /** `think` never yields an empty string: both headers are non-empty and
      a text is yielded only when it is non-empty. */
  lemma ThinkYieldsNoEmpty(s: seq<StreamChunk>)
    ensures forall k :: 0 <= k < |Think(s)| ==> Think(s)[k] != ""
  {
    var ps := ThinkFrom(s, false, false);
    ThinkFromTextsNonEmpty(s, false, false);
    assert NoEmptyText(ps);
    forall k | 0 <= k < |ps| ensures PieceText(ps[k]) != "" {
      match ps[k]
      case Header(Thinking) => assert ThinkingBanner[0] == '\n';
      case Header(Answering) => assert AnsweringBanner[0] == '\n';
      case Text(_, _) =>
    }
  }

  /** No text piece is empty. */
  predicate NoEmptyText(ps: seq<Piece>) {
    forall k :: 0 <= k < |ps| && ps[k].Text? ==> ps[k].text != ""
  }

  lemma {:induction false} ThinkFromTextsNonEmpty(s: seq<StreamChunk>, thinking: bool, answering: bool)
    ensures NoEmptyText(ThinkFrom(s, thinking, answering))
    decreases |s|
  {
    if |s| > 0 && |s[0].choices| > 0 {
      var d := s[0].choices[0];
      var t' := thinking || Present(d.reasoning);
      var a' := answering || Present(d.content);
      ThinkFromTextsNonEmpty(s[1..], t', a');
      NoEmptyTextAppend(DeltaPieces(d, thinking, answering), ThinkFrom(s[1..], t', a'));
    }
  }

  lemma NoEmptyTextAppend(a: seq<Piece>, b: seq<Piece>)
    requires NoEmptyText(a) && NoEmptyText(b)
    ensures NoEmptyText(a + b)
  {
    forall k | 0 <= k < |a + b| && (a + b)[k].Text? ensures (a + b)[k].text != "" {
      if k >= |a| {
        assert (a + b)[k] == b[k - |a|];
      }
    }
  }

  /** The deltas `think` looks at: the first choice of each chunk before the
      first chunk without choices. */
  function Processed(s: seq<StreamChunk>): seq<Delta>
    decreases |s|
  {
    if |s| == 0 || |s[0].choices| == 0 then [] else [s[0].choices[0]] + Processed(s[1..])
  }

  /** The non-empty values a channel carries over a sequence of deltas. */
  function ChannelValues(ch: Channel, ds: seq<Delta>): seq<string> {
    if |ds| == 0 then []
    else (if Present(Field(ds[0], ch)) then [Field(ds[0], ch).value] else []) + ChannelValues(ch, ds[1..])
  }

  predicate AnyPresent(ch: Channel, ds: seq<Delta>) {
    exists k :: 0 <= k < |ds| && Present(Field(ds[k], ch))
  }

  /** The texts a piece sequence carries on a channel, in order. */
  function TextsOf(ch: Channel, ps: seq<Piece>): seq<string> {
    if |ps| == 0 then []
    else (if ps[0].Text? && ps[0].ch == ch then [ps[0].text] else []) + TextsOf(ch, ps[1..])
  }

  function HeaderCount(ch: Channel, ps: seq<Piece>): nat {
    if |ps| == 0 then 0 else (if ps[0] == Header(ch) then 1 else 0) + HeaderCount(ch, ps[1..])
  }

  lemma {:induction false} TextsOfAppend(ch: Channel, a: seq<Piece>, b: seq<Piece>)
    ensures TextsOf(ch, a + b) == TextsOf(ch, a) + TextsOf(ch, b)
  {
    if |a| > 0 {
      assert (a + b)[1..] == a[1..] + b;
      TextsOfAppend(ch, a[1..], b);
    } else {
      assert a + b == b;
    }
  }

  lemma {:induction false} HeaderCountAppend(ch: Channel, a: seq<Piece>, b: seq<Piece>)
    ensures HeaderCount(ch, a + b) == HeaderCount(ch, a) + HeaderCount(ch, b)
  {
    if |a| > 0 {
      assert (a + b)[1..] == a[1..] + b;
      HeaderCountAppend(ch, a[1..], b);
    } else {
      assert a + b == b;
    }
  }

  lemma DeltaPiecesShape(ch: Channel, d: Delta, thinking: bool, answering: bool)
    ensures TextsOf(ch, DeltaPieces(d, thinking, answering))
            == (if Present(Field(d, ch)) then [Field(d, ch).value] else [])
    ensures HeaderCount(ch, DeltaPieces(d, thinking, answering))
            == (if Present(Field(d, ch)) && !Started(thinking, answering, ch) then 1 else 0)
  {
    var a := ChannelPieces(Thinking, d.reasoning, thinking);
    var b := ChannelPieces(Answering, d.content, answering);
    TextsOfAppend(ch, a, b);
    HeaderCountAppend(ch, a, b);
    ChannelPiecesShape(ch, Thinking, d.reasoning, thinking);
    ChannelPiecesShape(ch, Answering, d.content, answering);
  }

  /** One channel of one delta carries its value, if non-empty, on that
      channel only, with a header only before the channel's first value. */
  lemma ChannelPiecesShape(ch: Channel, c: Channel, x: Option<string>, started: bool)
    ensures TextsOf(ch, ChannelPieces(c, x, started)) == (if ch == c && Present(x) then [x.value] else [])
    ensures HeaderCount(ch, ChannelPieces(c, x, started)) == (if ch == c && Present(x) && !started then 1 else 0)
  {
    if Present(x) {
      var t := [Text(c, x.value)];
      assert t[1..] == [];
      assert TextsOf(ch, t) == (if ch == c then [x.value] else []);
      assert HeaderCount(ch, t) == 0;
      if !started {
        var ps := [Header(c)] + t;
        assert ps[1..] == t;
        assert TextsOf(ch, ps) == TextsOf(ch, t);
      }
    }
  }

  /** Every non-empty piece of a processed delta is yielded, on its own
      channel and in stream order; empty or missing pieces yield nothing. */
  lemma {:induction false} ThinkTexts(ch: Channel, s: seq<StreamChunk>, thinking: bool, answering: bool)
    ensures TextsOf(ch, ThinkFrom(s, thinking, answering)) == ChannelValues(ch, Processed(s))
    decreases |s|
  {
    if |s| > 0 && |s[0].choices| > 0 {
      var d := s[0].choices[0];
      var t' := thinking || Present(d.reasoning);
      var a' := answering || Present(d.content);
      TextsOfAppend(ch, DeltaPieces(d, thinking, answering), ThinkFrom(s[1..], t', a'));
      DeltaPiecesShape(ch, d, thinking, answering);
      ThinkTexts(ch, s[1..], t', a');
      assert Processed(s) == [d] + Processed(s[1..]);
      assert ([d] + Processed(s[1..]))[1..] == Processed(s[1..]);
    }
  }

  /** A channel's header appears once if the channel had not started and
      some processed delta carries a non-empty piece on it, and never otherwise. */
  lemma {:induction false} ThinkHeaderCount(ch: Channel, s: seq<StreamChunk>, thinking: bool, answering: bool)
    ensures HeaderCount(ch, ThinkFrom(s, thinking, answering))
            == (if !Started(thinking, answering, ch) && AnyPresent(ch, Processed(s)) then 1 else 0)
    decreases |s|
  {
    if |s| > 0 && |s[0].choices| > 0 {
      var d := s[0].choices[0];
      var t' := thinking || Present(d.reasoning);
      var a' := answering || Present(d.content);
      HeaderCountAppend(ch, DeltaPieces(d, thinking, answering), ThinkFrom(s[1..], t', a'));
      DeltaPiecesShape(ch, d, thinking, answering);
      ThinkHeaderCount(ch, s[1..], t', a');
      assert Processed(s) == [d] + Processed(s[1..]);
      AnyPresentCons(ch, d, Processed(s[1..]));
    } else {
      assert Processed(s) == [];
    }
  }

  /** A channel carries a value somewhere in `[d] + ds` exactly when it
      does in `d` or somewhere in `ds`. */
  lemma AnyPresentCons(ch: Channel, d: Delta, ds: seq<Delta>)
    ensures AnyPresent(ch, [d] + ds) <==> Present(Field(d, ch)) || AnyPresent(ch, ds)
  {
    var all := [d] + ds;
    assert all[0] == d;
    if AnyPresent(ch, ds) {
      var k :| 0 <= k < |ds| && Present(Field(ds[k], ch));
      assert all[k + 1] == ds[k];
    }
    if AnyPresent(ch, all) && !Present(Field(d, ch)) {
      var k :| 0 <= k < |all| && Present(Field(all[k], ch));
      assert k > 0 && ds[k - 1] == all[k];
    }
  }

  /** Every header is immediately followed by a non-empty text on its channel. */
  predicate HeadersFollowed(ps: seq<Piece>) {
    forall k :: 0 <= k < |ps| && ps[k].Header? ==>
      k + 1 < |ps| && ps[k + 1].Text? && ps[k + 1].ch == ps[k].ch && ps[k + 1].text != ""
  }

  lemma HeadersFollowedAppend(a: seq<Piece>, b: seq<Piece>)
    requires HeadersFollowed(a) && HeadersFollowed(b)
    ensures HeadersFollowed(a + b)
  {
    var ab := a + b;
    forall k | 0 <= k < |ab| && ab[k].Header?
      ensures k + 1 < |ab| && ab[k + 1].Text? && ab[k + 1].ch == ab[k].ch && ab[k + 1].text != ""
    {
      if k < |a| {
        assert ab[k] == a[k] && ab[k + 1] == a[k + 1];
      } else {
        assert ab[k] == b[k - |a|] && ab[k + 1] == b[k + 1 - |a|];
      }
    }
  }

  lemma DeltaPiecesFollowed(d: Delta, thinking: bool, answering: bool)
    ensures HeadersFollowed(DeltaPieces(d, thinking, answering))
  {
    HeadersFollowedAppend(ChannelPieces(Thinking, d.reasoning, thinking), ChannelPieces(Answering, d.content, answering));
  }

  /** A header is always immediately followed by a non-empty piece of text on
      its channel. */
  lemma {:induction false} HeaderPrecedesText(s: seq<StreamChunk>, thinking: bool, answering: bool)
    ensures HeadersFollowed(ThinkFrom(s, thinking, answering))
    decreases |s|
  {
    if |s| > 0 && |s[0].choices| > 0 {
      var d := s[0].choices[0];
      var t' := thinking || Present(d.reasoning);
      var a' := answering || Present(d.content);
      HeaderPrecedesText(s[1..], t', a');
      DeltaPiecesFollowed(d, thinking, answering);
      HeadersFollowedAppend(DeltaPieces(d, thinking, answering), ThinkFrom(s[1..], t', a'));
    }
  }

  /** No text on channel `ch` comes before a header on `ch`, unless `started`. */
  predicate HeaderFirst(ch: Channel, ps: seq<Piece>, started: bool) {
    forall j :: 0 <= j < |ps| && ps[j].Text? && ps[j].ch == ch ==> started || Header(ch) in ps[..j]
  }

  lemma HeaderFirstAppend(ch: Channel, a: seq<Piece>, b: seq<Piece>, started: bool)
    requires HeaderFirst(ch, a, started)
    requires HeaderFirst(ch, b, started || Header(ch) in a)
    ensures HeaderFirst(ch, a + b, started)
  {
    var ab := a + b;
    forall j | 0 <= j < |ab| && ab[j].Text? && ab[j].ch == ch && !started
      ensures Header(ch) in ab[..j]
    {
      if j < |a| {
        assert ab[j] == a[j];
        assert ab[..j] == a[..j];
      } else {
        assert ab[j] == b[j - |a|];
        if Header(ch) in a {
          var i :| 0 <= i < |a| && a[i] == Header(ch);
          assert ab[..j][i] == Header(ch);
        } else {
          var i :| 0 <= i < j - |a| && b[..j - |a|][i] == Header(ch);
          assert ab[..j][|a| + i] == Header(ch);
        }
      }
    }
  }

  lemma ChannelPiecesHeaderFirst(ch: Channel, c: Channel, x: Option<string>, started: bool, st: bool)
    requires c == ch ==> st == started
    ensures HeaderFirst(ch, ChannelPieces(c, x, st), started)
    ensures c == ch && Present(x) && !started ==> Header(ch) in ChannelPieces(c, x, st)
  {
    var ps := ChannelPieces(c, x, st);
    if c == ch && Present(x) && !st {
      assert ps == [Header(ch), Text(ch, x.value)];
      assert ps[..1] == [Header(ch)];
    }
  }

  lemma DeltaPiecesHeaderFirst(ch: Channel, d: Delta, thinking: bool, answering: bool)
    ensures HeaderFirst(ch, DeltaPieces(d, thinking, answering), Started(thinking, answering, ch))
    ensures Present(Field(d, ch)) && !Started(thinking, answering, ch) ==> Header(ch) in DeltaPieces(d, thinking, answering)
  {
    var started := Started(thinking, answering, ch);
    var a := ChannelPieces(Thinking, d.reasoning, thinking);
    var b := ChannelPieces(Answering, d.content, answering);
    ChannelPiecesHeaderFirst(ch, Thinking, d.reasoning, started, thinking);
    ChannelPiecesHeaderFirst(ch, Answering, d.content, started, answering);
    HeaderFirstAppend(ch, a, b, started);
    assert a + b == DeltaPieces(d, thinking, answering);
    if Header(ch) in a {
      var i :| 0 <= i < |a| && a[i] == Header(ch);
      assert (a + b)[i] == Header(ch);
    }
    if Header(ch) in b {
      var i :| 0 <= i < |b| && b[i] == Header(ch);
      assert (a + b)[|a| + i] == Header(ch);
    }
  }

  /** No text appears on a channel before its header, unless the channel had
      already started. Together with the header count, the header appears at
      most once and immediately before the first non-empty piece. */
  lemma {:induction false} HeaderComesFirst(ch: Channel, s: seq<StreamChunk>, thinking: bool, answering: bool)
    ensures HeaderFirst(ch, ThinkFrom(s, thinking, answering), Started(thinking, answering, ch))
    decreases |s|
  {
    if |s| > 0 && |s[0].choices| > 0 {
      var d := s[0].choices[0];
      var t' := thinking || Present(d.reasoning);
      var a' := answering || Present(d.content);
      var head := DeltaPieces(d, thinking, answering);
      HeaderComesFirst(ch, s[1..], t', a');
      DeltaPiecesHeaderFirst(ch, d, thinking, answering);
      HeaderFirstAppend(ch, head, ThinkFrom(s[1..], t', a'), Started(thinking, answering, ch));
    }
  }

  /** `think` stops at the first chunk without choices: nothing after it matters. */
  lemma {:induction false} ThinkStopsAtEmptyChunk(s: seq<StreamChunk>, i: nat, thinking: bool, answering: bool)
    requires i < |s| && |s[i].choices| == 0
    ensures ThinkFrom(s, thinking, answering) == ThinkFrom(s[..i], thinking, answering)
    decreases i
  {
    if i > 0 && |s[0].choices| > 0 {
      var d := s[0].choices[0];
      assert s[..i][1..] == s[1..][..i - 1];
      ThinkStopsAtEmptyChunk(s[1..], i - 1, thinking || Present(d.reasoning), answering || Present(d.content));
    }
  }

  /** What a non-streamed reply's message carries. */
  datatype ReplyMessage = ReplyMessage(reasoning: Option<string>, content: Option<string>)

  /** `f"{content}"`: a missing content is formatted as `None`. */
  function FormatContent(content: Option<string>): string {
    match content
    case Some(c) => c
    case None => "None"
  }

  /** `invoke`: the content, prefixed with the framed reasoning iff the
      message carries non-empty reasoning. */
  function Invoke(m: ReplyMessage): (r: string)
    ensures Present(m.reasoning) ==>
              r == ThinkingBanner + m.reasoning.value + AnsweringBanner + FormatContent(m.content)
    ensures !Present(m.reasoning) ==> r == FormatContent(m.content)
  {
    var prefix := if Present(m.reasoning) then ThinkingBanner + m.reasoning.value + AnsweringBanner else "";
    prefix + FormatContent(m.content)
  }

  lemma ConcatOne(x: string)
    ensures Concat([x]) == x
  {
    assert [x][..0] == [];
  }

  /** How streaming and non-streaming framing compare: for a one-chunk stream
      with non-empty content, the joined stream is exactly what `invoke`
      returns for the same reasoning and content when there is reasoning;
      without reasoning the stream still carries the answer header, which
      `invoke` leaves out. */
  lemma StreamFramingMatchesInvoke(reasoning: Option<string>, content: string)
    requires content != ""
    ensures Present(reasoning) ==>
              Concat(Think([StreamChunk([Delta(reasoning, Some(content))])]))
              == Invoke(ReplyMessage(reasoning, Some(content)))
    ensures !Present(reasoning) ==>
              Concat(Think([StreamChunk([Delta(reasoning, Some(content))])]))
              == AnsweringBanner + Invoke(ReplyMessage(reasoning, Some(content)))
  {
    var r := Think([StreamChunk([Delta(reasoning, Some(content))])]);
    OneChunkPieces(reasoning, content);
    ConcatPair(AnsweringBanner, content);
    if Present(reasoning) {
      assert r == [ThinkingBanner, reasoning.value] + [AnsweringBanner, content];
      ConcatAppend([ThinkingBanner, reasoning.value], [AnsweringBanner, content]);
      ConcatPair(ThinkingBanner, reasoning.value);
    } else {
      assert r == [AnsweringBanner, content];
    }
  }

  lemma ConcatPair(a: string, b: string)
    ensures Concat([a, b]) == a + b
  {
    assert [a, b][..1] == [a];
    ConcatOne(a);
  }

  /** What `think` yields for one chunk carrying non-empty content. */
  lemma OneChunkPieces(reasoning: Option<string>, content: string)
    requires content != ""
    ensures Think([StreamChunk([Delta(reasoning, Some(content))])])
         == (if Present(reasoning) then [ThinkingBanner, reasoning.value] else []) + [AnsweringBanner, content]
  {
    var s := [StreamChunk([Delta(reasoning, Some(content))])];
    var d := Delta(reasoning, Some(content));
    assert ThinkFrom(s[1..], Present(reasoning), true) == [];
    var ps := ThinkFrom(s, false, false);
    assert ps == DeltaPieces(d, false, false);
    var a := if Present(reasoning) then [Header(Thinking), Text(Thinking, reasoning.value)] else [];
    assert ps == a + [Header(Answering), Text(Answering, content)];
  }
}
