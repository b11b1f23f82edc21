/**
 * The single-agent conversation session (`SingleAgent` in core/single_agent.py): provider
 * selection, prompt assembly and the message pipeline validate, rate-check, sanitise, record
 * the user turn, build the prompt, ask the provider, record the reply. The language-model
 * call is the function parameter `complete`; every failure becomes a returned string.
 */
module Sessions {
  import opened Wrappers
  import opened Ascii
  import opened Validators
  import opened RateLimiting
  import opened AgentBase
  import opened Configuration

  datatype Provider = OpenAI | Anthropic

  const NoProviderKeyError := "No AI provider API key configured"
  const DefaultAnthropicModel := "claude-3-haiku-20240307"
  const Apology := "I apologize, but I encountered an error processing your message. Please try again."
  const InvalidInputPrefix := "Invalid input: "
  /** The rate limiter of a session always counts requests over one minute. */
  const SessionWindow := 60
  /** `_build_enhanced_prompt` asks for a context window of five turns. */
  const PromptWindow := 5

  /** Python truthiness of an optional key: present and not the empty string. */
  predicate Truthy(key: Option<string>) {
    key.Some? && key.value != ""
  }

  /** The provider choice of `__init__`: OpenAI whenever its key is set, then Anthropic. */
  function SelectProvider(s: Settings): (r: Result<Provider, string>)
    ensures r == Success(OpenAI) <==> Truthy(s.openaiApiKey)
    ensures r == Success(Anthropic) <==> !Truthy(s.openaiApiKey) && Truthy(s.anthropicApiKey)
    ensures r.Failure? <==> !Truthy(s.openaiApiKey) && !Truthy(s.anthropicApiKey)
    ensures r.Failure? ==> r.error == NoProviderKeyError
  {
    if Truthy(s.openaiApiKey) then Success(OpenAI)
    else if Truthy(s.anthropicApiKey) then Success(Anthropic)
    else Failure(NoProviderKeyError)
  }

  /**
   * The session treats an empty key as missing while `Settings` counts it as configured, so the
   * two can disagree: with an empty OpenAI key the settings prefer OpenAI and the session
   * uses Anthropic, or fails although the settings report a provider.
   */
  lemma EmptyKeyDisagreement(s: Settings)
    requires s.openaiApiKey == Some("")
    ensures s.GetPreferredProvider() == Success("openai")
    ensures Truthy(s.anthropicApiKey) ==> SelectProvider(s) == Success(Anthropic)
    ensures !Truthy(s.anthropicApiKey) ==> SelectProvider(s).Failure? && s.HasAiProvider()
  {
  }

  /** Every successful selection is backed by a provider the settings also report. */
  lemma SelectedProviderIsConfigured(s: Settings)
    requires SelectProvider(s).Success?
    ensures s.HasAiProvider()
    ensures SelectProvider(s) == Success(OpenAI) ==> s.GetPreferredProvider() == Success("openai")
  {
  }

  /** The model sent to Anthropic: the configured one if it names a Claude model. */
  function AnthropicModel(model: string): (r: string)
    ensures Contains(model, "claude") ==> r == model
    ensures !Contains(model, "claude") ==> r == DefaultAnthropicModel
  {
    if Contains(model, "claude") then model else DefaultAnthropicModel
  }

  lemma DefaultAnthropicModelIsClaude(m: string, claude: string)
    requires m == DefaultAnthropicModel && claude == "claude"
    ensures Contains(m, claude)
  {
    assert m[..|claude|] == claude;
  }

  /** Whatever model is configured, Anthropic is always asked for a Claude model. */
  lemma AnthropicModelIsClaude(model: string)
    ensures Contains(AnthropicModel(model), "claude")
  {
    if !Contains(model, "claude") {
      DefaultAnthropicModelIsClaude(DefaultAnthropicModel, "claude");
    }
  }

  /** What the provider call receives: the single user message holding the whole prompt. */
  datatype CompletionRequest = CompletionRequest(
    provider: Provider, model: string, prompt: string, temperature: real, maxTokens: int)

  /** The provider's answer; any exception of the client call is `ProviderError`. */
  datatype ProviderReply = Reply(content: string) | ProviderError

  /** `_get_ai_response`: the request for the configured provider. */
  function RequestFor(provider: Provider, model: string, prompt: string, temperature: real, maxTokens: int)
    : (r: CompletionRequest)
    ensures r.provider == provider && r.prompt == prompt
    ensures r.temperature == temperature && r.maxTokens == maxTokens
    ensures provider == OpenAI ==> r.model == model
    ensures provider == Anthropic ==> r.model == AnthropicModel(model)
  {
    match provider
    case OpenAI => CompletionRequest(OpenAI, model, prompt, temperature, maxTokens)
    case Anthropic => CompletionRequest(Anthropic, AnthropicModel(model), prompt, temperature, maxTokens)
  }

  // ---------------------------------------------------------------------------
  // Prompt assembly
  // ---------------------------------------------------------------------------

  const KnowledgeHeader := "\n\n=== KNOWLEDGE BASE ===\n"
  const ContextHeader := "\n\n=== CONTEXT ===\n"
  const HistoryHeader := "\n\n=== RECENT CONVERSATION ===\n"
  const CurrentHeader := "\n\n=== CURRENT MESSAGE ===\nUSER: "

  /** One `prompt_parts` element, by where it came from. */
  datatype PromptSection =
    | SystemSection(text: string)
    | KnowledgeSection(entries: Entries)
    | ContextSection(entries: Entries)
    | HistorySection(turns: seq<ChatMessage>)
    | CurrentSection(message: string)

  /** `f"\n{key}: {value}"`. */
  function EntryLine(e: (string, string)): string {
    "\n" + e.0 + ": " + e.1
  }

  /** The lines of a dictionary, one per entry in stored order. */
  function EntryLines(entries: Entries): string
    decreases |entries|
  {
    if entries == [] then [] else EntryLines(entries[..|entries| - 1]) + EntryLine(entries[|entries| - 1])
  }

  /** `f"\n{msg['role'].upper()}: {msg['content']}"`. */
  function TurnLine(m: ChatMessage): string {
    "\n" + Upper(m.role) + ": " + m.content
  }

  function TurnLines(turns: seq<ChatMessage>): string
    decreases |turns|
  {
    if turns == [] then [] else TurnLines(turns[..|turns| - 1]) + TurnLine(turns[|turns| - 1])
  }

  function Render(s: PromptSection): string {
    match s
    case SystemSection(text) => text
    case KnowledgeSection(entries) => KnowledgeHeader + EntryLines(entries)
    case ContextSection(entries) => ContextHeader + EntryLines(entries)
    case HistorySection(turns) => HistoryHeader + TurnLines(turns)
    case CurrentSection(message) => CurrentHeader + message
  }

  function RenderAll(sections: seq<PromptSection>): (r: seq<string>)
    ensures |r| == |sections| && forall i | 0 <= i < |r| :: r[i] == Render(sections[i])
  {
    seq(|sections|, i requires 0 <= i < |sections| => Render(sections[i]))
  }

  /** `if context:` on the validated context. */
  predicate HasContext(context: Option<Entries>) {
    context.Some? && context.value != []
  }

  /**
   * The sections of `_build_enhanced_prompt`: the system prompt, the knowledge base if any,
   * the context if any, the context window minus its newest entry if the window is non-empty,
   * and the current message.
   */
  function Sections(systemPrompt: string, knowledgeBase: Entries, context: Option<Entries>,
                    window: seq<ChatMessage>, message: string): (r: seq<PromptSection>)
    ensures 2 <= |r| <= 5
    ensures r[0] == SystemSection(systemPrompt) && r[|r| - 1] == CurrentSection(message)
  {
    [SystemSection(systemPrompt)]
      + (if knowledgeBase != [] then [KnowledgeSection(knowledgeBase)] else [])
      + (if HasContext(context) then [ContextSection(context.value)] else [])
      + (if window != [] then [HistorySection(window[..|window| - 1])] else [])
      + [CurrentSection(message)]
  }

  /** `"\n".join(parts)`. */
  function JoinLines(parts: seq<string>): string
    decreases |parts|
  {
    if parts == [] then []
    else if |parts| == 1 then parts[0]
    else parts[0] + "\n" + JoinLines(parts[1..])
  }

  /** The prompt text `_build_enhanced_prompt` returns. */
  function EnhancedPrompt(systemPrompt: string, knowledgeBase: Entries, context: Option<Entries>,
                          window: seq<ChatMessage>, message: string): string
  {
    JoinLines(RenderAll(Sections(systemPrompt, knowledgeBase, context, window, message)))
  }

  lemma {:induction false} EntryLinesAppend(a: Entries, b: Entries)
    ensures EntryLines(a + b) == EntryLines(a) + EntryLines(b)
    decreases |b|
  {
    if b == [] {
      assert a + b == a;
    } else {
      var b' := b[..|b| - 1];
      var last := EntryLine(b[|b| - 1]);
      assert (a + b)[..|a + b| - 1] == a + b' && (a + b)[|a + b| - 1] == b[|b| - 1];
      EntryLinesAppend(a, b');
      assert (EntryLines(a) + EntryLines(b')) + last == EntryLines(a) + (EntryLines(b') + last);
    }
  }

  /**
   * Every entry is rendered exactly where its position says: the lines before it, its own
   * line, then the lines after it.
   */
  lemma EntryLinesAt(entries: Entries, i: nat)
    requires i < |entries|
    ensures EntryLines(entries)
         == EntryLines(entries[..i]) + EntryLine(entries[i]) + EntryLines(entries[i + 1..])
  {
    EntriesSplitAt(entries, i);
    EntryLinesSplit(entries[..i], entries[i], entries[i + 1..]);
  }

  lemma EntriesSplitAt(entries: Entries, i: nat)
    requires i < |entries|
    ensures entries == entries[..i] + [entries[i]] + entries[i + 1..]
  {
    assert entries == entries[..i] + entries[i..];
    assert entries[i..] == [entries[i]] + entries[i + 1..];
  }

  /** The rendering of `pre`, then one entry, then `post`, is the three renderings in order. */
  lemma EntryLinesSplit(pre: Entries, e: (string, string), post: Entries)
    ensures EntryLines(pre + [e] + post) == EntryLines(pre) + EntryLine(e) + EntryLines(post)
  {
    EntryLinesAppend(pre + [e], post);
    EntryLinesAppend(pre, [e]);
    assert EntryLines([e]) == EntryLine(e) by {
      assert [e][..0] == [];
    }
  }

  lemma {:induction false} JoinLinesStartsWith(parts: seq<string>)
    requires parts != []
    ensures StartsWith(JoinLines(parts), parts[0])
  {
    if |parts| > 1 {
      var j := JoinLines(parts);
      assert j == parts[0] + ("\n" + JoinLines(parts[1..]));
      assert j[..|parts[0]|] == parts[0];
    }
  }

  lemma {:induction false} JoinLinesEndsWith(parts: seq<string>)
    requires parts != []
    ensures var j := JoinLines(parts); var last := parts[|parts| - 1];
      |last| <= |j| && j[|j| - |last|..] == last
    decreases |parts|
  {
    if |parts| > 1 {
      var rest := parts[1..];
      JoinLinesEndsWith(rest);
      var j := JoinLines(parts);
      var jr := JoinLines(rest);
      assert j == (parts[0] + "\n") + jr;
      assert rest[|rest| - 1] == parts[|parts| - 1];
      var last := parts[|parts| - 1];
      assert j[|j| - |last|..] == jr[|jr| - |last|..];
    }
  }

  /**
   * The prompt starts with the system prompt and ends with the current-message block. Since
   * the knowledge base and the context are rendered between the two, neither can push the
   * user's message anywhere but to the end.
   */
  lemma PromptFrame(systemPrompt: string, knowledgeBase: Entries, context: Option<Entries>,
                    window: seq<ChatMessage>, message: string)
    ensures var p := EnhancedPrompt(systemPrompt, knowledgeBase, context, window, message);
      var tail := CurrentHeader + message;
      && StartsWith(p, systemPrompt)
      && |tail| <= |p| && p[|p| - |tail|..] == tail
  {
    var parts := RenderAll(Sections(systemPrompt, knowledgeBase, context, window, message));
    JoinLinesStartsWith(parts);
    JoinLinesEndsWith(parts);
  }

  /** The optional blocks, each an empty or a one-element sequence. */
  function KnowledgePart(knowledgeBase: Entries): seq<PromptSection> {
    if knowledgeBase != [] then [KnowledgeSection(knowledgeBase)] else []
  }

  function ContextPart(context: Option<Entries>): seq<PromptSection> {
    if HasContext(context) then [ContextSection(context.value)] else []
  }

  function HistoryPart(window: seq<ChatMessage>): seq<PromptSection> {
    if window != [] then [HistorySection(window[..|window| - 1])] else []
  }

  lemma SectionsSplit(systemPrompt: string, knowledgeBase: Entries, context: Option<Entries>,
                      window: seq<ChatMessage>, message: string)
    ensures Sections(systemPrompt, knowledgeBase, context, window, message)
         == [SystemSection(systemPrompt)] + KnowledgePart(knowledgeBase) + ContextPart(context)
            + HistoryPart(window) + [CurrentSection(message)]
  {
  }

  /**
   * Each optional block is present exactly when its source is non-empty; the knowledge base
   * and the context are rendered whole.
   */
  lemma SectionsPresence(systemPrompt: string, knowledgeBase: Entries, context: Option<Entries>,
                         window: seq<ChatMessage>, message: string)
    ensures var r := Sections(systemPrompt, knowledgeBase, context, window, message);
      && ((exists s | s in r :: s.KnowledgeSection?) <==> knowledgeBase != [])
      && ((exists s | s in r :: s.ContextSection?) <==> HasContext(context))
      && ((exists s | s in r :: s.HistorySection?) <==> window != [])
      && (knowledgeBase != [] ==> KnowledgeSection(knowledgeBase) in r)
      && (HasContext(context) ==> ContextSection(context.value) in r)
      && |r| == 2 + (if knowledgeBase != [] then 1 else 0) + (if HasContext(context) then 1 else 0)
                  + (if window != [] then 1 else 0)
  {
    var r := Sections(systemPrompt, knowledgeBase, context, window, message);
    var kb := KnowledgePart(knowledgeBase);
    var cx := ContextPart(context);
    var hs := HistoryPart(window);
    SectionsSplit(systemPrompt, knowledgeBase, context, window, message);
    forall s | s in r
      ensures s in kb || s in cx || s in hs || s == SystemSection(systemPrompt) || s == CurrentSection(message)
    {
    }
    if knowledgeBase != [] {
      assert r[1] == KnowledgeSection(knowledgeBase);
      assert r[1] in r;
    }
    if HasContext(context) {
      assert r[1 + |kb|] == ContextSection(context.value);
      assert r[1 + |kb|] in r;
    }
    if window != [] {
      assert r[|r| - 2] in r && r[|r| - 2].HistorySection?;
    }
  }

  /**
   * Within a session the window is the five newest turns; the conversation block shows the
   * ones before the newest, so at most four, oldest first.
   */
  lemma HistorySectionTurns(history: seq<Turn>, systemPrompt: string, knowledgeBase: Entries,
                            context: Option<Entries>, message: string)
    requires history != []
    ensures var w := ContextWindow(history, PromptWindow);
      var turns := w[..|w| - 1];
      && HistorySection(turns) in Sections(systemPrompt, knowledgeBase, context, w, message)
      && |turns| <= PromptWindow - 1
      && |turns| == Min(PromptWindow, |history|) - 1
      && forall i | 0 <= i < |turns| :: turns[i] == Project(history[|history| - |w| + i])
  {
    var w := ContextWindow(history, PromptWindow);
    var r := Sections(systemPrompt, knowledgeBase, context, w, message);
    assert r[|r| - 2] == HistorySection(w[..|w| - 1]);
  }

  lemma RenderAllAppend(a: seq<PromptSection>, b: seq<PromptSection>)
    ensures RenderAll(a + b) == RenderAll(a) + RenderAll(b)
  {
    assert forall i | 0 <= i < |a + b| :: RenderAll(a + b)[i] == (RenderAll(a) + RenderAll(b))[i];
  }

  /** The rendered parts: the system prompt, each present block, the current message. */
  lemma PartsOfSections(systemPrompt: string, knowledgeBase: Entries, context: Option<Entries>,
                        window: seq<ChatMessage>, message: string)
    ensures RenderAll(Sections(systemPrompt, knowledgeBase, context, window, message))
         == [systemPrompt] + RenderAll(KnowledgePart(knowledgeBase)) + RenderAll(ContextPart(context))
            + RenderAll(HistoryPart(window)) + [CurrentHeader + message]
  {
    var a := [SystemSection(systemPrompt)];
    var k := KnowledgePart(knowledgeBase);
    var c := ContextPart(context);
    var h := HistoryPart(window);
    var m := [CurrentSection(message)];
    SectionsSplit(systemPrompt, knowledgeBase, context, window, message);
    RenderAllAppend(a + k + c + h, m);
    RenderAllAppend(a + k + c, h);
    RenderAllAppend(a + k, c);
    RenderAllAppend(a, k);
  }

  // ---------------------------------------------------------------------------
  // The message pipeline
  // ---------------------------------------------------------------------------

  /** The constant configuration of a session. */
  datatype AgentConfig = AgentConfig(
    systemPrompt: string, model: string, temperature: real, maxTokens: int,
    knowledgeBase: Entries, provider: Provider, maxRequests: int)

  /** What a message can change: the agent's history and the limiter's windows. */
  datatype SessionState = SessionState(history: seq<Turn>, requests: map<string, seq<int>>)

  /** The provider request for a message once its user turn is in `history`. */
  function UserRequest(cfg: AgentConfig, history: seq<Turn>, context: Option<Entries>, message: string)
    : CompletionRequest
  {
    var prompt := EnhancedPrompt(cfg.systemPrompt, cfg.knowledgeBase, context,
                                 ContextWindow(history, PromptWindow), message);
    RequestFor(cfg.provider, cfg.model, prompt, cfg.temperature, cfg.maxTokens)
  }

  /**
   * From recording the user turn on: the returned text and the history afterwards. The reply
   * is recorded only when the provider answers.
   */
  function Exchange(cfg: AgentConfig, history: seq<Turn>, safe: string, context: Option<Entries>,
                    userTime: string, replyTime: string,
                    complete: CompletionRequest -> ProviderReply): (string, seq<Turn>)
  {
    var h1 := history + [Turn("user", safe, userTime)];
    match complete(UserRequest(cfg, h1, context, safe))
    case ProviderError => (Apology, h1)
    case Reply(text) => (Trim(text), h1 + [Turn("assistant", Trim(text), replyTime)])
  }

  /** The rate check of a message that passed validation. */
  function RateCheck(cfg: AgentConfig, st: SessionState, userId: string, now: int): (CheckOutcome, seq<int>) {
    Check(WindowOf(st.requests, userId), now, cfg.maxRequests, SessionWindow)
  }

  /**
   * From the rate check on: the limiter window is updated whatever the outcome, and only an
   * admitted message reaches the history.
   */
  function Admitted(cfg: AgentConfig, st: SessionState, message: string, context: Option<Entries>,
                    userId: string, now: int, userTime: string, replyTime: string,
                    complete: CompletionRequest -> ProviderReply): (string, SessionState)
  {
    var chk := RateCheck(cfg, st, userId, now);
    var requests := st.requests[userId := chk.1];
    match chk.0
    case Exceeded(w) => (RateLimitMessage(w), SessionState(st.history, requests))
    case EmptyWindowIndexError => (Apology, SessionState(st.history, requests))
    case Allowed =>
      var ex := Exchange(cfg, st.history, Sanitized(message), context, userTime, replyTime, complete);
      (ex.0, SessionState(ex.1, requests))
  }

  /** `process_message`: the returned text and the state afterwards. */
  function Process(cfg: AgentConfig, st: SessionState, raw: RawMessage, context: ContextArg,
                   userId: string, now: int, userTime: string, replyTime: string,
                   complete: CompletionRequest -> ProviderReply): (string, SessionState)
  {
    match ValidateMessage(raw)
    case Failure(e) => (InvalidInputPrefix + e.Message(), st)
    case Success(message) =>
      match ValidateContext(context)
      case Failure(e) => (InvalidInputPrefix + e.Message(), st)
      case Success(ctx) => Admitted(cfg, st, message, ctx, userId, now, userTime, replyTime, complete)
  }

  predicate ValidInput(raw: RawMessage, context: ContextArg) {
    ValidateMessage(raw).Success? && ValidateContext(context).Success?
  }

  /** A rejected message or context is answered with the reason, and nothing changes. */
  lemma InvalidInputChangesNothing(cfg: AgentConfig, st: SessionState, raw: RawMessage,
                                   context: ContextArg, userId: string, now: int,
                                   userTime: string, replyTime: string,
                                   complete: CompletionRequest -> ProviderReply)
    requires !ValidInput(raw, context)
    ensures var r := Process(cfg, st, raw, context, userId, now, userTime, replyTime, complete);
      var e := if ValidateMessage(raw).Failure? then ValidateMessage(raw).error
               else ValidateContext(context).error;
      r.0 == InvalidInputPrefix + e.Message() && r.1 == st
  {
  }

  /**
   * A rate-limited message is answered with the limiter's message and leaves the history
   * alone; its window is only pruned, nothing is appended to it.
   */
  lemma RateLimitedKeepsHistory(cfg: AgentConfig, st: SessionState, raw: RawMessage,
                                context: ContextArg, userId: string, now: int,
                                userTime: string, replyTime: string,
                                complete: CompletionRequest -> ProviderReply)
    requires ValidInput(raw, context) && RateCheck(cfg, st, userId, now).0.Exceeded?
    ensures var r := Process(cfg, st, raw, context, userId, now, userTime, replyTime, complete);
      && r.0 == RateLimitMessage(RateCheck(cfg, st, userId, now).0.waitTime)
      && r.1.history == st.history
      && r.1.requests == st.requests[userId := Pruned(WindowOf(st.requests, userId), now, SessionWindow)]
  {
  }

  /** Stripping an already stripped reply changes nothing. */
  lemma TrimIdempotentOn(s: string)
    requires s == [] || (!IsSpace(s[0]) && !IsSpace(s[|s| - 1]))
    ensures Trim(s) == s
  {
  }

  /** A message and context that pass validation go on to the rate check. */
  lemma ProcessAdmits(cfg: AgentConfig, st: SessionState, raw: RawMessage, context: ContextArg,
                      userId: string, now: int, userTime: string, replyTime: string,
                      complete: CompletionRequest -> ProviderReply)
    requires ValidInput(raw, context)
    ensures Process(cfg, st, raw, context, userId, now, userTime, replyTime, complete)
         == Admitted(cfg, st, ValidateMessage(raw).value, ValidateContext(context).value,
                     userId, now, userTime, replyTime, complete)
  {
  }

  /** When the provider answers, both turns are recorded and the stripped answer returned. */
  lemma ExchangeReplied(cfg: AgentConfig, history: seq<Turn>, safe: string, context: Option<Entries>,
                        userTime: string, replyTime: string,
                        complete: CompletionRequest -> ProviderReply)
    requires complete(UserRequest(cfg, history + [Turn("user", safe, userTime)], context, safe)).Reply?
    ensures var ex := Exchange(cfg, history, safe, context, userTime, replyTime, complete);
      var text := complete(UserRequest(cfg, history + [Turn("user", safe, userTime)], context, safe)).content;
      && ex.0 == Trim(text)
      && ex.1 == history + [Turn("user", safe, userTime), Turn("assistant", ex.0, replyTime)]
  {
    var ex := Exchange(cfg, history, safe, context, userTime, replyTime, complete);
    var h1 := history + [Turn("user", safe, userTime)];
    assert ex.1 == h1 + [Turn("assistant", ex.0, replyTime)];
  }

  /** When the provider fails, only the user turn is recorded and the apology returned. */
  lemma ExchangeFailed(cfg: AgentConfig, history: seq<Turn>, safe: string, context: Option<Entries>,
                       userTime: string, replyTime: string,
                       complete: CompletionRequest -> ProviderReply)
    requires complete(UserRequest(cfg, history + [Turn("user", safe, userTime)], context, safe)).ProviderError?
    ensures Exchange(cfg, history, safe, context, userTime, replyTime, complete)
         == (Apology, history + [Turn("user", safe, userTime)])
  {
  }

  /** After an admitted rate check, the reply and history are those of the exchange. */
  lemma AdmittedExchange(cfg: AgentConfig, st: SessionState, message: string, context: Option<Entries>,
                         userId: string, now: int, userTime: string, replyTime: string,
                         complete: CompletionRequest -> ProviderReply)
    requires RateCheck(cfg, st, userId, now).0 == Allowed
    ensures var r := Admitted(cfg, st, message, context, userId, now, userTime, replyTime, complete);
      var ex := Exchange(cfg, st.history, Sanitized(message), context, userTime, replyTime, complete);
      r.0 == ex.0 && r.1.history == ex.1
  {
  }

  /**
   * A successful exchange appends exactly two turns, the sanitised user message and then the
   * stripped reply, and returns that reply.
   */
  lemma SuccessfulExchange(cfg: AgentConfig, st: SessionState, raw: RawMessage,
                           context: ContextArg, userId: string, now: int,
                           userTime: string, replyTime: string,
                           complete: CompletionRequest -> ProviderReply)
    requires ValidInput(raw, context) && RateCheck(cfg, st, userId, now).0 == Allowed
    requires var safe := Sanitized(ValidateMessage(raw).value);
      complete(UserRequest(cfg, st.history + [Turn("user", safe, userTime)],
                           ValidateContext(context).value, safe)).Reply?
    ensures var r := Process(cfg, st, raw, context, userId, now, userTime, replyTime, complete);
      var safe := Sanitized(ValidateMessage(raw).value);
      && r.0 == Trim(complete(UserRequest(cfg, st.history + [Turn("user", safe, userTime)],
                                          ValidateContext(context).value, safe)).content)
      && r.1.history == st.history + [Turn("user", safe, userTime), Turn("assistant", r.0, replyTime)]
      && Trim(r.0) == r.0
  {
    var message := ValidateMessage(raw).value;
    var ctx := ValidateContext(context).value;
    var safe := Sanitized(message);
    ProcessAdmits(cfg, st, raw, context, userId, now, userTime, replyTime, complete);
    AdmittedExchange(cfg, st, message, ctx, userId, now, userTime, replyTime, complete);
    ExchangeReplied(cfg, st.history, safe, ctx, userTime, replyTime, complete);
    var ex := Exchange(cfg, st.history, safe, ctx, userTime, replyTime, complete);
    TrimIdempotentOn(ex.0);
  }

  /** An admitted message records `now` in the sender's window. */
  lemma AdmittedRecordsRequest(cfg: AgentConfig, st: SessionState, raw: RawMessage,
                               context: ContextArg, userId: string, now: int,
                               userTime: string, replyTime: string,
                               complete: CompletionRequest -> ProviderReply)
    requires ValidInput(raw, context) && RateCheck(cfg, st, userId, now).0 == Allowed
    ensures var r := Process(cfg, st, raw, context, userId, now, userTime, replyTime, complete);
      r.1.requests == st.requests[userId := Pruned(WindowOf(st.requests, userId), now, SessionWindow) + [now]]
  {
    var message := ValidateMessage(raw).value;
    var ctx := ValidateContext(context).value;
    ProcessAdmits(cfg, st, raw, context, userId, now, userTime, replyTime, complete);
    AdmittedRequests(cfg, st, message, ctx, userId, now, userTime, replyTime, complete);
  }

  /**
   * A provider failure is answered with the apology; the user turn stays recorded and no
   * assistant turn follows it.
   */
  lemma ProviderFailureKeepsUserTurn(cfg: AgentConfig, st: SessionState, raw: RawMessage,
                                     context: ContextArg, userId: string, now: int,
                                     userTime: string, replyTime: string,
                                     complete: CompletionRequest -> ProviderReply)
    requires ValidInput(raw, context) && RateCheck(cfg, st, userId, now).0 == Allowed
    requires var safe := Sanitized(ValidateMessage(raw).value);
      complete(UserRequest(cfg, st.history + [Turn("user", safe, userTime)],
                           ValidateContext(context).value, safe)).ProviderError?
    ensures var r := Process(cfg, st, raw, context, userId, now, userTime, replyTime, complete);
      && r.0 == Apology
      && r.1.history == st.history + [Turn("user", Sanitized(ValidateMessage(raw).value), userTime)]
  {
    var message := ValidateMessage(raw).value;
    var ctx := ValidateContext(context).value;
    ProcessAdmits(cfg, st, raw, context, userId, now, userTime, replyTime, complete);
    AdmittedExchange(cfg, st, message, ctx, userId, now, userTime, replyTime, complete);
    ExchangeFailed(cfg, st.history, Sanitized(message), ctx, userTime, replyTime, complete);
  }

  /** Whatever the outcome of the rate check, the sender's window is the one it returns. */
  lemma AdmittedRequests(cfg: AgentConfig, st: SessionState, message: string, context: Option<Entries>,
                         userId: string, now: int, userTime: string, replyTime: string,
                         complete: CompletionRequest -> ProviderReply)
    ensures Admitted(cfg, st, message, context, userId, now, userTime, replyTime, complete).1.requests
         == st.requests[userId := RateCheck(cfg, st, userId, now).1]
  {
    var chk := RateCheck(cfg, st, userId, now);
    var requests := st.requests[userId := chk.1];
    var r := Admitted(cfg, st, message, context, userId, now, userTime, replyTime, complete);
    if chk.0 == Allowed {
      var ex := Exchange(cfg, st.history, Sanitized(message), context, userTime, replyTime, complete);
      assert r == (ex.0, SessionState(ex.1, requests));
    } else {
      assert r.1 == SessionState(st.history, requests);
    }
  }

  /** Only an admitted message reaches the history, through the exchange. */
  lemma AdmittedHistory(cfg: AgentConfig, st: SessionState, message: string, context: Option<Entries>,
                        userId: string, now: int, userTime: string, replyTime: string,
                        complete: CompletionRequest -> ProviderReply)
    ensures Admitted(cfg, st, message, context, userId, now, userTime, replyTime, complete).1.history
         == if RateCheck(cfg, st, userId, now).0 == Allowed
            then Exchange(cfg, st.history, Sanitized(message), context, userTime, replyTime, complete).1
            else st.history
  {
    var chk := RateCheck(cfg, st, userId, now);
    var r := Admitted(cfg, st, message, context, userId, now, userTime, replyTime, complete);
    if chk.0 == Allowed {
      var ex := Exchange(cfg, st.history, Sanitized(message), context, userTime, replyTime, complete);
      assert r.1.history == ex.1;
    } else {
      assert r.1.history == st.history;
    }
  }

  /** Replacing one identity's window leaves every other identity's window as it was. */
  lemma UpdateKeepsOthers(requests: map<string, seq<int>>, userId: string, w: seq<int>)
    ensures forall id | id != userId :: WindowOf(requests[userId := w], id) == WindowOf(requests, id)
  {
  }

  /** An exchange keeps the old history and adds the user turn and at most one more. */
  lemma ExchangeFrame(cfg: AgentConfig, history: seq<Turn>, safe: string, context: Option<Entries>,
                      userTime: string, replyTime: string,
                      complete: CompletionRequest -> ProviderReply)
    ensures var h := Exchange(cfg, history, safe, context, userTime, replyTime, complete).1;
      && |history| + 1 <= |h| <= |history| + 2
      && h[..|history|] == history
      && h[|history|] == Turn("user", safe, userTime)
  {
    var h := Exchange(cfg, history, safe, context, userTime, replyTime, complete).1;
    assert h[..|history|] == history;
  }

  /** After the rate check the history grows by at most two and only the sender's window moves. */
  lemma AdmittedFrame(cfg: AgentConfig, st: SessionState, message: string, context: Option<Entries>,
                      userId: string, now: int, userTime: string, replyTime: string,
                      complete: CompletionRequest -> ProviderReply)
    ensures var r := Admitted(cfg, st, message, context, userId, now, userTime, replyTime, complete);
      && |st.history| <= |r.1.history| <= |st.history| + 2
      && r.1.history[..|st.history|] == st.history
      && r.1.requests == st.requests[userId := RateCheck(cfg, st, userId, now).1]
  {
    AdmittedRequests(cfg, st, message, context, userId, now, userTime, replyTime, complete);
    AdmittedHistory(cfg, st, message, context, userId, now, userTime, replyTime, complete);
    ExchangeFrame(cfg, st.history, Sanitized(message), context, userTime, replyTime, complete);
    assert st.history[..|st.history|] == st.history;
  }

  /**
   * On every path the old history is kept as a prefix, at most two turns are added, and no
   * other identity's rate window changes.
   */
  lemma ProcessFrame(cfg: AgentConfig, st: SessionState, raw: RawMessage, context: ContextArg,
                     userId: string, now: int, userTime: string, replyTime: string,
                     complete: CompletionRequest -> ProviderReply)
    ensures var r := Process(cfg, st, raw, context, userId, now, userTime, replyTime, complete);
      && |st.history| <= |r.1.history| <= |st.history| + 2
      && r.1.history[..|st.history|] == st.history
      && (forall id | id != userId :: WindowOf(r.1.requests, id) == WindowOf(st.requests, id))
  {
    if !ValidInput(raw, context) {
      InvalidInputChangesNothing(cfg, st, raw, context, userId, now, userTime, replyTime, complete);
      assert st.history[..|st.history|] == st.history;
    } else {
      var message := ValidateMessage(raw).value;
      var ctx := ValidateContext(context).value;
      ProcessAdmits(cfg, st, raw, context, userId, now, userTime, replyTime, complete);
      AdmittedFrame(cfg, st, message, ctx, userId, now, userTime, replyTime, complete);
      UpdateKeepsOthers(st.requests, userId, RateCheck(cfg, st, userId, now).1);
    }
  }

  /**
   * The windows keep their bound: if no window exceeds the quota before a message, none
   * does after it.
   */
  lemma ProcessKeepsQuota(cfg: AgentConfig, st: SessionState, raw: RawMessage, context: ContextArg,
                          userId: string, now: int, userTime: string, replyTime: string,
                          complete: CompletionRequest -> ProviderReply)
    requires forall id | id in st.requests :: |st.requests[id]| <= Quota(cfg.maxRequests)
    ensures var r := Process(cfg, st, raw, context, userId, now, userTime, replyTime, complete);
      forall id | id in r.1.requests :: |r.1.requests[id]| <= Quota(cfg.maxRequests)
  {
    if !ValidInput(raw, context) {
      InvalidInputChangesNothing(cfg, st, raw, context, userId, now, userTime, replyTime, complete);
    } else {
      ProcessAdmits(cfg, st, raw, context, userId, now, userTime, replyTime, complete);
      AdmittedFrame(cfg, st, ValidateMessage(raw).value, ValidateContext(context).value,
                    userId, now, userTime, replyTime, complete);
    }
  }

  /**
   * While a message is processed its own turn is in the history, so the recent-conversation
   * block is always part of the prompt, even for the first message of a session.
   */
  lemma PromptAlwaysHasConversationBlock(cfg: AgentConfig, history: seq<Turn>, userTurn: Turn,
                                         context: Option<Entries>, message: string)
    ensures var w := ContextWindow(history + [userTurn], PromptWindow);
      HistorySection(w[..|w| - 1]) in Sections(cfg.systemPrompt, cfg.knowledgeBase, context, w, message)
  {
    HistorySectionTurns(history + [userTurn], cfg.systemPrompt, cfg.knowledgeBase, context, message);
  }

  /** One `+=` loop of `_build_enhanced_prompt` over a dictionary. */
  method RenderEntries(header: string, entries: Entries) returns (block: string)
    ensures block == header + EntryLines(entries)
  {
    block := header;
    for i := 0 to |entries|
      invariant block == header + EntryLines(entries[..i])
    {
      assert entries[..i + 1][..i] == entries[..i];
      block := block + EntryLine(entries[i]);
    }
    assert entries[..|entries|] == entries;
  }

  /** The `+=` loop over the earlier turns of the context window. */
  method RenderTurns(turns: seq<ChatMessage>) returns (block: string)
    ensures block == HistoryHeader + TurnLines(turns)
  {
    block := HistoryHeader;
    for i := 0 to |turns|
      invariant block == HistoryHeader + TurnLines(turns[..i])
    {
      assert turns[..i + 1][..i] == turns[..i];
      block := block + TurnLine(turns[i]);
    }
    assert turns[..|turns|] == turns;
  }

  /**
   * The `prompt_parts` list of `_build_enhanced_prompt`: the system prompt, then each optional
   * block when its source is non-empty, then the current message.
   */
  method PromptParts(systemPrompt: string, knowledgeBase: Entries, context: Option<Entries>,
                     history: seq<ChatMessage>, message: string) returns (parts: seq<string>)
    ensures parts == RenderAll(Sections(systemPrompt, knowledgeBase, context, history, message))
  {
    parts := [systemPrompt];
    if knowledgeBase != [] {
      var kbContext := RenderEntries(KnowledgeHeader, knowledgeBase);
      parts := parts + [kbContext];
    }
    assert parts == [systemPrompt] + RenderAll(KnowledgePart(knowledgeBase));
    ghost var p1 := parts;
    if context.Some? && context.value != [] {
      var ctxStr := RenderEntries(ContextHeader, context.value);
      parts := parts + [ctxStr];
    }
    assert parts == p1 + RenderAll(ContextPart(context));
    ghost var p2 := parts;
    if history != [] {
      var histStr := RenderTurns(history[..|history| - 1]);
      parts := parts + [histStr];
    }
    assert parts == p2 + RenderAll(HistoryPart(history));
    parts := parts + [CurrentHeader + message];
    PartsOfSections(systemPrompt, knowledgeBase, context, history, message);
  }

  class SingleAgent {
    const agent: BaseAgent
    const knowledgeBase: Entries
    const limiter: RateLimiter
    const provider: Provider

    ghost predicate Valid()
      reads this, limiter
    {
      limiter.Valid() && limiter.timeWindow == SessionWindow
    }

    /** The constant part of the session, as the pipeline reads it. */
    function Config(): AgentConfig {
      AgentConfig(agent.systemPrompt, agent.model, agent.temperature, agent.maxTokens,
                  knowledgeBase, provider, limiter.maxRequests)
    }

    /** `__init__` once a provider has been chosen. */
    constructor (name: string, description: string, systemPrompt: string,
                 knowledgeBase: Option<Entries>, maxRequestsPerMinute: int,
                 model: string, temperature: real, maxTokens: int, provider: Provider)
      ensures Valid() && fresh(agent) && fresh(limiter)
      ensures agent.conversationHistory == [] && limiter.requests == map[]
      ensures agent.name == name && agent.description == description
      ensures Config() == AgentConfig(systemPrompt, model, temperature, maxTokens,
                                      knowledgeBase.GetOr([]), provider, maxRequestsPerMinute)
    {
      agent := new BaseAgent(name, description, systemPrompt, model, temperature, maxTokens);
      this.knowledgeBase := knowledgeBase.GetOr([]);
      limiter := new RateLimiter(maxRequestsPerMinute, SessionWindow, None);
      this.provider := provider;
    }

    /**
     * `SingleAgent(...)` with the global settings: fails with the configuration error when
     * neither key is set, otherwise builds a session for the selected provider.
     */
    static method Create(name: string, description: string, systemPrompt: string,
                         knowledgeBase: Option<Entries>, maxRequestsPerMinute: int,
                         model: string, temperature: real, maxTokens: int, settings: Settings)
      returns (r: Result<SingleAgent, string>)
      ensures r.Failure? <==> SelectProvider(settings).Failure?
      ensures r.Failure? ==> r.error == NoProviderKeyError
      ensures r.Success? ==>
        && fresh(r.value) && fresh(r.value.agent) && fresh(r.value.limiter) && r.value.Valid()
        && r.value.agent.conversationHistory == [] && r.value.limiter.requests == map[]
        && Success(r.value.provider) == SelectProvider(settings)
        && r.value.Config() == AgentConfig(systemPrompt, model, temperature, maxTokens,
                                           knowledgeBase.GetOr([]), r.value.provider,
                                           maxRequestsPerMinute)
    {
      var choice := SelectProvider(settings);
      if choice.Failure? {
        return Failure(choice.error);
      }
      var session := new SingleAgent(name, description, systemPrompt, knowledgeBase,
                                     maxRequestsPerMinute, model, temperature, maxTokens, choice.value);
      r := Success(session);
    }

    /** `_build_enhanced_prompt`: the parts in order, then joined with newlines. */
    method BuildEnhancedPrompt(message: string, context: Option<Entries>) returns (prompt: string)
      ensures prompt == EnhancedPrompt(agent.systemPrompt, knowledgeBase, context,
                                       ContextWindow(agent.conversationHistory, PromptWindow), message)
    {
      var history := agent.GetContextWindow(PromptWindow);
      var parts := PromptParts(agent.systemPrompt, knowledgeBase, context, history, message);
      prompt := JoinLines(parts);
    }

    /**
     * `process_message`: the pipeline on the session's own history and rate windows, with
     * the provider call `complete` and the two timestamps the clock would give.
     */
    method ProcessMessage(raw: RawMessage, context: ContextArg, userId: string, now: int,
                          userTime: string, replyTime: string,
                          complete: CompletionRequest -> ProviderReply)
      returns (response: string)
      requires Valid()
      modifies agent, limiter
      ensures Valid()
      ensures var r := Process(Config(), SessionState(old(agent.conversationHistory), old(limiter.requests)),
                               raw, context, userId, now, userTime, replyTime, complete);
        response == r.0 && agent.conversationHistory == r.1.history && limiter.requests == r.1.requests
    {
      ghost var st := SessionState(agent.conversationHistory, limiter.requests);
      ghost var cfg := Config();
      var m := ValidateMessage(raw);
      if m.Failure? {
        InvalidInputChangesNothing(cfg, st, raw, context, userId, now, userTime, replyTime, complete);
        return InvalidInputPrefix + m.error.Message();
      }
      var c := ValidateContext(context);
      if c.Failure? {
        InvalidInputChangesNothing(cfg, st, raw, context, userId, now, userTime, replyTime, complete);
        return InvalidInputPrefix + c.error.Message();
      }
      ProcessAdmits(cfg, st, raw, context, userId, now, userTime, replyTime, complete);
      AdmittedRequests(cfg, st, m.value, c.value, userId, now, userTime, replyTime, complete);
      var outcome := limiter.CheckRateLimit(userId, now);
      if outcome.Exceeded? {
        return RateLimitMessage(outcome.waitTime);
      }
      if outcome == EmptyWindowIndexError {
        return Apology;
      }
      AdmittedExchange(cfg, st, m.value, c.value, userId, now, userTime, replyTime, complete);
      var safe := SanitizeForPrompt(m.value);
      agent.AddToHistory("user", safe, userTime);
      var prompt := BuildEnhancedPrompt(safe, c.value);
      var reply := complete(RequestFor(provider, agent.model, prompt, agent.temperature, agent.maxTokens));
      assert reply == complete(UserRequest(cfg, st.history + [Turn("user", safe, userTime)], c.value, safe));
      match reply
      case ProviderError =>
        ExchangeFailed(cfg, st.history, safe, c.value, userTime, replyTime, complete);
        return Apology;
      case Reply(text) =>
        ExchangeReplied(cfg, st.history, safe, c.value, userTime, replyTime, complete);
        response := Trim(text);
        agent.AddToHistory("assistant", response, replyTime);
    }
  }
}
