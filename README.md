# Chronyx conversation-session core, modelled in Dafny

Chronyx Community Edition runs conversational agents. Every entry point (command line,
WhatsApp bot) goes through one session object, `SingleAgent`, which handles each incoming
message in a fixed order:

1. validate the message and the optional context;
2. charge the sender's sliding-window rate limit;
3. strip prompt-injection markers;
4. append the user turn to the conversation history;
5. assemble a prompt from the system prompt, the knowledge base, the context and the recent
   turns;
6. ask the configured language-model provider;
7. append the reply.

Every failure is turned into a returned string. Two small helpers sit beside the session:

- the WhatsApp bridge client, with its phone-number formatter and its readiness state;
- the settings validators.

This project models that core and proves what each part promises.

| file | module | models |
|---|---|---|
| `wrappers.dfy` | `Wrappers` | `Option` and `Result` |
| `ascii.dfy` | `Ascii` | ASCII forms of `str.strip`, `lower`, `upper`, `isdigit`, `in`, `int` to text |
| `rate_limiter.dfy` | `RateLimiting` | `RateLimiter`: a class over `map<string, seq<int>>` whose methods prune with a loop |
| `validators.dfy` | `Validators` | `InputValidator`: message and context validation, the injection-marker sanitiser |
| `agent_base.dfy` | `AgentBase` | `BaseAgent`: history field, `add_to_history`, `clear_history` and the suffix queries |
| `single_agent.dfy` | `Sessions` | `SingleAgent`: provider choice, prompt assembly, `process_message` |
| `whatsapp_service.dfy` | `WhatsAppIntegration` | `WhatsAppService`: initial state, event handling, send checks, number formatting |
| `settings.dfy` | `Configuration` | `Settings`: field validators, environment and provider properties |

The clock is an integer `now` for the rate limiter. For history entries it is a timestamp
string supplied by the caller. The language-model call is a total function parameter
`complete: CompletionRequest -> ProviderReply`, where `ProviderError` stands for any exception
the client raises.

`process_message` is specified by the pure function `Sessions.Process`, which returns the reply
text and the new history and rate windows. The method `SingleAgent.ProcessMessage` is proved
equal to it. The properties of each failure path are then proved about `Process`.

Behaviour of the code at its edges, which the model keeps as written:

- A timestamp exactly `time_window` old is kept, because the code prunes on `>`. The announced
  wait can therefore be 0 (`RateLimiting.BoundaryRequestStillCounts`).
- With `max_requests <= 0`, the first check reads the oldest entry of an empty deque. This
  raises `IndexError`, which `process_message` answers with its generic apology.
- `sanitize_for_prompt` is not idempotent: removing one marker can join two halves of another
  (`Validators.SanitizeNotIdempotent`).
- The history has no length cap, and no provider call is retried. `max_conversation_history`
  and `max_retries` exist in the settings but no code reads them.
- During `process_message`, the recent-conversation block is always in the prompt. The context
  window already holds the current user turn, even when there are no earlier turns.
- `get_context_window(0)` returns the whole history, because `h[-0:]` is `h[0:]`. A negative
  limit drops a prefix.
- The session treats an empty API key as missing, because it tests truthiness. `Settings`
  counts the same key as configured, because it tests `is not None`
  (`Sessions.EmptyKeyDisagreement`).

## Model

| member | source | states |
|---|---|---|
| Ascii.NatToStringValue | core/rate_limiter.py:67 | the seconds in the limiter's message are written in decimal: the digits read back as the number, and start with "0" only for 0 itself |
| RateLimiting.EffectiveBurst | core/rate_limiter.py:33 | a missing or zero burst size becomes `max_requests`; any other value is kept |
| RateLimiting.Pruned | core/rate_limiter.py:56-60 | the result is a suffix of the window; every dropped entry is strictly more than `time_window` old; the first kept entry is at most `time_window` old |
| RateLimiting.Check | core/rate_limiter.py:52-72 | admitted iff the pruned window holds fewer than `max_requests`; an admission appends exactly `now`, a rejection appends nothing; the wait is `time_window - (now - oldest)` and is never negative; `IndexError` iff the maximum is not positive and the window is empty; the quota bound is preserved |
| RateLimiting.RateLimiter.constructor | core/rate_limiter.py:17-34 | empty map, the given maximum and window, the effective burst size |
| RateLimiting.RateLimiter.PruneWindow | core/rate_limiter.py:56-60 | the `popleft` loop leaves that identity's window equal to `Pruned` and changes no other identity |
| RateLimiting.CheckUpdate | core/rate_limiter.py:52-72 | pruning the sender's window and then rejecting or recording `now` is `Check` on the old window, and keeps every window within the quota |
| RateLimiting.RateLimiter.CheckRateLimit | core/rate_limiter.py:36-72 | outcome and new window are `Check` of the old window, a missing entry read as empty; other identities untouched; the per-identity bound `Valid` is kept |
| RateLimiting.RateLimiter.GetRemainingRequests | core/rate_limiter.py:74-96 | an unseen identity gets `max_requests` and no entry is created; otherwise the window is pruned and `max(0, max_requests - count)` returned, within `[0, max_requests]` whenever `max_requests >= 0` |
| RateLimiting.RateLimiter.Reset | core/rate_limiter.py:98-109 | a non-empty identity loses only its window; `None` or `""` clears every window |
| RateLimiting.ChecksWithoutTimePassing | core/rate_limiter.py:63-71 | with no time passing, a window of `k` requests admits exactly the `max_requests - k` that fill it, and the next check is rejected with the full window as wait |
| RateLimiting.BurstFromEmptyWindow | core/rate_limiter.py:63-71 | from an empty window, exactly `max_requests` consecutive checks succeed and the next one is rejected |
| RateLimiting.NoQuotaFirstCheckFails | core/rate_limiter.py:63-64 | with a non-positive maximum, the first check fails on the empty deque |
| RateLimiting.WindowElapsed | core/rate_limiter.py:56-60 | once every entry is older than the window, pruning empties it |
| RateLimiting.PrunedSortedKeepsFresh | core/rate_limiter.py:56-60 | on a window in time order, every kept entry is within the window |
| RateLimiting.PrunedSortedBounded | core/rate_limiter.py:56-60 | pruning preserves time order and the upper bound `now` |
| RateLimiting.CheckKeepsFreshWindow | core/rate_limiter.py:56-71 | with a clock that never goes back, a check keeps the window sorted, within `[now - window, now]`, and within the quota |
| RateLimiting.WaitWithinWindow | core/rate_limiter.py:63-68 | the announced wait lies in `[0, time_window]` |
| RateLimiting.BoundaryRequestStillCounts | core/rate_limiter.py:58 | a request exactly `time_window` old still counts, so the wait can be 0 |
| Validators.StripControl | core/validators.py:51 | the result has no character of the removed set, is no longer than the input, and equals the input when it had none |
| Validators.StripControlAppend | core/validators.py:51 | removal is character by character: stripping a concatenation concatenates the stripped parts, in order |
| Validators.StripControlKeepsOthers | core/validators.py:51 | every other character keeps its number of occurrences; no removed character survives |
| Validators.ValidateMessage | core/validators.py:21-53 | a non-string fails; success iff the trimmed length is in `[1, 2000]`; too short gives "Message cannot be empty", too long gives the maximum-length error; the result is the trimmed text with the control characters removed |
| Validators.WhitespaceOnlyIsEmpty | core/validators.py:39-43 | a whitespace-only message fails as empty |
| Validators.AcceptedMessageMayBeEmpty | core/validators.py:42-53 | the length is checked before removal, so a lone control character is accepted and comes back empty |
| Validators.JsonStringLength | core/validators.py:77 | a JSON string takes at least its length plus two quotes |
| Validators.JsonMembersAtLeast | core/validators.py:77 | each member of the serialised dictionary takes at least 8 characters |
| Validators.ValidateContext | core/validators.py:55-83 | `None` passes as `None`; a non-dictionary fails; a dictionary is returned unchanged iff its `json.dumps` length is at most 10000, and fails as too large otherwise |
| Validators.ManyEntriesTooLarge | core/validators.py:77-81 | a dictionary of more than 1250 entries is always too large |
| Validators.MatchLength | core/validators.py:97-106 | a match never extends past the text |
| Validators.RemoveAll | core/validators.py:106 | one `re.sub` pass never lengthens the text |
| Validators.ApplyAll | core/validators.py:105-106 | the passes in order never lengthen the text |
| Validators.SanitizeForPrompt | core/validators.py:85-108 | the loop over the five patterns equals `Sanitized` and never lengthens its input |
| Validators.SanitizeKeepsPlainText | core/validators.py:97-108 | text with no `<` and no `#` is returned unchanged |
| Validators.RemoveAllLackingPrefix | core/validators.py:106 | a prefix that never contains the pattern's leading character is kept as it is, in front of what the rest becomes |
| Validators.LiteralRemovedAnyCase | core/validators.py:98-106 | a chat-marker literal is removed whatever the case of its letters |
| Validators.RoleHeaderRemovedAnyCase | core/validators.py:100-106 | `###`, any run of whitespace, then a role word in any case, is removed |
| Validators.SanitizeNotIdempotent | core/validators.py:105-106 | `<\|im_<\|im_end\|>start\|>` sanitises to `<\|im_start\|>`, which sanitises to the empty string |
| AgentBase.BaseAgent.constructor | core/agent_base.py:15-30 | the fields as given and an empty history |
| AgentBase.BaseAgent.AddToHistory | core/agent_base.py:37-43 | exactly one entry with the given role and content is appended; earlier entries are unchanged |
| AgentBase.BaseAgent.ClearHistory | core/agent_base.py:51-53 | the history is empty |
| AgentBase.RecentHistory | core/agent_base.py:45-49 | always a suffix of the history; `None` or 0 gives all of it; a positive limit gives the last `min(limit, len)`; a negative one drops `min(-limit, len)` |
| AgentBase.ContextWindow | core/agent_base.py:55-58 | the role and content of a suffix of the history, in order; its length is `min(limit, len)` for a positive limit, all for 0, and a dropped prefix for a negative limit |
| AgentBase.ContextWindowNonEmpty | core/agent_base.py:55-58 | a non-empty history gives a non-empty window of any positive size, whose last entry is the role and content of the newest turn |
| AgentBase.ExchangeThenLastTwo | core/agent_base.py:37-48 | after a user turn then an assistant turn, `get_history(2)` is exactly those two, user first |
| Sessions.SelectProvider | core/single_agent.py:40-50 | OpenAI iff its key is truthy; Anthropic iff only Anthropic's is; otherwise "No AI provider API key configured" |
| Sessions.EmptyKeyDisagreement | core/single_agent.py:40-50 | an empty OpenAI key makes the settings prefer OpenAI while the session uses Anthropic or fails |
| Sessions.SelectedProviderIsConfigured | core/single_agent.py:40-50 | a successful selection implies the settings report a provider, and OpenAI selection agrees with the settings' preference |
| Sessions.AnthropicModel | core/single_agent.py:146 | a model name containing "claude" is kept; any other becomes "claude-3-haiku-20240307" |
| Sessions.AnthropicModelIsClaude | core/single_agent.py:146 | Anthropic is always asked for a model whose name contains "claude" |
| Sessions.RequestFor | core/single_agent.py:126-151 | the prompt, temperature and token limit are passed through; OpenAI gets the configured model, Anthropic the adjusted one |
| Sessions.Sections | core/single_agent.py:96-124 | two to five parts, the system prompt first and the current message last |
| Sessions.EntryLinesAt | core/single_agent.py:103-111 | each dictionary entry is rendered once, at its position, between the lines before and after it |
| Sessions.PromptFrame | core/single_agent.py:98-124 | the prompt starts with the system prompt and ends with "\n\n=== CURRENT MESSAGE ===\nUSER: " followed by the message |
| Sessions.SectionsPresence | core/single_agent.py:101-120 | the knowledge-base, context and conversation blocks each appear iff their source is non-empty; the part count follows |
| Sessions.HistorySectionTurns | core/single_agent.py:115-120 | the conversation block shows the window minus its newest entry: at most 4 turns, the projections of the history entries before the last, in order |
| Sessions.PromptAlwaysHasConversationBlock | core/single_agent.py:115-120 | with the user turn already recorded (line 71), the conversation block is always present |
| Sessions.RenderEntries | core/single_agent.py:102-111 | the `+=` loop yields the header followed by every entry's line in order |
| Sessions.RenderTurns | core/single_agent.py:117-119 | the `+=` loop yields the header followed by every turn's line in order |
| Sessions.PromptParts | core/single_agent.py:98-122 | the parts list is the rendering of the prompt sections in order: system prompt, knowledge base, context, earlier turns and the current message |
| Sessions.SingleAgent.BuildEnhancedPrompt | core/single_agent.py:96-124 | the assembled text equals `EnhancedPrompt` over the five-turn context window |
| Sessions.SingleAgent.constructor | core/single_agent.py:20-37 | empty history and windows, a 60-second window, a missing knowledge base read as empty |
| Sessions.SingleAgent.Create | core/single_agent.py:20-50 | fails with the configuration error iff no key is truthy; otherwise a fresh session for the selected provider |
| Sessions.SingleAgent.ProcessMessage | core/single_agent.py:52-94 | the reply, new history and new windows are those of `Process` on the old state |
| Sessions.InvalidInputChangesNothing | core/single_agent.py:61-86 | a validation failure returns "Invalid input: " plus the reason and changes neither history nor limiter |
| Sessions.RateLimitedKeepsHistory | core/single_agent.py:65-90 | a rate-limited message returns the limiter's message, leaves the history alone, and only prunes the sender's window |
| Sessions.SuccessfulExchange | core/single_agent.py:68-82 | a provider answer appends exactly the sanitised user turn and then the stripped reply, which is returned |
| Sessions.AdmittedRecordsRequest | core/single_agent.py:65 | an admitted message records `now` at the back of the sender's pruned window |
| Sessions.ProviderFailureKeepsUserTurn | core/single_agent.py:71-94 | a provider failure returns the fixed apology and leaves the user turn recorded, with no assistant turn |
| Sessions.ProcessFrame | core/single_agent.py:52-94 | on every path the old history stays a prefix, at most two turns are added, and no other identity's window changes |
| Sessions.ProcessKeepsQuota | core/single_agent.py:65 | no window exceeds `max_requests` after a message if none did before |
| WhatsAppIntegration.Digits | integrations/whatsapp/whatsapp_service.py:296 | only digits are kept, and never more characters than the input |
| WhatsAppIntegration.DigitsAppend | integrations/whatsapp/whatsapp_service.py:296 | the filter keeps the input's digits in order: filtering a concatenation concatenates the filtered parts |
| WhatsAppIntegration.FormatPhoneNumberShape | integrations/whatsapp/whatsapp_service.py:295-302 | the result is digits starting with "55", then "@c.us"; the digits are the input's, with "55" added in front only when they did not start with it |
| WhatsAppIntegration.FormatPhoneNumberIdempotent | integrations/whatsapp/whatsapp_service.py:295-302 | formatting a formatted number changes nothing |
| WhatsAppIntegration.WhatsAppService.constructor | integrations/whatsapp/whatsapp_service.py:18-35 | not ready, with no QR code, client information or bridge process |
| WhatsAppIntegration.WhatsAppService.AttachBridge | integrations/whatsapp/whatsapp_service.py:108-114 | the started process handle is stored; readiness and QR code are unchanged |
| WhatsAppIntegration.WhatsAppService.HandleEvent | integrations/whatsapp/whatsapp_service.py:225-251 | "qr" stores the payload's code or none; "ready" sets readiness; "disconnected" clears it; "message" hands its data to a handler if one exists; every other type changes nothing (stated through `QrStep` and `ReadyStep`) |
| WhatsAppIntegration.WhatsAppService.SendMessage | integrations/whatsapp/whatsapp_service.py:253-271 | fails with "WhatsApp is not ready" when not ready, otherwise with "WhatsApp bridge is not running" when there is no bridge or it has no stdin pipe; succeeds exactly when both hold, with the `send_message` command |
| WhatsAppIntegration.WhatsAppService.ReadOutput | integrations/whatsapp/whatsapp_service.py:198-223 | without a process nothing happens; otherwise the events of the lines before the first failing line are handled in order: readiness and the QR code end as `ReadyAfter` and `QrAfter` say, and the message handler receives exactly the payloads `Dispatched` lists |
| WhatsAppIntegration.HandledStopsAtFault | integrations/whatsapp/whatsapp_service.py:221-223 | a line whose handling raises ends the reading: nothing after it is handled |
| WhatsAppIntegration.LastQrDecides | integrations/whatsapp/whatsapp_service.py:230-232 | after a run of events the stored QR code is that of the last "qr" event |
| WhatsAppIntegration.ReadyUntilDisconnected | integrations/whatsapp/whatsapp_service.py:234-251 | after a "ready" event with no later "disconnected", the service is ready |
| Configuration.ValidateEnvironment | config/settings.py:88-95 | accepted iff the lower-cased value is one of development, staging, production, testing, and that lower-cased value is returned |
| Configuration.ValidateLogLevel | config/settings.py:97-104 | accepted iff the upper-cased value is one of DEBUG, INFO, WARNING, ERROR, CRITICAL, and that upper-cased value is returned |
| Configuration.ValidateEnvironmentIdempotent | config/settings.py:93-95 | validating an accepted environment again returns it unchanged |
| Configuration.ValidateLogLevelIdempotent | config/settings.py:102-104 | validating an accepted log level again returns it unchanged |
| Configuration.Settings.GetPreferredProvider | config/settings.py:116-137 | "openai" iff an OpenAI key is present; "anthropic" iff only an Anthropic key is; fails iff `has_ai_provider` is false |
| Configuration.MakeSettings | config/settings.py:88-104 | succeeds iff both validators accept; the stored values are normalised and allowed; the keys are kept |
| Configuration.DefaultSettings | config/settings.py:18-37 | the defaults are well formed and in development, with no provider configured |
| Configuration.NotBothProductionAndDevelopment | config/settings.py:106-114 | `is_production` and `is_development` are never both true |
| Configuration.EnvironmentCaseInsensitive | config/settings.py:90-95 | any letter case of "production" is accepted and stored as "production" |

## Left out

- The network calls to OpenAI and Anthropic (core/single_agent.py:133-151) are not modelled. The
  `complete` function parameter stands in for them; the model keeps the choice of model name
  and the `.strip()` of the answer.
- `openai_base_url` only configures the OpenAI client's endpoint, so it is carried in
  `Settings` but has no effect in the model.
- Async and concurrency: `process_message` is sequential, and interleaved calls for one
  identity are not modelled.
- The clock: `time.time()` becomes the integer `now` and `datetime.now().isoformat()` a caller-supplied
  string. The float subtraction and the `int()` truncation of the wait are over integers.
- Unicode: `str.strip`, `str.isdigit`, `lower`, `upper`, the regex `\s` and `re.IGNORECASE`
  are modelled on ASCII. Case-insensitive matches of non-ASCII letters, such as `ſ` for `s`,
  are not captured.
- `Validators.ValidateContext`: a context is a list of string keys with
  already-rendered string values. JSON for numbers, nested objects and non-string keys is not
  modelled, and neither is duplicate-key elimination.
- `Sessions.EntryLines`: knowledge-base and context values are the strings `str()` would give.
- `Configuration.ValidateEnvironment`: the error holds only the fixed message prefix, because
  the rendering of Python's `set` that follows it depends on hash order.
- `Configuration.ValidateLogLevel`: same as above, only the prefix of the error.
- `Configuration.MakeSettings`: when both fields are invalid only the environment's message
  is returned, whereas the library collects both messages into one error.
- Settings loading from the environment and `.env` (config/settings.py:139-147) is not
  modelled, nor are the settings fields the core never reads.
- `WhatsAppIntegration.WhatsAppService.SendMessage`: the JSON line written to the bridge's
  stdin and the `drain()` are not modelled; only the checks and the command are.
- The WhatsApp subprocess life cycle (`start`, `_install_dependencies`, `_start_bridge`,
  `_create_bridge_script`, `stop`) is not modelled beyond storing the process handle and
  whether it has a stdin pipe. Event data values are strings.
- `WhatsAppIntegration.WhatsAppService.ReadOutput`: decoding and JSON parsing of the bridge's
  output are not modelled. Each line arrives already classified as blank, plain text, an event,
  or a line whose decoding or handling raises (JSON that is not an object, a payload that is
  not an object, a handler that raises); which concrete lines fall in the last class is up to
  the caller. The end of the stream is the end of the sequence. A message handler that raises
  has already received its payload when the loop stops, but the model files that line as a
  failing line, so that payload is not in `delivered`.
- The message handler is an async callback. `HandleEvent` returns the data it would receive
  instead of calling it.
- Logging (every `logger` call) is left out: it changes no modelled state. Default
  arguments (`limit=None`, `context=None`, `user_id="default"`) are not modelled as
  defaults; callers pass every argument.
- The command-line interface, the e-mail integration, the templates and the examples are
  not part of this model.
