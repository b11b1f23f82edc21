/**
 * The conversation history every agent keeps (`BaseAgent` in core/agent_base.py): an
 * append-only list of turns with suffix queries. The ISO timestamp that `datetime.now()`
 * produces is supplied by the caller as a string.
 */
module AgentBase {
  import opened Wrappers

  /** One stored history entry: `{"role", "content", "timestamp"}`. */
  datatype Turn = Turn(role: string, content: string, timestamp: string)

  /** The `{"role", "content"}` projection handed to the language model. */
  datatype ChatMessage = ChatMessage(role: string, content: string)

  function Project(t: Turn): ChatMessage {
    ChatMessage(t.role, t.content)
  }

  function Min(a: int, b: int): int {
    if a <= b then a else b
  }

  /**
   * Python's `s[start:]` for any integer `start`: a negative start counts from the end and
   * both ends are clamped to the sequence.
   */
  function PySliceFrom<T>(s: seq<T>, start: int): (r: seq<T>)
    ensures |r| <= |s| && r == s[|s| - |r|..]
    ensures start >= 0 ==> |r| == |s| - Min(start, |s|)
    ensures start < 0 ==> |r| == Min(-start, |s|)
  {
    if start >= 0 then s[Min(start, |s|)..]
    else s[|s| - Min(-start, |s|)..]
  }

  /**
   * `get_history(limit)` on the history `h`: a falsy limit (`None` or 0) gives the whole
   * history; otherwise `h[-limit:]`, so a positive limit keeps the last `limit` entries and a
   * negative one drops the first `-limit`. Either way the result is a suffix, in order.
   */
  function RecentHistory(h: seq<Turn>, limit: Option<int>): (r: seq<Turn>)
    ensures |r| <= |h| && r == h[|h| - |r|..]
    ensures limit == None || limit == Some(0) ==> r == h
    ensures limit.Some? && limit.value > 0 ==> |r| == Min(limit.value, |h|)
    ensures limit.Some? && limit.value < 0 ==> |r| == |h| - Min(-limit.value, |h|)
  {
    if limit.Some? && limit.value != 0 then PySliceFrom(h, -limit.value) else h
  }

  /**
   * `get_context_window(limit)` on the history `h`: the recent turns projected to role and
   * content, in order. The slice `h[-limit:]` is taken only when the history is longer than
   * `limit`, so a limit of 0 yields the whole history and a negative limit drops a prefix.
   */
  function ContextWindow(h: seq<Turn>, limit: int): (r: seq<ChatMessage>)
    ensures |r| <= |h|
    ensures forall i | 0 <= i < |r| :: r[i] == Project(h[|h| - |r| + i])
    ensures limit >= 0 ==> |r| == if limit == 0 then |h| else Min(limit, |h|)
    ensures limit < 0 ==> |r| == |h| - Min(-limit, |h|)
  {
    var recent := if |h| > limit then PySliceFrom(h, -limit) else h;
    seq(|recent|, i requires 0 <= i < |recent| => Project(recent[i]))
  }

  class BaseAgent {
    const name: string
    const description: string
    const systemPrompt: string
    const model: string
    const temperature: real
    const maxTokens: int
    var conversationHistory: seq<Turn>

    /** A new agent starts with an empty history. */
    constructor (name: string, description: string, systemPrompt: string,
                 model: string, temperature: real, maxTokens: int)
      ensures this.name == name && this.description == description
      ensures this.systemPrompt == systemPrompt && this.model == model
      ensures this.temperature == temperature && this.maxTokens == maxTokens
      ensures conversationHistory == []
    {
      this.name := name;
      this.description := description;
      this.systemPrompt := systemPrompt;
      this.model := model;
      this.temperature := temperature;
      this.maxTokens := maxTokens;
      conversationHistory := [];
    }

    /** `add_to_history`: exactly one entry at the end, everything before it untouched. */
    method AddToHistory(role: string, content: string, timestamp: string)
      modifies this
      ensures conversationHistory == old(conversationHistory) + [Turn(role, content, timestamp)]
    {
      conversationHistory := conversationHistory + [Turn(role, content, timestamp)];
    }

    /** `clear_history`. */
    method ClearHistory()
      modifies this
      ensures conversationHistory == []
    {
      conversationHistory := [];
    }

    /** `get_history(limit)`: the history's `RecentHistory`, whose contract says what it is. */
    function GetHistory(limit: Option<int>): seq<Turn>
      reads this
    {
      RecentHistory(conversationHistory, limit)
    }

    /** `get_context_window(limit)`: the history's `ContextWindow`, whose contract says what it is. */
    function GetContextWindow(limit: int): seq<ChatMessage>
      reads this
    {
      ContextWindow(conversationHistory, limit)
    }
  }

  /**
   * Round trip: once a user turn and then an assistant turn are added, `get_history(2)`
   * returns exactly those turns, user first.
   */
  lemma ExchangeThenLastTwo(before: seq<Turn>, user: Turn, assistant: Turn)
    ensures RecentHistory(before + [user] + [assistant], Some(2)) == [user, assistant]
  {
    var h := before + [user] + [assistant];
    assert h[|h| - 2..] == [user, assistant];
  }

  /**
   * A non-empty history gives a non-empty context window of any positive size, ending with the
   * projection of the newest turn.
   */
  lemma ContextWindowNonEmpty(h: seq<Turn>, limit: int)
    requires h != [] && limit >= 1
    ensures ContextWindow(h, limit) != []
    ensures ContextWindow(h, limit)[|ContextWindow(h, limit)| - 1] == Project(h[|h| - 1])
  {
  }
}
