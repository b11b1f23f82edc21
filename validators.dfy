/**
 * Input validation for agents: message validation, context validation and removal of
 * prompt-injection markers (`InputValidator` in core/validators.py).
 */
module Validators {
  import opened Wrappers
  import opened Ascii

  const MaxMessageLength: nat := 2000
  const MinMessageLength: nat := 1
  const MaxContextSize: nat := 10000

  /** The kinds of `ValidationError` the validator raises. */
  datatype ValidationError =
    | NotAString
    | EmptyMessage
    | MessageTooLong
    | ContextNotDict
    | ContextTooLarge
  {
    /** The text of the raised error, `str(e)`. */
    function Message(): string {
      match this
      case NotAString => "Message must be a string"
      case EmptyMessage => "Message cannot be empty"
      case MessageTooLong => "Message too long. Maximum 2000 characters"
      case ContextNotDict => "Context must be a dictionary"
      case ContextTooLarge => "Context too large. Maximum 10000 characters"
    }
  }

  /** What a caller may pass as a message: a Python `str`, or some other object. */
  datatype RawMessage = Text(value: string) | NotText

  /** The characters removed by `[\x00-\x08\x0B\x0C\x0E-\x1F\x7F]`. */
  predicate IsControl(c: char) {
    c as int <= 0x08 || c as int == 0x0B || c as int == 0x0C
    || (0x0E <= c as int <= 0x1F) || c as int == 0x7F
  }

  predicate NoControl(s: string) {
    forall i | 0 <= i < |s| :: !IsControl(s[i])
  }

  /** `re.sub(r'[\x00-\x08\x0B\x0C\x0E-\x1F\x7F]', '', s)`. */
  function StripControl(s: string): (r: string)
    ensures |r| <= |s|
    ensures NoControl(r)
    ensures NoControl(s) ==> r == s
    decreases |s|
  {
    if s == [] then []
    else (if IsControl(s[0]) then [] else [s[0]]) + StripControl(s[1..])
  }

  /** Removal works character by character: it keeps the survivors of each part, in order. */
  lemma {:induction false} StripControlAppend(a: string, b: string)
    ensures StripControl(a + b) == StripControl(a) + StripControl(b)
    decreases |a|
  {
    if a == [] {
      assert a + b == b;
    } else {
      assert (a + b)[1..] == a[1..] + b;
      StripControlAppend(a[1..], b);
    }
  }

  /**
   * Only control characters are removed: every other character occurs as often in the
   * result as in the input, and no control character survives.
   */
  lemma {:induction false} StripControlKeepsOthers(s: string, c: char)
    ensures !IsControl(c) ==> multiset(StripControl(s))[c] == multiset(s)[c]
    ensures IsControl(c) ==> multiset(StripControl(s))[c] == 0
    decreases |s|
  {
    if s != [] {
      var head := if IsControl(s[0]) then [] else [s[0]];
      StripControlKeepsOthers(s[1..], c);
      assert s == [s[0]] + s[1..];
      assert multiset(s) == multiset([s[0]]) + multiset(s[1..]);
      assert multiset(StripControl(s)) == multiset(head) + multiset(StripControl(s[1..]));
    }
  }

  /**
   * `validate_message`: trim, reject an empty or over-long trimmed message, then strip the
   * control characters. The length is checked before the control characters are removed.
   */
  function ValidateMessage(raw: RawMessage): (r: Result<string, ValidationError>)
    ensures raw.NotText? ==> r == Failure(NotAString)
    ensures raw.Text? ==>
      (r.Success? <==> MinMessageLength <= |Trim(raw.value)| <= MaxMessageLength)
    ensures raw.Text? && |Trim(raw.value)| < MinMessageLength ==> r == Failure(EmptyMessage)
    ensures raw.Text? && |Trim(raw.value)| > MaxMessageLength ==> r == Failure(MessageTooLong)
    ensures r.Success? ==> raw.Text? && r.value == StripControl(Trim(raw.value))
    ensures r.Success? ==> NoControl(r.value) && |r.value| <= MaxMessageLength
  {
    match raw
    case NotText => Failure(NotAString)
    case Text(s) =>
      var t := Trim(s);
      if |t| < MinMessageLength then Failure(EmptyMessage)
      else if |t| > MaxMessageLength then Failure(MessageTooLong)
      else Success(StripControl(t))
  }

  /** A message made only of whitespace is rejected as empty. */
  lemma WhitespaceOnlyIsEmpty(s: string)
    requires forall i | 0 <= i < |s| :: IsSpace(s[i])
    ensures ValidateMessage(Text(s)) == Failure(EmptyMessage)
  {
  }

  /**
   * Because the length is checked first, an accepted message can come back empty: a single
   * control character passes the length check and is then removed.
   */
  lemma AcceptedMessageMayBeEmpty()
    ensures ValidateMessage(Text([1 as char])) == Success([])
  {
    var s := [1 as char];
    assert !IsSpace(s[0]);
    assert Trim(s) == s;
  }

  /** A dictionary, as an ordered list of (key, value) pairs with values already rendered. */
  type Entries = seq<(string, string)>

  /** What a caller may pass as context: `None`, a `dict`, or some other object. */
  datatype ContextArg = NoContext | Mapping(entries: Entries) | NotMapping

  /** Length of one character of a string in `json.dumps` output (`ensure_ascii` escaping). */
  function JsonCharLength(c: char): (n: nat)
    ensures 1 <= n <= 12
  {
    if c == '"' || c == '\\' then 2
    else if c as int == 0x08 || c as int == 0x09 || c as int == 0x0A
         || c as int == 0x0C || c as int == 0x0D then 2
    else if 0x20 <= c as int <= 0x7E then 1
    else if c as int <= 0xFFFF then 6
    else 12
  }

  /** Length of `json.dumps(s)` for a string: the quotes plus each escaped character. */
  function JsonStringLength(s: string): (n: nat)
    ensures n >= |s| + 2
    decreases |s|
  {
    if s == [] then 2 else JsonCharLength(s[0]) + JsonStringLength(s[1..])
  }

  /** Length of the members of a JSON object, `"k": "v"`, separated by `, `. */
  function JsonMembersLength(entries: Entries): nat
    decreases |entries|
  {
    if entries == [] then 0
    else
      var member := JsonStringLength(entries[0].0) + 2 + JsonStringLength(entries[0].1);
      if |entries| == 1 then member else member + 2 + JsonMembersLength(entries[1..])
  }

  /** `len(json.dumps(context))` for a dictionary of strings. */
  function JsonObjectLength(entries: Entries): (n: nat)
    ensures n >= 2
  {
    2 + JsonMembersLength(entries)
  }

  /** Serialising to JSON takes at least eight characters per dictionary entry. */
  lemma {:induction false} JsonMembersAtLeast(entries: Entries)
    ensures JsonMembersLength(entries) >= 8 * |entries| - 2
    decreases |entries|
  {
    if |entries| > 1 {
      JsonMembersAtLeast(entries[1..]);
    }
  }

  /**
   * `validate_context`: `None` passes through, anything but a dictionary is rejected, and a
   * dictionary is returned unchanged exactly when its JSON form has at most 10000 characters.
   */
  function ValidateContext(c: ContextArg): (r: Result<Option<Entries>, ValidationError>)
    ensures c.NoContext? ==> r == Success(None)
    ensures c.NotMapping? ==> r == Failure(ContextNotDict)
    ensures c.Mapping? ==>
      (r == Success(Some(c.entries)) <==> JsonObjectLength(c.entries) <= MaxContextSize)
    ensures c.Mapping? && JsonObjectLength(c.entries) > MaxContextSize ==>
      r == Failure(ContextTooLarge)
  {
    match c
    case NoContext => Success(None)
    case NotMapping => Failure(ContextNotDict)
    case Mapping(entries) =>
      if JsonObjectLength(entries) > MaxContextSize then Failure(ContextTooLarge)
      else Success(Some(entries))
  }

  /** A context with more than 1250 entries is always too large. */
  lemma ManyEntriesTooLarge(entries: Entries)
    requires |entries| > 1250
    ensures ValidateContext(Mapping(entries)) == Failure(ContextTooLarge)
  {
    JsonMembersAtLeast(entries);
  }

  /** One pattern of `sanitize_for_prompt`, matched case-insensitively. */
  datatype Pattern =
    | Literal(token: string)   // the escaped literal token, e.g. `<\|im_start\|>`
    | RoleHeader(tag: string) // `###\s*` followed by a role tag such as `System:`

  /** The patterns, in the order they are applied. */
  const DangerousPatterns: seq<Pattern> := [
    Literal("<|im_start|>"),
    Literal("<|im_end|>"),
    RoleHeader("System:"),
    RoleHeader("Assistant:"),
    RoleHeader("User:")
  ]

  /** `s` starts with `p` when both are compared under `re.IGNORECASE` (ASCII letters only). */
  predicate StartsWithIgnoreCase(s: string, p: string) {
    |p| <= |s| && Lower(s[..|p|]) == Lower(p)
  }

  /** The number of leading whitespace characters, i.e. what a greedy `\s*` consumes. */
  function LeadingSpaces(s: string): (n: nat)
    ensures n <= |s|
    ensures forall i | 0 <= i < n :: IsSpace(s[i])
    ensures n == |s| || !IsSpace(s[n])
    decreases |s|
  {
    if s != [] && IsSpace(s[0]) then 1 + LeadingSpaces(s[1..]) else 0
  }

  /**
   * The length of the match of `p` at the start of `s`, or 0 when there is none. For a role
   * header, the greedy `\s*` cannot give back characters usefully, since every tag starts
   * with a letter.
   */
  function MatchLength(p: Pattern, s: string): (n: nat)
    ensures n <= |s|
  {
    match p
    case Literal(token) => if StartsWithIgnoreCase(s, token) then |token| else 0
    case RoleHeader(tag) =>
      if StartsWith(s, "###") then
        var k := LeadingSpaces(s[3..]);
        if StartsWithIgnoreCase(s[3 + k..], tag) then 3 + k + |tag| else 0
      else 0
  }

  /**
   * `re.sub(p, '', s, flags=re.IGNORECASE)`: scan from the left; where `p` matches, drop the
   * match and go on after it, otherwise keep one character.
   */
  function RemoveAll(p: Pattern, s: string): (r: string)
    ensures |r| <= |s|
    decreases |s|
  {
    if s == [] then []
    else
      var n := MatchLength(p, s);
      if n > 0 then RemoveAll(p, s[n..]) else [s[0]] + RemoveAll(p, s[1..])
  }

  /** Apply each pattern's removal in turn, as the loop of `sanitize_for_prompt` does. */
  function ApplyAll(patterns: seq<Pattern>, text: string): (r: string)
    ensures |r| <= |text|
    decreases |patterns|
  {
    if patterns == [] then text else ApplyAll(patterns[1..], RemoveAll(patterns[0], text))
  }

  /** The value of `sanitize_for_prompt(text)`. */
  function Sanitized(text: string): string {
    ApplyAll(DangerousPatterns, text)
  }

  /** `sanitize_for_prompt`: rebinds the text once per pattern, in the listed order. */
  method SanitizeForPrompt(text: string) returns (r: string)
    ensures r == Sanitized(text)
    ensures |r| <= |text|
  {
    r := text;
    for i := 0 to |DangerousPatterns|
      invariant ApplyAll(DangerousPatterns[i..], r) == Sanitized(text)
    {
      assert DangerousPatterns[i..][1..] == DangerousPatterns[i + 1..];
      r := RemoveAll(DangerousPatterns[i], r);
    }
  }

  /** `s` does not contain the character `c`. */
  predicate Lacks(s: string, c: char) {
    forall i | 0 <= i < |s| :: s[i] != c
  }

  /** The character every match of `p` starts with. */
  function Lead(p: Pattern): char {
    match p
    case Literal(token) => if token == [] then ' ' else token[0]
    case RoleHeader(_) => '#'
  }

  /** Each listed pattern can only match where its leading character (`<` or `#`) stands. */
  lemma MatchStartsWithLead(p: Pattern, s: string)
    requires p in DangerousPatterns
    requires MatchLength(p, s) > 0
    ensures s[0] == Lead(p)
  {
    if p.Literal? {
      assert Lower(s[..|p.token|])[0] == Lower(p.token)[0];
    } else {
      assert s[..3][0] == "###"[0];
    }
  }

  lemma {:induction false} RemoveAllKeepsText(p: Pattern, s: string)
    requires p in DangerousPatterns
    requires Lacks(s, Lead(p))
    ensures RemoveAll(p, s) == s
    decreases |s|
  {
    if s != [] {
      if MatchLength(p, s) > 0 {
        MatchStartsWithLead(p, s);
        assert false;
      }
      RemoveAllKeepsText(p, s[1..]);
    }
  }

  lemma {:induction false} ApplyAllKeepsText(patterns: seq<Pattern>, s: string)
    requires forall q | q in patterns :: q in DangerousPatterns && Lacks(s, Lead(q))
    ensures ApplyAll(patterns, s) == s
    decreases |patterns|
  {
    if patterns != [] {
      RemoveAllKeepsText(patterns[0], s);
      ApplyAllKeepsText(patterns[1..], s);
    }
  }

  /** Text with no `<` and no `#` passes through `sanitize_for_prompt` unchanged. */
  lemma SanitizeKeepsPlainText(s: string)
    requires Lacks(s, '<') && Lacks(s, '#')
    ensures Sanitized(s) == s
  {
    ApplyAllKeepsText(DangerousPatterns, s);
  }

  /** A prefix without the pattern's leading character is kept as it is. */
  lemma {:induction false} RemoveAllLackingPrefix(p: Pattern, a: string, b: string)
    requires p in DangerousPatterns
    requires Lacks(a, Lead(p))
    ensures RemoveAll(p, a + b) == a + RemoveAll(p, b)
    decreases |a|
  {
    if a == [] {
      assert a + b == b;
    } else {
      var s := a + b;
      assert s[0] == a[0] && s[1..] == a[1..] + b;
      NoMatchWithoutLead(p, s);
      RemoveAllUnmatched(p, s);
      RemoveAllLackingPrefix(p, a[1..], b);
      var r := RemoveAll(p, b);
      assert [a[0]] + (a[1..] + r) == ([a[0]] + a[1..]) + r;
      assert a == [a[0]] + a[1..];
    }
  }

  /** No listed pattern matches where its leading character is absent. */
  lemma NoMatchWithoutLead(p: Pattern, s: string)
    requires p in DangerousPatterns && s != [] && s[0] != Lead(p)
    ensures MatchLength(p, s) == 0
  {
    if MatchLength(p, s) > 0 {
      MatchStartsWithLead(p, s);
    }
  }

  /** Where nothing matches, removal keeps the first character and goes on after it. */
  lemma RemoveAllUnmatched(p: Pattern, s: string)
    requires s != [] && MatchLength(p, s) == 0
    ensures RemoveAll(p, s) == [s[0]] + RemoveAll(p, s[1..])
  {
  }

  /** A marker token in any letter case is removed wherever it starts. */
  lemma LiteralRemovedAnyCase(p: Pattern, token: string, rest: string)
    requires p in DangerousPatterns && p.Literal?
    requires Lower(token) == Lower(p.token)
    ensures RemoveAll(p, token + rest) == RemoveAll(p, rest)
  {
    var s := token + rest;
    assert s[..|token|] == token;
    assert s[|token|..] == rest;
  }

  lemma {:induction false} LeadingSpacesAppend(ws: string, t: string)
    requires forall i | 0 <= i < |ws| :: IsSpace(ws[i])
    requires t != [] && !IsSpace(t[0])
    ensures LeadingSpaces(ws + t) == |ws|
    decreases |ws|
  {
    if ws == [] {
      assert ws + t == t;
    } else {
      assert (ws + t)[1..] == ws[1..] + t;
      LeadingSpacesAppend(ws[1..], t);
    }
  }

  lemma TagStartsWithCapital(p: Pattern)
    requires p in DangerousPatterns && p.RoleHeader?
    ensures p.tag != [] && 'A' <= p.tag[0] <= 'Z'
  {
    assert p == DangerousPatterns[2] || p == DangerousPatterns[3] || p == DangerousPatterns[4];
  }

  lemma RoleHeaderMatch(p: Pattern, ws: string, tag: string, rest: string)
    requires p.RoleHeader? && p.tag != [] && 'A' <= p.tag[0] <= 'Z'
    requires forall i | 0 <= i < |ws| :: IsSpace(ws[i])
    requires Lower(tag) == Lower(p.tag)
    ensures MatchLength(p, "###" + ws + tag + rest) == 3 + |ws| + |tag|
  {
    var s := "###" + ws + tag + rest;
    assert |tag| == |p.tag|;
    assert LowerChar(tag[0]) == Lower(tag)[0] == Lower(p.tag)[0] == LowerChar(p.tag[0]);
    assert s[3..] == ws + (tag + rest);
    LeadingSpacesAppend(ws, tag + rest);
    assert s[3 + |ws|..] == tag + rest;
    assert (tag + rest)[..|tag|] == tag;
    assert s[..3] == "###";
  }

  /**
   * A role header is removed together with any run of whitespace between `###` and the role
   * tag, whatever the letter case of the tag.
   */
  lemma RoleHeaderRemovedAnyCase(p: Pattern, ws: string, tag: string, rest: string)
    requires p in DangerousPatterns && p.RoleHeader?
    requires forall i | 0 <= i < |ws| :: IsSpace(ws[i])
    requires Lower(tag) == Lower(p.tag)
    ensures RemoveAll(p, "###" + ws + tag + rest) == RemoveAll(p, rest)
  {
    var s := "###" + ws + tag + rest;
    TagStartsWithCapital(p);
    RoleHeaderMatch(p, ws, tag, rest);
    assert s[3 + |ws| + |tag|..] == rest;
  }

  /*
   * The witness of non-idempotence is "<" + u + "<" + v + t with u = "|im_", v = "|im_end|>"
   * and t = "start|>": the end marker "<" + v sits inside the start marker "<" + u + t. The
   * lemmas below take the pieces as parameters fixed by `WitnessParts`, so that the verifier
   * reasons about short strings and their concatenations instead of one long literal.
   */
  predicate WitnessParts(u: string, v: string, t: string) {
    u == "|im_" && v == "|im_end|>" && t == "start|>"
  }

  lemma LacksAppend(a: string, b: string, c: char)
    requires Lacks(a, c) && Lacks(b, c)
    ensures Lacks(a + b, c)
  {
    forall i | 0 <= i < |a + b| ensures (a + b)[i] != c {
      if i < |a| {
        assert (a + b)[i] == a[i];
      } else {
        assert (a + b)[i] == b[i - |a|];
      }
    }
  }

  /** Apart from the two marker starts, the witness has no `<`. */
  lemma WitnessPartsLackLead(u: string, v: string, t: string)
    requires WitnessParts(u, v, t)
    ensures Lacks(u, '<') && Lacks(v + t, '<') && Lacks(t, '<')
  {
    LacksAppend(v, t, '<');
  }

  /** A literal cannot match where one of its characters differs, letter case aside. */
  lemma LiteralMismatch(p: Pattern, s: string, j: nat)
    requires p.Literal? && j < |p.token| && j < |s|
    requires LowerChar(s[j]) != LowerChar(p.token[j])
    ensures MatchLength(p, s) == 0
  {
    IgnoreCaseAt(s, p.token, j);
  }

  /** A case-insensitive prefix agrees with the text at each position, letter case aside. */
  lemma IgnoreCaseAt(s: string, t: string, j: nat)
    requires j < |t| && j < |s|
    ensures StartsWithIgnoreCase(s, t) ==> LowerChar(s[j]) == LowerChar(t[j])
  {
    if StartsWithIgnoreCase(s, t) {
      assert Lower(s[..|t|])[j] == Lower(t)[j];
      assert s[..|t|][j] == s[j];
    }
  }

  /**
   * Where nothing matches at the first character and the next stretch lacks the pattern's
   * leading character, removal keeps both and goes on after them.
   */
  lemma RemoveAllSkipsHead(p: Pattern, h: string, u: string, rest: string)
    requires p in DangerousPatterns && |h| == 1 && Lacks(u, Lead(p))
    requires MatchLength(p, h + u + rest) == 0
    ensures RemoveAll(p, h + u + rest) == h + u + RemoveAll(p, rest)
  {
    ConcatAssoc(h, u, rest);
    RemoveAllSkipsFirst(p, h, u + rest);
    RemoveAllLackingPrefix(p, u, rest);
    ConcatAssoc(h, u, RemoveAll(p, rest));
  }

  /** An unmatched first character is kept. */
  lemma RemoveAllSkipsFirst(p: Pattern, h: string, s: string)
    requires |h| == 1 && MatchLength(p, h + s) == 0
    ensures RemoveAll(p, h + s) == h + RemoveAll(p, s)
  {
    var x := h + s;
    RemoveAllUnmatched(p, x);
    assert x[1..] == s && h == [x[0]];
  }

  lemma StartMarkerMismatchAt(p: Pattern, s: string, c: char)
    requires p == DangerousPatterns[0] && |s| > 5 && s[5] == c && (c == '<' || c == 'e')
    ensures MatchLength(p, s) == 0
  {
    assert p.token[5] == 's';
    LiteralMismatch(p, s, 5);
  }

  /** The start marker occurs nowhere in the witness: both `<` are followed by something else. */
  lemma FirstMarkerAbsent(u: string, v: string, t: string, p: Pattern)
    requires WitnessParts(u, v, t) && p == DangerousPatterns[0]
    ensures RemoveAll(p, "<" + u + ("<" + v + t)) == "<" + u + ("<" + v + t)
  {
    var x := "<" + u + ("<" + v + t);
    WitnessPartsLackLead(u, v, t);
    assert x[5] == '<';
    StartMarkerMismatchAt(p, x, '<');
    RemoveAllSkipsHead(p, "<", u, "<" + v + t);
    StartMarkerNotInTail(u, v, t, p);
  }

  /** The second `<` of the witness is followed by the end marker, not the start marker. */
  lemma StartMarkerNotInTail(u: string, v: string, t: string, p: Pattern)
    requires WitnessParts(u, v, t) && p == DangerousPatterns[0]
    ensures RemoveAll(p, "<" + v + t) == "<" + v + t
  {
    var rest := "<" + v + t;
    WitnessPartsLackLead(u, v, t);
    assert rest[5] == 'e';
    StartMarkerMismatchAt(p, rest, 'e');
    RemoveAllSkipsHead(p, "<", v, t);
    RemoveAllKeepsText(p, t);
  }

  /** The first `<` of the witness does not start the end marker; the second one does. */
  lemma EndMarkerPlaces(u: string, v: string, t: string, p: Pattern)
    requires WitnessParts(u, v, t) && p == DangerousPatterns[1]
    ensures MatchLength(p, "<" + u + ("<" + v + t)) == 0
    ensures RemoveAll(p, "<" + v + t) == t
  {
    var x := "<" + u + ("<" + v + t);
    assert p.token[5] == 'e' && x[5] == '<';
    LiteralMismatch(p, x, 5);
    EndMarkerRemoved(u, v, t, p);
  }

  lemma EndMarkerRemoved(u: string, v: string, t: string, p: Pattern)
    requires WitnessParts(u, v, t) && p == DangerousPatterns[1]
    ensures RemoveAll(p, "<" + v + t) == t
  {
    var rest := "<" + v + t;
    WitnessPartsLackLead(u, v, t);
    assert p.token == "<" + v;
    assert rest[..|p.token|] == p.token;
    assert MatchLength(p, rest) == 10;
    assert rest[10..] == t;
    RemoveAllKeepsText(p, t);
  }

  /** Removing the end marker joins the two halves of a start marker. */
  lemma SecondMarkerJoins(u: string, v: string, t: string, p: Pattern)
    requires WitnessParts(u, v, t) && p == DangerousPatterns[1]
    ensures RemoveAll(p, "<" + u + ("<" + v + t)) == "<" + u + t
  {
    WitnessPartsLackLead(u, v, t);
    EndMarkerPlaces(u, v, t, p);
    RemoveAllSkipsHead(p, "<", u, "<" + v + t);
  }

  lemma JoinedMarkerRemoved(y: string, p: Pattern)
    requires y == "<|im_start|>" && p == DangerousPatterns[0]
    ensures RemoveAll(p, y) == []
  {
    assert p.token == y && y[..12] == y;
    assert MatchLength(p, y) == 12;
    assert y[12..] == [];
  }

  lemma FirstPassKeeps(u: string, v: string, t: string)
    requires WitnessParts(u, v, t)
    ensures var x := "<" + u + ("<" + v + t);
      ApplyAll(DangerousPatterns, x) == ApplyAll(DangerousPatterns[1..], x)
  {
    FirstMarkerAbsent(u, v, t, DangerousPatterns[0]);
    ApplyAllStep(DangerousPatterns, "<" + u + ("<" + v + t));
  }

  lemma SecondPassJoins(u: string, v: string, t: string)
    requires WitnessParts(u, v, t)
    ensures ApplyAll(DangerousPatterns[1..], "<" + u + ("<" + v + t))
         == ApplyAll(DangerousPatterns[2..], "<" + u + t)
  {
    var ps := DangerousPatterns;
    SecondMarkerJoins(u, v, t, ps[1]);
    ApplyAllStep(ps[1..], "<" + u + ("<" + v + t));
    assert ps[1..][1..] == ps[2..];
  }

  lemma RoleHeadersKeep(y: string)
    requires y == "<|im_start|>"
    ensures ApplyAll(DangerousPatterns[2..], y) == y
  {
    assert Lacks(y, '#');
    ApplyAllKeepsText(DangerousPatterns[2..], y);
  }

  lemma JoinedMarkerSanitized(y: string)
    requires y == "<|im_start|>"
    ensures Sanitized(y) == []
  {
    JoinedMarkerRemoved(y, DangerousPatterns[0]);
    ApplyAllStep(DangerousPatterns, y);
  }

  lemma WitnessSplit(x: string, y: string, u: string, v: string, t: string)
    requires x == "<|im_<|im_end|>start|>" && y == "<|im_start|>" && WitnessParts(u, v, t)
    ensures x == "<" + u + ("<" + v + t) && y == "<" + u + t
  {
  }

  /**
   * Removing one marker can join the two halves of another, so `sanitize_for_prompt` is not
   * idempotent: a second application removes a marker the first one produced.
   */
  lemma SanitizeNotIdempotent(x: string, y: string)
    requires x == "<|im_<|im_end|>start|>" && y == "<|im_start|>"
    ensures Sanitized(x) == y
    ensures Sanitized(Sanitized(x)) == []
  {
    var u, v, t := "|im_", "|im_end|>", "start|>";
    WitnessSplit(x, y, u, v, t);
    FirstPassKeeps(u, v, t);
    SecondPassJoins(u, v, t);
    RoleHeadersKeep(y);
    JoinedMarkerSanitized(y);
  }

  lemma ApplyAllStep(ps: seq<Pattern>, t: string)
    requires ps != []
    ensures ApplyAll(ps, t) == ApplyAll(ps[1..], RemoveAll(ps[0], t))
  {
  }
}
