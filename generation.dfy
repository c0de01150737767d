/** `generateDiscordChat`: when to generate, the chat history and prompt sent,
    how the backend is chosen and called, and what the panel shows from the
    reply or the error. Host calls and the network are parameters (`Host`);
    the style table is a `Styles.StyleStore`. */
module Generation {
  import opened JsString
  import opened Optional
  import opened JsValues
  import opened Backend
  import opened ReactionParser
  import opened Styles
  import ConnectionUtils

  /** A chat message as the host keeps it. */
  datatype ChatMessage = ChatMessage(name: string, isUser: bool, mes: string)

  /** The settings the generation reads. `userCount` and `contextDepth` are
      numbers as parsed (None standing for NaN or undefined). */
  datatype Settings = Settings(
    enabled: bool,
    source: string,
    preset: string,
    style: string,
    userCount: Option<int>,
    includeUserInput: bool,
    contextDepth: Option<int>,
    url: string,
    model: string,
    openaiUrl: string,
    openaiModel: string)

  /** `Math.max(lo, Math.min(hi, v))`. */
  function Clamp(lo: int, hi: int, v: int): int {
    if v > hi then (if hi > lo then hi else lo) else if v < lo then lo else v
  }

  // ---------------------------------------------------------------------
  // History window
  // ---------------------------------------------------------------------

  /** `Math.max(2, Math.min(8, settings.contextDepth || 2))`. */
  function ContextDepth(setting: Option<int>): (d: int)
    ensures 2 <= d <= 8
    ensures setting.None? || setting.value == 0 ==> d == 2
    ensures setting.Some? && 2 <= setting.value <= 8 ==> d == setting.value
    ensures setting.Some? && setting.value < 2 ==> d == 2
    ensures setting.Some? && setting.value > 8 ==> d == 8
  {
    Clamp(2, 8, if setting.Some? && setting.value != 0 then setting.value else 2)
  }

  /** The messages given as history: the last message alone, or, with user
      input included, the last `ContextDepth` messages (all of a shorter
      chat). */
  function HistoryWindow(chat: seq<ChatMessage>, includeUserInput: bool, contextDepth: Option<int>): seq<ChatMessage>
    requires |chat| >= 1
  {
    var keep := if includeUserInput then (if |chat| < ContextDepth(contextDepth) then |chat| else ContextDepth(contextDepth)) else 1;
    chat[|chat| - keep..]
  }

  /** The window is a non-empty suffix of the chat of at most eight messages;
      it ends with the last message, and it holds only that one unless user
      input is included. */
  lemma HistoryWindowShape(chat: seq<ChatMessage>, includeUserInput: bool, contextDepth: Option<int>)
    requires |chat| >= 1
    ensures var h := HistoryWindow(chat, includeUserInput, contextDepth);
      && 1 <= |h| <= 8 && |h| <= |chat|
      && h == chat[|chat| - |h|..]
      && h[|h| - 1] == chat[|chat| - 1]
      && (!includeUserInput ==> h == [chat[|chat| - 1]])
      && (includeUserInput && |chat| >= ContextDepth(contextDepth) ==> |h| == ContextDepth(contextDepth))
      && (includeUserInput && |chat| <= ContextDepth(contextDepth) ==> h == chat)
  {
  }

  /** The history selection as the extension runs it: a backward walk to
      `depth` messages from the end, a further walk back to a user message,
      the slice from there, and a cut to the last `depth` messages. The
      second walk never changes the result: the cut drops whatever it
      added. */
  method SelectHistory(chat: seq<ChatMessage>, includeUserInput: bool, contextDepth: Option<int>)
    returns (history: seq<ChatMessage>)
    requires |chat| >= 1
    ensures history == HistoryWindow(chat, includeUserInput, contextDepth)
  {
    var n := |chat|;
    if includeUserInput {
      var depth := ContextDepth(contextDepth);
      var walked := WalkBack(n, depth);
      var startIdx := NearestUserAtOrBefore(chat, walked);
      history := chat[startIdx..];
      if |history| > depth {
        history := history[|history| - depth..];
      }
      CutFromEarlierStart(chat, depth, startIdx, history);
    } else {
      history := chat[n - 1..];
    }
  }

  /** The first loop: the index `depth` messages from the end, or 0. */
  method WalkBack(n: int, depth: int) returns (startIdx: int)
    requires n >= 1 && depth >= 1
    ensures startIdx == if n <= depth then 0 else n - depth
  {
    startIdx := n - 1;
    var i := n - 1;
    while i >= 0 && n - i <= depth
      invariant -1 <= i <= n - 1
      invariant n - (i + 1) <= depth
      invariant startIdx == if i == n - 1 then n - 1 else i + 1
      decreases i + 1
    {
      startIdx := i;
      i := i - 1;
    }
  }

  /** The second loop: the last user message at or before `from`, or
      `from` itself when there is none. */
  method NearestUserAtOrBefore(chat: seq<ChatMessage>, from: int) returns (startIdx: int)
    requires 0 <= from < |chat|
    ensures 0 <= startIdx <= from
    ensures startIdx < from || chat[from].isUser || forall k :: 0 <= k <= from ==> !chat[k].isUser
    ensures startIdx < from ==> chat[startIdx].isUser && forall k :: startIdx < k <= from ==> !chat[k].isUser
  {
    startIdx := from;
    var i := from;
    while i >= 0
      invariant -1 <= i <= from
      invariant forall k :: i < k <= from ==> !chat[k].isUser
      decreases i + 1
    {
      if chat[i].isUser {
        startIdx := i;
        return;
      }
      i := i - 1;
    }
  }

  /** Cutting the slice from any start at or before `max(0, n - depth)` to
      its last `depth` messages gives the last `depth` messages. */
  lemma CutFromEarlierStart(chat: seq<ChatMessage>, depth: int, start: int, history: seq<ChatMessage>)
    requires 1 <= depth
    requires 0 <= start <= (if |chat| <= depth then 0 else |chat| - depth)
    requires history == if |chat| - start > depth then chat[start..][|chat| - start - depth..] else chat[start..]
    ensures history == chat[|chat| - (if |chat| < depth then |chat| else depth)..]
  {
    if |chat| - start > depth {
      assert chat[start..][|chat| - start - depth..] == chat[|chat| - depth..];
    }
  }

  /** One history line: `name: cleaned message`. */
  function HistoryLine(m: ChatMessage, clean: string -> string): string {
    m.name + ": " + clean(m.mes)
  }

  /** The history text: the lines of the window joined by newlines. */
  function HistoryText(msgs: seq<ChatMessage>, clean: string -> string): string {
    Join(seq(|msgs|, k requires 0 <= k < |msgs| => HistoryLine(msgs[k], clean)), '\n')
  }

  /** When no name and no cleaned message holds a newline, the history text
      splits back into one line per message, in order. */
  lemma HistoryTextLines(msgs: seq<ChatMessage>, clean: string -> string)
    requires |msgs| >= 1
    requires forall k :: 0 <= k < |msgs| ==> '\n' !in msgs[k].name && '\n' !in clean(msgs[k].mes)
    ensures var lines := Split(HistoryText(msgs, clean), '\n');
      |lines| == |msgs| && forall k :: 0 <= k < |msgs| ==> lines[k] == HistoryLine(msgs[k], clean)
  {
    var lines := seq(|msgs|, k requires 0 <= k < |msgs| => HistoryLine(msgs[k], clean));
    forall k | 0 <= k < |lines|
      ensures '\n' !in lines[k]
    {
      assert lines[k] == msgs[k].name + ([':', ' '] + clean(msgs[k].mes));
    }
    SplitJoin(lines, '\n');
  }

  // ---------------------------------------------------------------------
  // Reaction count and prompt
  // ---------------------------------------------------------------------

  /** Styles written as one narrator's voice rather than many users. */
  const NarratorStyles: seq<string> := ["nsfw_ava", "nsfw_kai", "hypebot"]

  predicate IsNarrator(style: string) {
    style in NarratorStyles
  }

  /** The number of reactions asked for and shown: 1 for a narrator style;
      otherwise the setting, 5 when it is missing or 0, kept within 1..20. */
  function ReactionCount(style: string, setting: Option<int>): (n: int)
    ensures 1 <= n <= 20
    ensures IsNarrator(style) ==> n == 1
    ensures !IsNarrator(style) && (setting.None? || setting.value == 0) ==> n == 5
    ensures !IsNarrator(style) && setting.Some? && 1 <= setting.value <= 20 ==> n == setting.value
    ensures !IsNarrator(style) && setting.Some? && setting.value < 0 ==> n == 1
    ensures !IsNarrator(style) && setting.Some? && setting.value > 20 ==> n == 20
  {
    Clamp(1, 20, if IsNarrator(style) then 1
                 else if setting.Some? && setting.value != 0 then setting.value else 5)
  }

  /** `settings.style || 'twitch'`. */
  function StyleKey(style: string): string {
    if style == "" then "twitch" else style
  }

  const StoryHeader: string := "[STORY CONTEXT]\n"
  const InstructionHeader: string := "\n\n[INSTRUCTION]\n"
  const TaskHeader: string := "\n\n[TASK]\nReact to the story context above.\nSTRICTLY follow the format defined in the instruction.\n"
  const PromptClosing: string := "Do NOT continue the story or roleplay as the characters.\nDo NOT output preamble like \"Here are the messages\". Just output the content directly."

  /** The demand for an exact count, left out for narrator styles. */
  function CountInstruction(narrator: bool, count: nat): string {
    if narrator then "" else CountLead + NatToString(count) + CountTail(count)
  }

  const CountLead: string := "IMPORTANT: You MUST generate EXACTLY "

  function CountTail(count: nat): (r: string)
    ensures |r| > 0 && r[0] == ' '
  {
    [' '] + ("chat messages. Not fewer, not more - exactly " + NatToString(count) + ".\n\n")
  }

  /** The reminder of the count in the task section. */
  function CountReminder(narrator: bool, count: nat): string {
    if narrator then "" else "Output exactly " + NatToString(count) + " messages.\n"
  }

  /** The prompt: the story context (the history), the instruction (the
      count demand and the style prompt), and the task. */
  function TruePrompt(history: string, stylePrompt: string, narrator: bool, count: nat): string {
    StoryHeader + history + InstructionHeader + CountInstruction(narrator, count) + stylePrompt
      + TaskHeader + CountReminder(narrator, count) + PromptClosing
  }

  /** Where the parts of a string made of eight parts lie. */
  lemma EightParts(p: string, a: string, b: string, c: string, d: string, e: string, f: string, g: string, h: string)
    requires p == a + b + c + d + e + f + g + h
    ensures StartsWith(p, a)
    ensures OccursAt(p, b, |a|)
    ensures OccursAt(p, c, |a| + |b|)
    ensures OccursAt(p, d, |a| + |b| + |c|)
    ensures OccursAt(p, e, |a| + |b| + |c| + |d|)
    ensures EndsWith(p, h)
  {
    var p5 := a + b + c + d + e;
    FiveParts(p5, a, b, c, d, e);
    Extend(p5, f + g + h, a, 0);
    Extend(p5, f + g + h, b, |a|);
    Extend(p5, f + g + h, c, |a| + |b|);
    Extend(p5, f + g + h, d, |a| + |b| + |c|);
    Extend(p5, f + g + h, e, |a| + |b| + |c| + |d|);
    assert p == p5 + (f + g + h);
    assert p[|p| - |h|..] == h;
  }

  lemma FiveParts(p: string, a: string, b: string, c: string, d: string, e: string)
    requires p == a + b + c + d + e
    ensures OccursAt(p, a, 0)
    ensures OccursAt(p, b, |a|)
    ensures OccursAt(p, c, |a| + |b|)
    ensures OccursAt(p, d, |a| + |b| + |c|)
    ensures OccursAt(p, e, |a| + |b| + |c| + |d|)
  {
    var i := |a| + |b| + |c|;
    assert p[..|a|] == a;
    assert p[|a|..|a| + |b|] == b;
    assert p[|a| + |b|..i] == c;
    assert p[i..i + |d|] == d;
    assert p[i + |d|..] == e;
  }

  /** An occurrence stays where it is when text is appended. */
  lemma Extend(u: string, v: string, part: string, i: int)
    requires OccursAt(u, part, i)
    ensures OccursAt(u + v, part, i)
  {
    assert (u + v)[i..i + |part|] == u[i..i + |part|];
  }

  /** An occurrence inside an occurrence. */
  lemma OccursWithin(p: string, d: string, i: int, sub: string, j: int)
    requires OccursAt(p, d, i) && OccursAt(d, sub, j)
    ensures OccursAt(p, sub, i + j)
  {
    forall k | 0 <= k < |sub|
      ensures p[i + j + k] == sub[k]
    {
      assert sub[k] == d[j..j + |sub|][k] == d[j + k];
      assert d[j + k] == p[i..i + |d|][j + k];
    }
  }

  /** The prompt starts with the story header, then holds the history, and
      the style prompt right after the instruction header and the count
      demand. */
  lemma PromptLayout(history: string, stylePrompt: string, narrator: bool, count: nat)
    ensures var p := TruePrompt(history, stylePrompt, narrator, count);
      var at := |StoryHeader| + |history| + |InstructionHeader|;
      && StartsWith(p, StoryHeader)
      && OccursAt(p, history, |StoryHeader|)
      && OccursAt(p, InstructionHeader, |StoryHeader| + |history|)
      && OccursAt(p, CountInstruction(narrator, count), at)
      && OccursAt(p, stylePrompt, at + |CountInstruction(narrator, count)|)
      && EndsWith(p, PromptClosing)
  {
    EightParts(TruePrompt(history, stylePrompt, narrator, count), StoryHeader, history, InstructionHeader,
      CountInstruction(narrator, count), stylePrompt, TaskHeader, CountReminder(narrator, count), PromptClosing);
  }

  /** A narrator prompt says nothing about the count. */
  lemma NarratorPromptIgnoresCount(history: string, stylePrompt: string, m: nat, n: nat)
    ensures TruePrompt(history, stylePrompt, true, m) == TruePrompt(history, stylePrompt, true, n)
  {
  }

  /** Other prompts state the count in decimal right after the lead of the
      count demand, so different counts give different prompts. */
  lemma CountedPromptStatesCount(history: string, stylePrompt: string, m: nat, n: nat)
    ensures var p := TruePrompt(history, stylePrompt, false, m);
      var at := |StoryHeader| + |history| + |InstructionHeader| + |CountLead|;
      OccursAt(p, NatToString(m), at) && at + |NatToString(m)| < |p| && p[at + |NatToString(m)|] == ' '
    ensures m != n ==> TruePrompt(history, stylePrompt, false, m) != TruePrompt(history, stylePrompt, false, n)
  {
    CountAt(history, stylePrompt, m);
    if m != n {
      if NatToString(m) == NatToString(n) {
        NatToStringInjective(m, n);
      }
      NumbersApart(StoryHeader, history, InstructionHeader, CountLead, stylePrompt, TaskHeader, PromptClosing,
        NatToString(m), CountTail(m), CountReminder(false, m), NatToString(n), CountTail(n), CountReminder(false, n));
    }
  }

  /** Two strings laid out alike around different digit runs, each run
      followed by a space, differ. */
  lemma NumbersApart(a: string, b: string, c: string, lead: string, e: string, f: string, h: string,
                     x: string, tx: string, gx: string, y: string, ty: string, gy: string)
    requires forall i :: 0 <= i < |x| ==> IsDigit(x[i])
    requires forall i :: 0 <= i < |y| ==> IsDigit(y[i])
    requires |tx| > 0 && tx[0] == ' ' && |ty| > 0 && ty[0] == ' '
    requires x != y
    ensures a + b + c + (lead + x + tx) + e + f + gx + h != a + b + c + (lead + y + ty) + e + f + gy + h
  {
    var p := a + b + c + (lead + x + tx) + e + f + gx + h;
    var q := a + b + c + (lead + y + ty) + e + f + gy + h;
    NumberInside(a, b, c, lead, x, tx, e, f, gx, h);
    NumberInside(a, b, c, lead, y, ty, e, f, gy, h);
    if p == q {
      DigitRunsAt(p, |a| + |b| + |c| + |lead|, x, y);
    }
  }

  /** Where the count and the space after it lie in a counted prompt. */
  lemma CountAt(history: string, stylePrompt: string, m: nat)
    ensures var p := TruePrompt(history, stylePrompt, false, m);
      var at := |StoryHeader| + |history| + |InstructionHeader| + |CountLead|;
      OccursAt(p, NatToString(m), at) && at + |NatToString(m)| < |p| && p[at + |NatToString(m)|] == ' '
  {
    NumberInside(StoryHeader, history, InstructionHeader, CountLead, NatToString(m), CountTail(m), stylePrompt,
      TaskHeader, CountReminder(false, m), PromptClosing);
  }

  /** A number that sits, followed by a space, in the fourth of eight parts. */
  lemma NumberInside(a: string, b: string, c: string, lead: string, num: string, tail: string,
                     e: string, f: string, g: string, h: string)
    requires |tail| > 0 && tail[0] == ' '
    ensures var p := a + b + c + (lead + num + tail) + e + f + g + h;
      var at := |a| + |b| + |c| + |lead|;
      OccursAt(p, num, at) && at + |num| < |p| && p[at + |num|] == ' '
  {
    var d := lead + num + tail;
    var p := a + b + c + d + e + f + g + h;
    var i := |a| + |b| + |c|;
    EightParts(p, a, b, c, d, e, f, g, h);
    ThreeParts(d, lead, num, tail);
    OccursWithin(p, d, i, num, |lead|);
    OccursWithin(p, d, i, tail, |lead| + |num|);
    OccursFirst(p, tail, i + |lead| + |num|);
  }

  lemma ThreeParts(d: string, x: string, y: string, z: string)
    requires d == x + y + z
    ensures OccursAt(d, y, |x|) && OccursAt(d, z, |x| + |y|)
  {
    assert d[|x|..|x| + |y|] == y;
    assert d[|x| + |y|..] == z;
  }

  lemma OccursFirst(p: string, t: string, k: int)
    requires OccursAt(p, t, k) && |t| > 0
    ensures k < |p| && p[k] == t[0]
  {
    assert p[k..k + |t|][0] == p[k];
  }

  /** Two runs of digits at the same place, each followed by a space, are
      the same run. */
  lemma DigitRunsAt(p: string, at: int, a: string, b: string)
    requires OccursAt(p, a, at) && OccursAt(p, b, at)
    requires forall i :: 0 <= i < |a| ==> IsDigit(a[i])
    requires forall i :: 0 <= i < |b| ==> IsDigit(b[i])
    requires at + |a| < |p| && p[at + |a|] == ' '
    requires at + |b| < |p| && p[at + |b|] == ' '
    ensures a == b
  {
    if |a| < |b| {
      assert false;
    } else if |b| < |a| {
      assert false;
    }
  }

  // ---------------------------------------------------------------------
  // Backends
  // ---------------------------------------------------------------------

  datatype Route = ViaProfile | ViaOllama | ViaOpenAI | ViaHost

  /** The backend: a connection profile when the source is `profile` and a
      preset is named, Ollama, an OpenAI-compatible server, or the host's
      own generation for any other source. */
  function RouteFor(source: string, preset: string): (r: Route)
    ensures r == ViaProfile <==> source == "profile" && preset != ""
    ensures r == ViaOllama <==> source == "ollama"
    ensures r == ViaOpenAI <==> source == "openai"
    ensures r == ViaHost <==> (source != "ollama" && source != "openai" && (source != "profile" || preset == ""))
  {
    if source == "profile" && preset != "" then ViaProfile
    else if source == "ollama" then ViaOllama
    else if source == "openai" then ViaOpenAI
    else ViaHost
  }

  /** `url.replace(/\/$/, '')`: one trailing slash removed. */
  function StripTrailingSlash(url: string): string {
    if |url| > 0 && url[|url| - 1] == '/' then url[..|url| - 1] else url
  }

  function Endpoint(base: string, path: string): string {
    StripTrailingSlash(base) + path
  }

  /** A base URL gives the same endpoint with or without one trailing
      slash; a second slash is kept. */
  lemma EndpointTrailingSlash(base: string, path: string)
    requires |base| == 0 || base[|base| - 1] != '/'
    ensures Endpoint(base + "/", path) == Endpoint(base, path) == base + path
    ensures Endpoint(base + "//", path) == base + "/" + path
  {
    assert (base + "/")[..|base|] == base;
    assert (base + "//")[..|base| + 1] == base + "/";
  }

  /** What the page's host offers: the connection manager's profile list
      (None when it or its list is absent), whether the request service and
      `generateRaw` exist, the value of the free identifier `sys` (None when
      it is unbound), `JSON.stringify`, the outcome of a host call
      (`sendRequest` or `generateRaw`) and of a `fetch`. */
  datatype Host = Host(
    profiles: Option<seq<Profile>>,
    hasRequestService: bool,
    hasGenerateRaw: bool,
    sys: Option<Value>,
    stringify: Value -> string,
    call: Request -> Result<Value, JsError>,
    fetch: Request -> Result<HttpResponse, JsError>)

  /** What evaluating the unbound identifier `sys` throws. */
  const SysUnbound: JsError := JsError("ReferenceError", Some("sys is not defined"))

  /** How the backend call ended: with a result, with a thrown error, or by
      returning early without a result. */
  datatype CallResult = Returned(value: Value) | Threw(error: JsError) | Quit

  /** The request made, if any, and how the call ended. */
  datatype Call = Call(sent: Option<Request>, result: CallResult)

  /** `JSON.stringify(v)`: undefined stays undefined. */
  function Stringified(v: Value, stringify: Value -> string): Value {
    if v.Undefined? then Undefined else Str(stringify(v))
  }

  /** The reply of a profile request: a truthy `content`, a string reply, a
      truthy `choices[0].message.content`, or else the reply as JSON text. */
  function ProfileReply(response: Value, stringify: Value -> string): Value {
    if Truthy(Get(response, "content")) then Get(response, "content")
    else if response.Str? then response
    else if Truthy(ChoiceContent(response)) then ChoiceContent(response)
    else Stringified(response, stringify)
  }

  /** The profile reply here and `ConnectionUtils.ExtractContent` agree on
      every reply shape both accept; a reply with only a truthy `text` is
      taken by the latter and stringified here, and where the latter throws
      this one stringifies. */
  lemma RepliesCompared(response: Value, stringify: Value -> string)
    ensures var e := ConnectionUtils.ExtractContent(response);
      var textOnly := !Truthy(Get(response, "content")) && !response.Str?
        && !Truthy(ChoiceContent(response)) && Truthy(Get(response, "text"));
      && (e.Ok? && !textOnly ==> ProfileReply(response, stringify) == e.value)
      && (textOnly ==> e == Ok(Get(response, "text")) && ProfileReply(response, stringify) == Stringified(response, stringify))
      && (e.Err? ==> ProfileReply(response, stringify) == Stringified(response, stringify))
  {
  }

  /** A request through a connection profile: the profile named by the
      preset, the style prompt as system message and the prompt as user
      message, 512 tokens. */
  function ProfileCall(preset: string, stylePrompt: string, prompt: string, host: Host): (c: Call)
    ensures c.sent.Some? <==> (host.profiles.Some?
      && ConnectionUtils.FindProfile(host.profiles.value, preset).Some? && host.hasRequestService)
    ensures c.sent.Some? ==> c.sent.value == ProfileSend(
      ConnectionUtils.FindProfile(host.profiles.value, preset).value.id,
      [ChatTurn("system", stylePrompt), ChatTurn("user", prompt)], 512)
    ensures c.sent.None? ==> c.result.Threw?
    ensures (host.profiles.None? || ConnectionUtils.FindProfile(host.profiles.value, preset).None?)
      ==> c.result == Threw(Error("Profile '" + preset + "' not found"))
    ensures (host.profiles.Some? && ConnectionUtils.FindProfile(host.profiles.value, preset).Some?
             && !host.hasRequestService)
      ==> c.result == Threw(Error("ConnectionManagerRequestService not available"))
    ensures c.sent.Some? ==> c.result == match host.call(c.sent.value)
      case Err(e) => Threw(e)
      case Ok(response) => Returned(ProfileReply(response, host.stringify))
  {
    var found := if host.profiles.Some? then ConnectionUtils.FindProfile(host.profiles.value, preset) else None;
    if found.None? then Call(None, Threw(Error("Profile '" + preset + "' not found")))
    else if !host.hasRequestService then Call(None, Threw(Error("ConnectionManagerRequestService not available")))
    else
      var request := ProfileSend(found.value.id, [ChatTurn("system", stylePrompt), ChatTurn("user", prompt)], 512);
      Call(Some(request), match host.call(request)
        case Err(e) => Threw(e)
        case Ok(response) => Returned(ProfileReply(response, host.stringify)))
  }

  /** With a non-empty style prompt the messages here are the ones
      `ConnectionUtils.GenerateWithProfile` would build; the token budgets
      differ (512 here, 500 there). */
  lemma ProfileMessagesCompared(preset: string, stylePrompt: string, prompt: string, host: Host)
    requires stylePrompt != ""
    requires ProfileCall(preset, stylePrompt, prompt, host).sent.Some?
    ensures var r := ProfileCall(preset, stylePrompt, prompt, host).sent.value;
      r.messages == ConnectionUtils.ProfileMessages(stylePrompt, prompt)
      && r.maxTokens == ConnectionUtils.ProfileMaxTokens + 12
  {
  }

  /** A request to Ollama's generate endpoint, or an early return when no
      model is chosen. */
  function OllamaCall(url: string, model: string, prompt: string, host: Host): (c: Call)
    ensures c.result.Quit? <==> model == ""
    ensures c.sent.Some? <==> model != "" && host.sys.Some?
    ensures c.sent.Some? ==> c.sent.value == OllamaGenerate(
      Endpoint(url, "/api/generate"), model, host.sys.value, prompt, 2048, 512, ["</discordchat>"])
    ensures model != "" && host.sys.None? ==> c.result == Threw(SysUnbound)
    ensures c.sent.Some? ==> c.result == match host.fetch(c.sent.value)
      case Err(e) => Threw(e)
      case Ok(response) =>
        if !response.ok then Threw(Error("Ollama API Error(" + NatToString(response.status) + ")"))
        else match Member(response.body, "response")
          case Err(e) => Threw(e)
          case Ok(v) => Returned(v)
  {
    if model == "" then Call(None, Quit)
    else match host.sys
      case None => Call(None, Threw(SysUnbound))
      case Some(sys) =>
        var request := OllamaGenerate(Endpoint(url, "/api/generate"), model, sys, prompt, 2048, 512, ["</discordchat>"]);
        Call(Some(request), match host.fetch(request)
          case Err(e) => Threw(e)
          case Ok(response) =>
            if !response.ok then Threw(Error("Ollama API Error(" + NatToString(response.status) + ")"))
            else match Member(response.body, "response")
              case Err(e) => Threw(e)
              case Ok(v) => Returned(v))
  }

  /** A request to an OpenAI-compatible chat endpoint: the prompt as the one
      user message, 500 tokens, `local-model` when no model is set. */
  function OpenAICall(url: string, model: string, prompt: string, host: Host): (c: Call)
    ensures c.sent == Some(OpenAIChat(Endpoint(url, "/chat/completions"),
      if model == "" then "local-model" else model, [ChatTurn("user", prompt)], 500))
    ensures c.result.Returned? ==> exists r :: (host.fetch(c.sent.value) == Ok(r) && r.ok
      && ChoiceContentStrict(r.body) == Ok(c.result.value))
    ensures forall r :: host.fetch(c.sent.value) == Ok(r) && !r.ok ==>
      c.result == Threw(Error("API Error: " + NatToString(r.status)))
    ensures forall r :: host.fetch(c.sent.value) == Ok(r) && r.ok ==>
      c.result == match ChoiceContentStrict(r.body) case Err(e) => Threw(e) case Ok(v) => Returned(v)
    ensures forall e :: host.fetch(c.sent.value) == Err(e) ==> c.result == Threw(e)
  {
    var request := OpenAIChat(Endpoint(url, "/chat/completions"),
      if model == "" then "local-model" else model, [ChatTurn("user", prompt)], 500);
    Call(Some(request), match host.fetch(request)
      case Err(e) => Threw(e)
      case Ok(response) =>
        if !response.ok then Threw(Error("API Error: " + NatToString(response.status)))
        else match ChoiceContentStrict(response.body)
          case Err(e) => Threw(e)
          case Ok(v) => Returned(v))
  }

  /** The host's own generation, with `sys` as system prompt. */
  function HostCall(prompt: string, host: Host): (c: Call)
    ensures c.sent.Some? <==> host.hasGenerateRaw && host.sys.Some?
    ensures c.sent.Some? ==> c.sent.value == RawGenerate(host.sys.value, prompt)
    ensures !host.hasGenerateRaw ==> c.result == Threw(Error("generateRaw not available in context"))
    ensures host.hasGenerateRaw && host.sys.None? ==> c.result == Threw(SysUnbound)
    ensures c.sent.Some? ==> c.result == match host.call(c.sent.value)
      case Err(e) => Threw(e)
      case Ok(v) => Returned(v)
  {
    if !host.hasGenerateRaw then Call(None, Threw(Error("generateRaw not available in context")))
    else match host.sys
      case None => Call(None, Threw(SysUnbound))
      case Some(sys) =>
        var request := RawGenerate(sys, prompt);
        Call(Some(request), match host.call(request)
          case Err(e) => Threw(e)
          case Ok(v) => Returned(v))
  }

  function Dispatch(s: Settings, stylePrompt: string, prompt: string, host: Host): Call {
    match RouteFor(s.source, s.preset)
    case ViaProfile => ProfileCall(s.preset, stylePrompt, prompt, host)
    case ViaOllama => OllamaCall(s.url, s.model, prompt, host)
    case ViaOpenAI => OpenAICall(s.openaiUrl, s.openaiModel, prompt, host)
    case ViaHost => HostCall(prompt, host)
  }

  /** The prompt a request carries (for a chat request, its last message). */
  function RequestPrompt(r: Request): string {
    match r
    case ProfileSend(_, messages, _) => if |messages| > 0 then messages[|messages| - 1].content else ""
    case OllamaGenerate(_, _, _, prompt, _, _, _) => prompt
    case OpenAIChat(_, _, messages, _) => if |messages| > 0 then messages[|messages| - 1].content else ""
    case RawGenerate(_, prompt) => prompt
  }

  /** Every request carries the prompt, is of the kind its route names, and
      only a profile request carries the style prompt separately. */
  lemma DispatchSendsPrompt(s: Settings, stylePrompt: string, prompt: string, host: Host)
    ensures var c := Dispatch(s, stylePrompt, prompt, host);
      var route := RouteFor(s.source, s.preset);
      c.sent.Some? ==> (
        && RequestPrompt(c.sent.value) == prompt
        && (c.sent.value.ProfileSend? <==> route == ViaProfile)
        && (c.sent.value.OllamaGenerate? <==> route == ViaOllama)
        && (c.sent.value.OpenAIChat? <==> route == ViaOpenAI)
        && (c.sent.value.RawGenerate? <==> route == ViaHost)
        && (c.sent.value.ProfileSend? ==> c.sent.value.messages[0] == ChatTurn("system", stylePrompt)))
    ensures Dispatch(s, stylePrompt, prompt, host).sent.None? ==> !Dispatch(s, stylePrompt, prompt, host).result.Returned?
  {
  }

  /** Only Ollama without a model returns early. */
  lemma DispatchQuits(s: Settings, stylePrompt: string, prompt: string, host: Host)
    ensures Dispatch(s, stylePrompt, prompt, host).result.Quit? <==> RouteFor(s.source, s.preset) == ViaOllama && s.model == ""
  {
  }

  // ---------------------------------------------------------------------
  // What the panel shows
  // ---------------------------------------------------------------------

  /** `result.replace(...)`: only a string result can be cleaned. */
  function AsText(v: Value): (r: Result<string, JsError>)
    ensures r.Ok? <==> v.Str?
    ensures r.Ok? ==> r.value == v.s
    ensures IsNullish(v) ==> r == Err(ReadError(v, "replace"))
  {
    match v
    case Str(s) => Ok(s)
    case Undefined => Err(ReadError(v, "replace"))
    case Null => Err(ReadError(v, "replace"))
    case _ => Err(JsError("TypeError", Some("result.replace is not a function")))
  }

  datatype Panel =
    | Collapsed               // generation disabled: the bar is collapsed
    | NoChat                  // nothing to react to
    | AiTyping                // the last message is the user's
    | NoModel                 // Ollama without a model: the processing status stays
    | Rendered(display: Display)
    | Cancelled               // "Processing cancelled"
    | Failed(message: string) // the error's message, shown as is

  /** An abort, a message mentioning "aborted", or a cancel by the user. */
  predicate IsAbort(e: JsError, userCancelled: bool) {
    e.name == "AbortError" || (e.message.Some? && Contains(e.message.value, "aborted")) || userCancelled
  }

  /** `${err.message}`. */
  function MessageText(e: JsError): string {
    match e.message
    case Some(m) => m
    case None => "undefined"
  }

  function Failure(e: JsError, userCancelled: bool): (p: Panel)
    ensures p.Cancelled? || p.Failed?
    ensures p.Cancelled? <==> IsAbort(e, userCancelled)
  {
    if IsAbort(e, userCancelled) then Cancelled else Failed(MessageText(e))
  }

  /** An error whose message mentions an abort is shown as a cancel even
      when the user cancelled nothing. */
  lemma AbortedMessageLooksCancelled(prefix: string)
    ensures Failure(Error(prefix + "aborted"), false) == Cancelled
  {
    var m := prefix + "aborted";
    assert OccursAt(m, "aborted", |prefix|) by {
      assert m[|prefix|..|prefix| + 7] == "aborted";
    }
  }

  /** The panel after the backend call. */
  function Finish(c: CallResult, noise: set<char>, count: int, userCancelled: bool): Panel {
    match c
    case Quit => NoModel
    case Threw(e) => Failure(e, userCancelled)
    case Returned(v) =>
      match AsText(v)
      case Err(e) => Failure(e, userCancelled)
      case Ok(text) => Rendered(DisplayFor(text, noise, count))
  }

  /** A cancel by the user never shows as a failure, and a rendered panel
      comes only from a string result. */
  lemma FinishOutcomes(c: CallResult, noise: set<char>, count: int, userCancelled: bool)
    ensures userCancelled ==> !Finish(c, noise, count, userCancelled).Failed?
    ensures Finish(c, noise, count, userCancelled).Rendered? <==> c.Returned? && c.value.Str?
    ensures Finish(c, noise, count, userCancelled).Rendered? ==>
      Finish(c, noise, count, userCancelled).display == DisplayFor(c.value.s, noise, count)
    ensures Finish(c, noise, count, userCancelled).NoModel? <==> c.Quit?
    ensures var p := Finish(c, noise, count, userCancelled);
      p.Rendered? && p.display.Shown? ==> 1 <= |p.display.reactions| <= count
  {
  }

  // ---------------------------------------------------------------------
  // The whole generation
  // ---------------------------------------------------------------------

  /** Everything outside the settings and the chat: `cleanMessage`, the
      fetch of a prompt file, the host, the noise class of the parser, and
      whether the user pressed cancel while the request ran. */
  datatype Env = Env(
    clean: string -> string,
    fetchFile: string -> Option<string>,
    host: Host,
    noise: set<char>,
    userCancelled: bool)

  /** What a run shows and the request it made. */
  datatype Run = Run(panel: Panel, sent: Option<Request>)

  /** Generation goes ahead when enabled, the chat is not empty and its last
      message is not the user's. */
  predicate Proceeds(s: Settings, chat: seq<ChatMessage>) {
    s.enabled && |chat| >= 1 && !chat[|chat| - 1].isUser
  }

  function StylePromptFor(s: Settings, t: Table, env: Env): string {
    ChatStylePrompt(t, StyleKey(s.style), env.fetchFile)
  }

  function PromptFor(s: Settings, chat: seq<ChatMessage>, t: Table, env: Env): string
    requires |chat| >= 1
  {
    TruePrompt(HistoryText(HistoryWindow(chat, s.includeUserInput, s.contextDepth), env.clean),
      StylePromptFor(s, t, env), IsNarrator(s.style), ReactionCount(s.style, s.userCount))
  }

  function GenerateSpec(s: Settings, chat: seq<ChatMessage>, t: Table, env: Env): Run {
    if !s.enabled then Run(Collapsed, None)
    else if |chat| == 0 then Run(NoChat, None)
    else if chat[|chat| - 1].isUser then Run(AiTyping, None)
    else Attempt(s, chat, t, env)
  }

  /** A run past the gates: the request made and the panel from its
      outcome. */
  function Attempt(s: Settings, chat: seq<ChatMessage>, t: Table, env: Env): Run
    requires |chat| >= 1
  {
    var c := Dispatch(s, StylePromptFor(s, t, env), PromptFor(s, chat, t, env), env.host);
    Run(Finish(c.result, env.noise, ReactionCount(s.style, s.userCount), env.userCancelled), c.sent)
  }

  /** The style table after a run: the style prompt is loaded (and cached)
      only when generation goes ahead. */
  function StoreAfter(s: Settings, chat: seq<ChatMessage>, t: Table, env: Env): Table {
    if Proceeds(s, chat) then LoadState(t, StyleKey(s.style), env.fetchFile) else t
  }

  /** `generateDiscordChat()`. */
  method Generate(s: Settings, chat: seq<ChatMessage>, store: StyleStore, env: Env) returns (run: Run)
    modifies store
    ensures run == GenerateSpec(s, chat, old(store.State()), env)
    ensures store.State() == StoreAfter(s, chat, old(store.State()), env)
  {
    if !s.enabled {
      return Run(Collapsed, None);
    }
    if |chat| == 0 {
      return Run(NoChat, None);
    }
    if chat[|chat| - 1].isUser {
      return Run(AiTyping, None);
    }
    run := Request(s, chat, store, env);
  }

  /** The `try` block: build the prompt, call the backend, show the
      outcome. */
  method Request(s: Settings, chat: seq<ChatMessage>, store: StyleStore, env: Env) returns (run: Run)
    requires |chat| >= 1
    modifies store
    ensures run == Attempt(s, chat, old(store.State()), env)
    ensures store.State() == LoadState(old(store.State()), StyleKey(s.style), env.fetchFile)
  {
    var history := SelectHistory(chat, s.includeUserInput, s.contextDepth);
    var historyText := HistoryText(history, env.clean);
    var narrator := IsNarrator(s.style);
    var count := ReactionCount(s.style, s.userCount);
    var stylePrompt := store.LoadChatStyle(StyleKey(s.style), env.fetchFile);
    var prompt := TruePrompt(historyText, stylePrompt, narrator, count);
    var call := Dispatch(s, stylePrompt, prompt, env.host);
    var panel := Conclude(call.result, env.noise, count, env.userCancelled);
    run := Run(panel, call.sent);
  }

  /** The `try` block's tail and the `catch`: the result parsed and shown,
      or the error shown. */
  method Conclude(c: CallResult, noise: set<char>, count: int, userCancelled: bool) returns (panel: Panel)
    ensures panel == Finish(c, noise, count, userCancelled)
  {
    match c
    case Quit =>
      panel := NoModel;
    case Threw(e) =>
      panel := Failure(e, userCancelled);
    case Returned(v) =>
      match AsText(v)
      case Err(e) =>
        panel := Failure(e, userCancelled);
      case Ok(text) =>
        var display := RenderCompletion(text, noise, count);
        panel := Rendered(display);
  }

  /** Nothing is requested and no style is loaded unless generation goes
      ahead; then the panel tells which gate stopped it. */
  lemma GatesStopEarly(s: Settings, chat: seq<ChatMessage>, t: Table, env: Env)
    requires !Proceeds(s, chat)
    ensures GenerateSpec(s, chat, t, env).sent.None?
    ensures StoreAfter(s, chat, t, env) == t
    ensures GenerateSpec(s, chat, t, env).panel == (if !s.enabled then Collapsed else if |chat| == 0 then NoChat else AiTyping)
  {
  }

  /** A request made carries the prompt built from the history window, the
      style prompt and the count. */
  lemma RequestCarriesPrompt(s: Settings, chat: seq<ChatMessage>, t: Table, env: Env)
    requires GenerateSpec(s, chat, t, env).sent.Some?
    ensures Proceeds(s, chat)
    ensures RequestPrompt(GenerateSpec(s, chat, t, env).sent.value) == PromptFor(s, chat, t, env)
  {
    DispatchSendsPrompt(s, StylePromptFor(s, t, env), PromptFor(s, chat, t, env), env.host);
  }

  /** A rendered panel shows between 1 and the reaction count of records
      (at most 20, exactly 1 for a narrator style). */
  lemma ShownWithinCount(s: Settings, chat: seq<ChatMessage>, t: Table, env: Env)
    requires GenerateSpec(s, chat, t, env).panel.Rendered?
    requires GenerateSpec(s, chat, t, env).panel.display.Shown?
    ensures var n := |GenerateSpec(s, chat, t, env).panel.display.reactions|;
      1 <= n <= ReactionCount(s.style, s.userCount) <= 20
      && (IsNarrator(s.style) ==> n == 1)
  {
    var c := Dispatch(s, StylePromptFor(s, t, env), PromptFor(s, chat, t, env), env.host);
    FinishOutcomes(c.result, env.noise, ReactionCount(s.style, s.userCount), env.userCancelled);
  }

  /** Once generation goes ahead, a cancel by the user is never shown as a
      failure, and the processing status stays only for Ollama without a
      model. */
  lemma CancelAndNoModel(s: Settings, chat: seq<ChatMessage>, t: Table, env: Env)
    requires Proceeds(s, chat)
    ensures env.userCancelled ==> !GenerateSpec(s, chat, t, env).panel.Failed?
    ensures GenerateSpec(s, chat, t, env).panel.NoModel? <==> RouteFor(s.source, s.preset) == ViaOllama && s.model == ""
  {
    var c := Dispatch(s, StylePromptFor(s, t, env), PromptFor(s, chat, t, env), env.host);
    FinishOutcomes(c.result, env.noise, ReactionCount(s.style, s.userCount), env.userCancelled);
    DispatchQuits(s, StylePromptFor(s, t, env), PromptFor(s, chat, t, env), env.host);
  }
}
