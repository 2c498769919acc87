/** The prompt of a conversation, and how much of it the next turn can reuse (anthropic.rs). */
module ChatPrompts {
  import opened Common
  import opened Strings
  import opened Network
  import opened Tokenizing
  import Parsing
  import CacheAges
  import Slots
  import SplitSlots
  import SplitTables

  const IM_START := "<|im_start|>"
  const IM_END := "<|im_end|>\n"
  const CUE_THINK := "<|im_start|>assistant\n<think>\n\n</think>\n\n"
  const CUE_PLAIN := "<|im_start|>assistant\n"

  // The lines around the tools.
  function MayCall(): string { "You may call one or more " + "functions to assist with " + "the user query." }

  function Provided(): string { "You are provided with " + "function signatures within " + "<tools></tools> XML tags:" }

  function Returns(): string {
    "For each function call, " + "return a json object with " + "function name and arguments " + "within "
    + "<tool_call></tool_call>" + " XML tags:"
  }

  function CallShape(): string { "{\"name\": <function-name>, " + "\"arguments\": <args-json-object>}" }

  function ToolsBefore(): string {
    "# Tools" + "\n" + "" + "\n" + MayCall() + "\n" + "" + "\n" + Provided() + "\n" + "<tools>"
  }

  function ToolsAfter(): string {
    "\n" + "</tools>" + "\n" + "" + "\n" + Returns() + "\n" + "<tool_call>" + "\n" + CallShape() + "\n"
    + "</tool_call>"
  }

  datatype Message = Message(role: string, content: string)

  // `tools` are the tool descriptions as rendered to JSON.
  datatype Request = Request(system: Option<string>, tools: seq<string>, messages: seq<Message>)

  // How contents are rendered, or refused, is any function of the content.
  datatype Renderer = Renderer(user: string -> Option<string>, assistant: string -> Option<string>)

  function ToolLines(tools: seq<string>): string {
    if tools == [] then "" else "\n" + tools[0] + ToolLines(tools[1..])
  }

  /** The system turn. */
  function Head(system: Option<string>, tools: seq<string>): string {
    if tools == [] then
      match system
      case None => ""
      case Some(s) => IM_START + "system\n" + s + IM_END
    else
      IM_START + "system\n" + (match system case None => "" case Some(s) => s + "\n\n")
      + ToolsBefore() + ToolLines(tools) + ToolsAfter() + IM_END
  }

  function Turn(r: Renderer, m: Message): Option<string> {
    var body :=
      if m.role == "user" || m.role == "system" then r.user(m.content)
      else if m.role == "assistant" then r.assistant(m.content)
      else None;
    match body case None => None case Some(s) => Some(IM_START + m.role + "\n" + s + IM_END)
  }

  function Turns(r: Renderer, ms: seq<Message>): Option<string> {
    if ms == [] then Some("")
    else match (Turn(r, ms[0]), Turns(r, ms[1..]))
      case (Some(a), Some(b)) => Some(a + b)
      case _ => None
  }

  lemma {:induction false} TurnsAppend(r: Renderer, a: seq<Message>, b: seq<Message>)
    ensures Turns(r, a + b) == match (Turns(r, a), Turns(r, b)) {
      case (Some(s), Some(t)) => Some(s + t)
      case _ => None
    }
  {
    hide Turn;
    if a == [] {
      assert a + b == b;
      match Turns(r, b)
      case Some(t) => assert "" + t == t;
      case None =>
    } else {
      assert (a + b)[1..] == a[1..] + b;
      TurnsAppend(r, a[1..], b);
      match (Turn(r, a[0]), Turns(r, a[1..]), Turns(r, b))
      case (Some(x), Some(y), Some(z)) => assert x + (y + z) == x + y + z;
      case _ =>
    }
  }

  predicate IsPrefill(ms: seq<Message>) {
    ms != [] && ms[|ms| - 1].role == "assistant"
  }

  function Complete(ms: seq<Message>): seq<Message> {
    if IsPrefill(ms) then ms[..|ms| - 1] else ms
  }

  /** The specification: system turn, complete turns, cue, and the start of an assistant's answer if one is given. */
  function Prompt(r: Renderer, req: Request, cue: string): Option<string> {
    match Turns(r, Complete(req.messages))
    case None => None
    case Some(turns) =>
      var history := Head(req.system, req.tools) + turns;
      if IsPrefill(req.messages) then
        match r.assistant(req.messages[|req.messages| - 1].content)
        case None => None
        case Some(s) => Some(history + cue + Parsing.TrimEnd(s))
      else Some(history + cue)
  }

  method RenderHead(req: Request) returns (out: string)
    ensures out == Head(req.system, req.tools)
  {
    out := "";
    if req.tools == [] {
      if req.system.Some? {
        out := IM_START + "system\n" + req.system.value + IM_END;
      }
      return;
    }
    out := IM_START + "system\n";
    if req.system.Some? {
      out := out + (req.system.value + "\n\n");
    }
    assert IM_START + "system\n" + "" == IM_START + "system\n";
    out := out + ToolsBefore();
    out := RenderTools(out, req.tools);
    out := out + ToolsAfter() + IM_END;
  }

  method RenderTools(start: string, tools: seq<string>) returns (out: string)
    ensures out == start + ToolLines(tools)
  {
    out := start;
    for i := 0 to |tools|
      invariant out + ToolLines(tools[i..]) == start + ToolLines(tools)
    {
      assert tools[i..][1..] == tools[i + 1..];
      assert out + ("\n" + tools[i] + ToolLines(tools[i + 1..])) == out + "\n" + tools[i] + ToolLines(tools[i + 1..]);
      out := out + "\n" + tools[i];
    }
    assert out + "" == out;
  }

  method RenderTurns(r: Renderer, head: string, turns: seq<Message>) returns (out: Option<string>)
    ensures out == match Turns(r, turns) { case None => None case Some(s) => Some(head + s) }
  {
    hide Turn;
    var text := head;
    ghost var s := "";
    assert head + "" == head;
    for i := 0 to |turns|
      invariant Turns(r, turns[..i]) == Some(s) && text == head + s
    {
      assert turns == turns[..i] + turns[i..] && turns[i..][0] == turns[i];
      TurnsAppend(r, turns[..i], turns[i..]);
      match Turn(r, turns[i])
      case None => return None;
      case Some(t) =>
        assert turns[..i + 1] == turns[..i] + [turns[i]];
        TurnsAppend(r, turns[..i], [turns[i]]);
        OneTurn(r, turns[i]);
        assert head + s + t == head + (s + t);
        text, s := text + t, s + t;
    }
    assert turns[..|turns|] == turns;
    return Some(text);
  }

  method RenderPrompt(r: Renderer, req: Request, cue: string) returns (prompt: Option<string>)
    ensures prompt == Prompt(r, req, cue)
  {
    hide Turns, Head, Parsing.TrimEnd;
    var out := RenderHead(req);
    var turned := RenderTurns(r, out, Complete(req.messages));
    if turned.None? {
      return None;
    }
    out := turned.value + cue;
    if IsPrefill(req.messages) {
      match r.assistant(req.messages[|req.messages| - 1].content)
      case None => return None;
      case Some(s) => out := out + Parsing.TrimEnd(s);
    }
    return Some(out);
  }

  lemma OneTurn(r: Renderer, m: Message)
    ensures Turns(r, [m]) == Turn(r, m)
  {
    assert [m][1..] == [];
    match Turn(r, m)
    case Some(t) => assert t + "" == t;
    case None =>
  }

  /** history_boundary: the token length of the prompt without its cue, 0 if it does not end in the cue. */
  function HistoryBoundary(tk: Tokenizer, prompt: string, cue: string): nat {
    if |cue| <= |prompt| && prompt[|prompt| - |cue|..] == cue then
      match Tokens(tk, prompt[..|prompt| - |cue|], true)
      case Failure(_) => 0
      case Success(ids) => |ids| % 0x1_0000_0000
    else 0
  }

  /** What a vocabulary must give: the turn opener is special, and no special token runs over a line end into "<". */
  predicate TurnsApart(tk: Tokenizer) {
    && IM_START in SpecialPatterns(tk)
    && forall k :: 0 <= k < |SpecialPatterns(tk)| ==> !Occurs(SpecialPatterns(tk)[k], "\n<")
  }

  predicate EndsLine(s: string) {
    s == "" || s[|s| - 1] == '\n'
  }

  lemma NoStraddleAtLine(tk: Tokenizer, history: string, rest: string)
    requires TurnsApart(tk) && EndsLine(history) && IM_START <= rest
    ensures NoStraddle(SpecialPatterns(tk), history, rest) && StartsSpecial(SpecialPatterns(tk), rest)
  {
    hide SpecialPatterns, Occurs;
    var pats := SpecialPatterns(tk);
    forall k, i: nat | 0 <= k < |pats| && i < |history| && i + |pats[k]| > |history|
      ensures !At(history + rest, pats[k], i)
    {
      var p, j := pats[k], |history| - i;
      NoLineEnd(p, j);
      if At(history + rest, p, i) {
        AtChar(history + rest, p, i, j - 1);
        AtChar(history + rest, p, i, j);
      }
    }
  }

  lemma NoLineEnd(p: string, j: nat)
    requires !Occurs(p, "\n<") && 0 < j < |p|
    ensures !(p[j - 1] == '\n' && p[j] == '<')
  {
    assert !At(p, "\n<", j - 1);
    assert p[j - 1..j - 1 + 2] == [p[j - 1], p[j]];
  }

  lemma {:induction false} TurnsShape(r: Renderer, ms: seq<Message>)
    requires Turns(r, ms).Some?
    ensures EndsLine(Turns(r, ms).value)
    ensures ms != [] ==> IM_START <= Turns(r, ms).value
  {
    if ms != [] {
      TurnsShape(r, ms[1..]);
      var a, b := Turn(r, ms[0]).value, Turns(r, ms[1..]).value;
      assert a[|a| - 1] == '\n';
      assert b == "" ==> a + b == a;
    }
  }

  lemma HeadShape(system: Option<string>, tools: seq<string>)
    ensures EndsLine(Head(system, tools))
  {
  }

  /** Any longer prompt of the same conversation is the history, and then text that opens a turn. */
  lemma PromptExtends(r: Renderer, a: Request, b: Request, cue: string)
    requires a.system == b.system && a.tools == b.tools && a.messages <= b.messages && !IsPrefill(a.messages)
    requires IM_START <= cue && Prompt(r, a, cue).Some? && Prompt(r, b, cue).Some?
    ensures Turns(r, a.messages).Some?
    ensures var history := Head(a.system, a.tools) + Turns(r, a.messages).value;
      && Prompt(r, a, cue) == Some(history + cue)
      && history <= Prompt(r, b, cue).value
      && IM_START <= Prompt(r, b, cue).value[|history|..]
  {
    hide Turn, Head, Turns;
    var history := Head(a.system, a.tools) + Turns(r, a.messages).value;
    var later := Complete(b.messages)[|a.messages|..];
    assert Complete(b.messages) == a.messages + later;
    TurnsAppend(r, a.messages, later);
    TurnsShape(r, later);
    NoTurns(r);
    var t := Turns(r, later).value;
    var tail := if IsPrefill(b.messages) then Parsing.TrimEnd(r.assistant(b.messages[|b.messages| - 1].content).value)
                else "";
    assert Prompt(r, b, cue).value == Head(b.system, b.tools) + (Turns(r, a.messages).value + t) + cue + tail;
    Rejoin(Head(a.system, a.tools), Turns(r, a.messages).value, t, cue, tail);
  }

  lemma NoTurns(r: Renderer)
    ensures Turns(r, []) == Some("")
  {
  }

  lemma Rejoin(head: string, turns: string, later: string, cue: string, tail: string)
    requires IM_START <= cue && (later == "" || IM_START <= later)
    ensures var whole := head + (turns + later) + cue + tail;
      head + turns <= whole && IM_START <= whole[|head + turns|..]
  {
    var whole := head + (turns + later) + cue + tail;
    assert whole == head + turns + (later + cue + tail);
    assert whole[|head + turns|..] == later + cue + tail;
    assert later == "" ==> later + cue + tail == cue + tail;
  }

  /** Turn N's history, as tokens, is a strict prefix of the prompt of every later turn of the same conversation:
      so the entry snapshotted at the boundary is one the prefix cache accepts. */
  lemma CrossTurnPrefix(tk: Tokenizer, r: Renderer, a: Request, b: Request, cue: string)
    requires TurnsApart(tk) && (cue == CUE_THINK || cue == CUE_PLAIN)
    requires a.system == b.system && a.tools == b.tools && a.messages <= b.messages && !IsPrefill(a.messages)
    requires Prompt(r, a, cue).Some? && Prompt(r, b, cue).Some?
    requires Tokens(tk, Prompt(r, a, cue).value, true).Success? && Tokens(tk, Prompt(r, b, cue).value, true).Success?
    requires |Tokens(tk, Prompt(r, a, cue).value, true).value| < 0x1_0000_0000
    ensures var h := HistoryBoundary(tk, Prompt(r, a, cue).value, cue);
      var now := Tokens(tk, Prompt(r, a, cue).value, true).value;
      var next := Tokens(tk, Prompt(r, b, cue).value, true).value;
      && h < |now| && h < |next| && now[..h] == next[..h]
      && Tokens(tk, Head(a.system, a.tools) + Turns(r, a.messages).value, true) == Success(now[..h])
  {
    hide Tokens, Head, Turns, TurnsApart, Prompt, HistoryBoundary, IsPrefill, EndsLine, SpecialPatterns;
    PromptExtends(r, a, b, cue);
    var history := Head(a.system, a.tools) + Turns(r, a.messages).value;
    HistoryEndsLine(r, a);
    var rest := Prompt(r, b, cue).value[|history|..];
    assert Prompt(r, b, cue).value == history + rest;
    HistoryCut(tk, history, cue);
    HistoryCut(tk, history, rest);
    BoundaryIs(tk, history, cue);
  }

  lemma BoundaryIs(tk: Tokenizer, history: string, cue: string)
    requires Tokens(tk, history, true).Success? && |Tokens(tk, history, true).value| < 0x1_0000_0000
    ensures HistoryBoundary(tk, history + cue, cue) == |Tokens(tk, history, true).value|
  {
    hide Tokens;
    var p := history + cue;
    assert p[|p| - |cue|..] == cue && p[..|p| - |cue|] == history;
  }

  lemma HistoryEndsLine(r: Renderer, a: Request)
    requires Turns(r, a.messages).Some?
    ensures EndsLine(Head(a.system, a.tools) + Turns(r, a.messages).value)
  {
    hide Head, Turns;
    HeadShape(a.system, a.tools);
    TurnsShape(r, a.messages);
    var h, t := Head(a.system, a.tools), Turns(r, a.messages).value;
    assert t == "" ==> h + t == h;
  }

  lemma HistoryCut(tk: Tokenizer, history: string, rest: string)
    requires TurnsApart(tk) && EndsLine(history) && IM_START <= rest && Tokens(tk, history + rest, true).Success?
    ensures var h := Tokens(tk, history, true);
      && h.Success? && h.value < Tokens(tk, history + rest, true).value
      && h.value == Tokens(tk, history + rest, true).value[..|h.value|]
  {
    hide TurnsApart, Tokens, SpecialPatterns, NoStraddle, StartsSpecial;
    NoStraddleAtLine(tk, history, rest);
    TokenizeCut(tk, history, rest);
    SpecialFirst(tk, rest);
  }

  /** Text that opens with a special token has at least that token. */
  lemma SpecialFirst(tk: Tokenizer, t: string)
    requires StartsSpecial(SpecialPatterns(tk), t) && Tokens(tk, t, true).Success?
    ensures Tokens(tk, t, true).value != []
  {
    hide SpecialIds, Patterns, Fragments, AllIds, FragmentIds, PlainText, StartsSpecial, LongestAt;
    var specials, pats := SpecialIds(tk, true, |tk.tokens|), SpecialPatterns(tk);
    SpecialAtStart(pats, t);
    var m := NextMatch(pats, t, 0).value;
    assert At(t, pats[m.pattern], 0);
    var behind := t[0 + |pats[m.pattern]|..];
    FragmentsAt(pats, t, m, t[..0], behind);
    MatchIds(tk, specials, pats, [], t[..0], m.pattern, Fragments(pats, behind));
    JoinEmpty(AllIds(tk, specials, Fragments(pats, t)));
  }

  /** What turn N leaves in a cache at its boundary, or up to fifteen tokens before it where the last tokens were
      not batched, is reusable by every later turn as soon as it is long enough, on either engine. */
  lemma CrossTurnReuse(tk: Tokenizer, r: Renderer, a: Request, b: Request, cue: string, e: Slots.CacheEntry)
    requires TurnsApart(tk) && (cue == CUE_THINK || cue == CUE_PLAIN)
    requires a.system == b.system && a.tools == b.tools && a.messages <= b.messages && !IsPrefill(a.messages)
    requires Prompt(r, a, cue).Some? && Prompt(r, b, cue).Some?
    requires Tokens(tk, Prompt(r, a, cue).value, true).Success? && Tokens(tk, Prompt(r, b, cue).value, true).Success?
    requires |Tokens(tk, Prompt(r, a, cue).value, true).value| < 0x1_0000_0000
    requires e.valid && e.tokens <= Tokens(tk, Prompt(r, a, cue).value, true).value
    requires |e.tokens| <= HistoryBoundary(tk, Prompt(r, a, cue).value, cue)
    ensures var next := Tokens(tk, Prompt(r, b, cue).value, true).value;
      && (Slots.Reusable(e, next) <==> |e.tokens| > 8)
      && (SplitTables.Restorable(Some(SplitSlots.Entry(e.tokens, e.lru)), next) <==> |e.tokens| >= 8)
  {
    hide Tokens, Prompt, HistoryBoundary, TurnsApart;
    CrossTurnPrefix(tk, r, a, b, cue);
    var h := HistoryBoundary(tk, Prompt(r, a, cue).value, cue);
    var now, next := Tokens(tk, Prompt(r, a, cue).value, true).value, Tokens(tk, Prompt(r, b, cue).value, true).value;
    PrefixKept(e.tokens, now, next, h);
  }

  /** The next turn on the single box. Turn N was started with its history boundary; its start kept a snapshot of
      the first `kept` tokens, fewer than sixteen before the boundary. As long as that entry is in the cache `es`,
      whatever else is, a later turn resumes at least there. */
  lemma NextTurnResumes(tk: Tokenizer, r: Renderer, a: Request, b: Request, cue: string,
                        es: seq<Slots.CacheEntry>, i: nat, kept: nat, start: nat)
    requires TurnsApart(tk) && (cue == CUE_THINK || cue == CUE_PLAIN)
    requires a.system == b.system && a.tools == b.tools && a.messages <= b.messages && !IsPrefill(a.messages)
    requires Prompt(r, a, cue).Some? && Prompt(r, b, cue).Some?
    requires Tokens(tk, Prompt(r, a, cue).value, true).Success? && Tokens(tk, Prompt(r, b, cue).value, true).Success?
    requires |Tokens(tk, Prompt(r, a, cue).value, true).value| < 0x1_0000_0000
    requires var boundary := HistoryBoundary(tk, Prompt(r, a, cue).value, cue);
      boundary < kept + 16 && 8 < kept <= boundary && kept <= |Tokens(tk, Prompt(r, a, cue).value, true).value|
    requires i < |es| && es[i].valid && es[i].tokens == Tokens(tk, Prompt(r, a, cue).value, true).value[..kept]
    requires Slots.IsReuse(es, Tokens(tk, Prompt(r, b, cue).value, true).value, start)
    ensures start >= kept && start + 16 > HistoryBoundary(tk, Prompt(r, a, cue).value, cue)
  {
    hide Tokens, Prompt, HistoryBoundary, TurnsApart;
    CrossTurnReuse(tk, r, a, b, cue, es[i]);
  }

  /** The same from one start to the next. When turn N starts, the newest entry of a cache of |es0| entries is its
      boundary snapshot; if the cache is used fewer than |es0| times (snapshots and restores) before a later turn
      starts, that turn resumes at least there. */
  lemma NextTurnHits(tk: Tokenizer, r: Renderer, a: Request, b: Request, cue: string, es0: seq<Slots.CacheEntry>,
                     clock0: nat, es1: seq<Slots.CacheEntry>, clock1: nat, kept: nat, start: nat)
    requires TurnsApart(tk) && (cue == CUE_THINK || cue == CUE_PLAIN)
    requires a.system == b.system && a.tools == b.tools && a.messages <= b.messages && !IsPrefill(a.messages)
    requires Prompt(r, a, cue).Some? && Prompt(r, b, cue).Some?
    requires Tokens(tk, Prompt(r, a, cue).value, true).Success? && Tokens(tk, Prompt(r, b, cue).value, true).Success?
    requires |Tokens(tk, Prompt(r, a, cue).value, true).value| < 0x1_0000_0000
    requires var boundary := HistoryBoundary(tk, Prompt(r, a, cue).value, cue);
      boundary < kept + 16 && 8 < kept <= boundary && kept <= |Tokens(tk, Prompt(r, a, cue).value, true).value|
    requires Slots.Newest(es0, clock0, Tokens(tk, Prompt(r, a, cue).value, true).value[..kept])
    requires CacheAges.Kept(es0, clock0, es1, clock1) && clock1 < clock0 + |es0|
    requires Slots.IsReuse(es1, Tokens(tk, Prompt(r, b, cue).value, true).value, start)
    ensures start >= kept && start + 16 > HistoryBoundary(tk, Prompt(r, a, cue).value, cue)
  {
    hide *;
    var key := Tokens(tk, Prompt(r, a, cue).value, true).value[..kept];
    CacheAges.NewestStays(es0, clock0, es1, clock1, key);
    var i :| 0 <= i < |es1| && es1[i].valid && es1[i].tokens == key;
    NextTurnResumes(tk, r, a, b, cue, es1, i, kept, start);
  }

  lemma PrefixKept(t: seq<Token>, now: seq<Token>, next: seq<Token>, h: nat)
    requires |t| <= h < |now| && h < |next| && now[..h] == next[..h] && t <= now
    ensures t <= next && |t| < |next|
  {
    forall i | 0 <= i < |t| ensures t[i] == next[i] {
      assert t[i] == now[i] == now[..h][i] == next[..h][i];
    }
  }
}
