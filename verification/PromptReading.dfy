/** Reading a rendered prompt back: whose turn it is, and what was said (anthropic.rs). */
module PromptReading {
  import opened Common
  import opened Strings
  import opened ChatPrompts
  import Parsing

  /** A finished turn, as a model sees it. */
  datatype Seen = Seen(role: string, body: string)

  /** The finished turns of a prompt, and what stands open at its end. */
  datatype Transcript = Transcript(turns: seq<Seen>, open: string)

  /** A turn runs from "<|im_start|>" to "<|im_end|>" and a line end; its first line is the role. */
  function FirstTurn(s: string): (r: Option<(Seen, string)>)
    ensures r.Some? ==> |r.value.1| < |s|
  {
    if !("<|im_start|>" <= s) then None
    else
      match Find(s[12..], "<|im_end|>")
      case None => None
      case Some(e) =>
        var turn := s[12..12 + e];
        var later := if 12 + e + 11 <= |s| then s[12 + e + 11..] else "";
        match Find(turn, "\n")
        case None => Some((Seen(turn, ""), later))
        case Some(n) => Some((Seen(turn[..n], turn[n + 1..]), later))
  }

  /** The complete turns, and what is left open behind them. */
  function ReadPrompt(s: string): Transcript
    decreases |s|
  {
    match FirstTurn(s)
    case None => Transcript([], s)
    case Some((turn, rest)) =>
      var later := ReadPrompt(rest);
      Transcript([turn] + later.turns, later.open)
  }

  function Lines(s: string): seq<string>
    decreases |s|
  {
    match Find(s, "\n")
    case None => [s]
    case Some(n) => [s[..n]] + Lines(s[n + 1..])
  }

  /** The system text and the tools that a system turn tells of. */
  function ReadSystem(body: string): (Option<string>, seq<string>) {
    match Find(body, "# Tools")
    case None => (Some(body), [])
    case Some(p) =>
      var lines := Lines(body[p..]);
      (if p < 2 then None else Some(body[..p - 2]),
       if |lines| < 12 then [] else lines[6..|lines| - 6])
  }

  /** What is said in a turn; nothing for a role that is not supported. */
  function Rendered(r: Renderer, m: Message): Option<string> {
    match m.role
    case "user" => r.user(m.content)
    case "system" => r.user(m.content)
    case "assistant" => r.assistant(m.content)
    case _ => None
  }

  /** How many messages are complete turns: a last one of the assistant is the start of the answer asked for. */
  function TurnCount(req: Request): nat {
    var n := |req.messages|;
    if n > 0 && req.messages[n - 1].role == "assistant" then n - 1 else n
  }

  predicate Unmarked(s: string) {
    !Occurs(s, "<|im_end|>")
  }

  /** Nothing that is written into the prompt ends a turn, and the tools can be told from the system text. */
  ghost predicate Legible(r: Renderer, req: Request) {
    && (req.system.Some? ==> Unmarked(req.system.value) && !Occurs(req.system.value, "# Tools"))
    && (forall i :: 0 <= i < |req.tools| ==> Unmarked(req.tools[i]) && OneLine(req.tools[i]))
    && forall i :: 0 <= i < |req.messages| && Rendered(r, req.messages[i]).Some? ==>
         Unmarked(Rendered(r, req.messages[i]).value)
  }

  predicate OneLine(s: string) {
    forall i :: 0 <= i < |s| ==> s[i] != '\n'
  }

  // ---- one turn ----

  lemma OneLineFree(line: string)
    requires OneLine(line)
    ensures !Occurs(line, "\n")
  {
    forall i | 0 <= i <= |line| ensures !At(line, "\n", i) {
      if At(line, "\n", i) {
        AtChar(line, "\n", i, 0);
      }
    }
  }

  lemma LineIsFound(line: string, rest: string)
    requires OneLine(line)
    ensures Find(line + "\n" + rest, "\n") == Some(|line|)
  {
    OneLineFree(line);
    FindBehind(line, "\n", rest);
  }

  /** Text put behind a line end, or before one, ends no turn that neither half ends. */
  lemma SeamUnmarked(a: string, b: string)
    requires Unmarked(a) && Unmarked(b) && (a == "" || b == "" || a[|a| - 1] == '\n' || b[0] == '\n')
    ensures Unmarked(a + b)
  {
    var p, t := "<|im_end|>", a + b;
    assert !Occurs(a, p) && !Occurs(b, p);
    forall i | 0 <= i <= |t| ensures !At(t, p, i) {
      if At(t, p, i) {
        if i + |p| <= |a| {
          AtPrefix(a, b, p, i);
        } else if i >= |a| {
          AtShift(a, b, p, i - |a|);
        } else {
          AtChar(t, p, i, |a| - 1 - i);
          AtChar(t, p, i, |a| - i);
        }
      }
    }
  }

  lemma NoBarUnmarked(s: string)
    requires forall i :: 0 <= i < |s| ==> s[i] != '|'
    ensures Unmarked(s)
  {
    forall i | 0 <= i <= |s| ensures !At(s, "<|im_end|>", i) {
      if At(s, "<|im_end|>", i) {
        AtChar(s, "<|im_end|>", i, 1);
      }
    }
  }

  predicate Known(role: string) {
    role == "user" || role == "system" || role == "assistant"
  }

  lemma TurnRead(role: string, body: string, rest: string)
    requires Known(role) && Unmarked(body)
    ensures var s := "<|im_start|>" + role + "\n" + body + "<|im_end|>\n" + rest;
      ReadPrompt(s) == Transcript([Seen(role, body)] + ReadPrompt(rest).turns, ReadPrompt(rest).open)
  {
    hide FirstTurn, Find, Known, Unmarked, OneLine;
    var turn := role + "\n" + body;
    RoleUnmarked(role);
    SeamUnmarked(role + "\n", body);
    LineIsFound(role, body);
    TurnFound(turn, rest);
    assert "<|im_start|>" + role + "\n" + body + "<|im_end|>\n" + rest == "<|im_start|>" + turn + "<|im_end|>\n" + rest;
    assert turn[..|role|] == role && turn[|role| + 1..] == body;
  }

  lemma RoleUnmarked(role: string)
    requires Known(role)
    ensures Unmarked(role + "\n") && OneLine(role)
  {
    hide Unmarked;
    NoBarUnmarked(role + "\n");
  }

  lemma TurnFound(turn: string, rest: string)
    requires Unmarked(turn) && Find(turn, "\n").Some?
    ensures var s, n := "<|im_start|>" + turn + "<|im_end|>\n" + rest, Find(turn, "\n").value;
      n < |turn| && FirstTurn(s) == Some((Seen(turn[..n], turn[n + 1..]), rest))
  {
    hide Find, Occurs, FirstTurn;
    var s := "<|im_start|>" + turn + "<|im_end|>\n" + rest;
    FindBehind(turn, "<|im_end|>", "\n" + rest);
    assert s[12..] == turn + "<|im_end|>" + ("\n" + rest);
    assert s[12..12 + |turn|] == turn && s[12 + |turn| + 11..] == rest;
    TurnUnfolds(s, turn, rest);
  }

  lemma TurnUnfolds(s: string, turn: string, rest: string)
    requires "<|im_start|>" <= s && Find(s[12..], "<|im_end|>") == Some(|turn|) && |s| == |turn| + |rest| + 23
    requires s[12..12 + |turn|] == turn && s[12 + |turn| + 11..] == rest && Find(turn, "\n").Some?
    ensures var n := Find(turn, "\n").value;
      n < |turn| && FirstTurn(s) == Some((Seen(turn[..n], turn[n + 1..]), rest))
  {
    hide Find, Occurs;
  }

  lemma OpenRead(s: string)
    requires "<|im_start|>" <= s && Unmarked(s[12..])
    ensures ReadPrompt(s) == Transcript([], s)
  {
    hide Occurs;
  }

  // ---- the turns of the conversation ----

  predicate ReadsAs(r: Renderer, m: Message, t: Seen) {
    t.role == m.role && Known(m.role) && Rendered(r, m) == Some(t.body)
  }

  lemma TurnIs(r: Renderer, m: Message)
    ensures Turn(r, m).Some? <==> Rendered(r, m).Some?
    ensures Turn(r, m).Some? ==>
      Known(m.role) && Turn(r, m).value == "<|im_start|>" + m.role + "\n" + Rendered(r, m).value + "<|im_end|>\n"
  {
  }

  lemma {:induction false} TurnsRead(r: Renderer, ms: seq<Message>, rest: string) returns (ts: seq<Seen>)
    requires Turns(r, ms).Some?
    requires forall i :: 0 <= i < |ms| && Rendered(r, ms[i]).Some? ==> Unmarked(Rendered(r, ms[i]).value)
    ensures |ts| == |ms| && forall i :: 0 <= i < |ms| ==> ReadsAs(r, ms[i], ts[i])
    ensures ReadPrompt(Turns(r, ms).value + rest) == Transcript(ts + ReadPrompt(rest).turns, ReadPrompt(rest).open)
  {
    hide Turn, ReadPrompt, Rendered, Unmarked;
    if ms == [] {
      ts := [];
      assert "" + rest == rest && [] + ReadPrompt(rest).turns == ReadPrompt(rest).turns;
    } else {
      var more := TurnsRead(r, ms[1..], rest);
      TurnIs(r, ms[0]);
      var body, later := Rendered(r, ms[0]).value, Turns(r, ms[1..]).value + rest;
      TurnRead(ms[0].role, body, later);
      ts := [Seen(ms[0].role, body)] + more;
      assert Turns(r, ms).value + rest == Turn(r, ms[0]).value + later;
      assert ts + ReadPrompt(rest).turns == [Seen(ms[0].role, body)] + (more + ReadPrompt(rest).turns);
    }
  }

  /** A prompt is refused exactly when some role is not supported or some content cannot be rendered. */
  lemma {:induction false} TurnsRefused(r: Renderer, ms: seq<Message>)
    ensures Turns(r, ms).None? <==> exists i :: 0 <= i < |ms| && Rendered(r, ms[i]).None?
  {
    hide Turn, Rendered;
    if ms != [] {
      TurnsRefused(r, ms[1..]);
      TurnIs(r, ms[0]);
      if i :| 0 <= i < |ms| && Rendered(r, ms[i]).None? {
        assert i > 0 ==> ms[1..][i - 1] == ms[i];
      }
      if i :| 0 <= i < |ms[1..]| && Rendered(r, ms[1..][i]).None? {
        assert ms[i + 1] == ms[1..][i];
      }
    }
  }

  lemma CompleteTurns(req: Request)
    ensures TurnCount(req) <= |req.messages| && Complete(req.messages) == req.messages[..TurnCount(req)]
    ensures IsPrefill(req.messages) <==> TurnCount(req) < |req.messages|
    ensures TurnCount(req) < |req.messages| ==>
      TurnCount(req) == |req.messages| - 1 && req.messages[|req.messages| - 1].role == "assistant"
  {
    assert req.messages[..|req.messages|] == req.messages;
  }

  lemma RefusedIff(r: Renderer, req: Request, cue: string)
    ensures Prompt(r, req, cue).None? <==> exists i :: 0 <= i < |req.messages| && Rendered(r, req.messages[i]).None?
  {
    hide Turns, Head, Parsing.TrimEnd;
    var n := TurnCount(req);
    CompleteTurns(req);
    TurnsRefused(r, req.messages[..n]);
    if i :| 0 <= i < |req.messages| && Rendered(r, req.messages[i]).None? {
      assert i < n ==> req.messages[..n][i] == req.messages[i];
    }
    if i :| 0 <= i < |req.messages[..n]| && Rendered(r, req.messages[..n][i]).None? {
      assert req.messages[..n][i] == req.messages[i];
    }
  }

  // ---- the system turn ----

  lemma LineRead(line: string, rest: string)
    requires OneLine(line)
    ensures Lines(line + "\n" + rest) == [line] + Lines(rest)
  {
    hide Find;
    var s := line + "\n" + rest;
    LineIsFound(line, rest);
    assert s[..|line|] == line && s[|line| + 1..] == rest;
  }

  lemma LastLine(line: string)
    requires OneLine(line)
    ensures Lines(line) == [line]
  {
    OneLineFree(line);
  }

  lemma {:induction false} ToolsRead(first: string, tools: seq<string>, rest: string)
    requires OneLine(first) && forall i :: 0 <= i < |tools| ==> OneLine(tools[i])
    ensures Lines(first + ToolLines(tools) + "\n" + rest) == [first] + tools + Lines(rest)
    decreases |tools|
  {
    hide Lines, OneLine;
    if tools == [] {
      assert first + "" + "\n" + rest == first + "\n" + rest && [first] + tools == [first];
      LineRead(first, rest);
    } else {
      var later := tools[0] + ToolLines(tools[1..]) + "\n" + rest;
      assert first + ToolLines(tools) + "\n" + rest == first + "\n" + later;
      LineRead(first, later);
      ToolsRead(tools[0], tools[1..], rest);
      assert tools == [tools[0]] + tools[1..];
    }
  }

  lemma {:induction false} ToolLinesUnmarked(tools: seq<string>)
    requires forall i :: 0 <= i < |tools| ==> Unmarked(tools[i])
    ensures Unmarked(ToolLines(tools)) && (if tools == [] then ToolLines(tools) == "" else ToolLines(tools)[0] == '\n')
  {
    hide Unmarked;
    if tools == [] {
      NoBarUnmarked("");
    } else {
      ToolLinesUnmarked(tools[1..]);
      NoBarUnmarked("\n");
      SeamUnmarked("\n", tools[0]);
      SeamUnmarked("\n" + tools[0], ToolLines(tools[1..]));
    }
  }

  predicate Plain(s: string) {
    forall i :: 0 <= i < |s| ==> s[i] != '\n' && s[i] != '|'
  }

  lemma PlainSum(a: string, b: string)
    requires Plain(a) && Plain(b)
    ensures Plain(a + b)
  {
  }

  lemma PlainLine(s: string)
    requires Plain(s)
    ensures OneLine(s) && Unmarked(s)
  {
    NoBarUnmarked(s);
  }

  lemma PlainPieces()
    ensures Plain(MayCall()) && Plain(Provided())
  {
    hide Plain;
    var a, b, c := "You may call one or more ", "functions to assist with ", "the user query.";
    var d, e, f := "You are provided with ", "function signatures within ", "<tools></tools> XML tags:";
    assert Plain(a) && Plain(b) && Plain(c) by {
      Pieces1();
    }
    PlainSum(a, b);
    PlainSum(a + b, c);
    assert Plain(d) && Plain(e) && Plain(f) by {
      Pieces2();
    }
    PlainSum(d, e);
    PlainSum(d + e, f);
  }

  lemma Pieces1()
    ensures Plain("You may call one or more ") && Plain("functions to assist with ") && Plain("the user query.")
  {
  }

  lemma Pieces2()
    ensures Plain("You are provided with ") && Plain("function signatures within ")
    ensures Plain("<tools></tools> XML tags:")
  {
  }

  lemma Pieces3()
    ensures Plain("For each function call, ") && Plain("return a json object with ")
    ensures Plain("function name and arguments ") && Plain("within ")
  {
  }

  lemma Pieces4()
    ensures Plain("<tool_call></tool_call>") && Plain(" XML tags:")
    ensures Plain("{\"name\": <function-name>, ") && Plain("\"arguments\": <args-json-object>}")
  {
  }

  lemma MorePieces()
    ensures Plain(Returns()) && Plain(CallShape())
  {
    hide Plain;
    Pieces3();
    Pieces4();
    var a, b, c := "For each function call, ", "return a json object with ", "function name and arguments ";
    PlainSum(a, b);
    PlainSum(a + b, c);
    PlainSum(a + b + c, "within ");
    PlainSum(a + b + c + "within ", "<tool_call></tool_call>");
    PlainSum(a + b + c + "within " + "<tool_call></tool_call>", " XML tags:");
    PlainSum("{\"name\": <function-name>, ", "\"arguments\": <args-json-object>}");
  }

  /** Lines, each ended, and what follows them. */
  function Joined(lines: seq<string>, rest: string): string {
    if lines == [] then rest else lines[0] + "\n" + Joined(lines[1..], rest)
  }

  lemma FiveJoined(a: string, b: string, c: string, d: string, e: string, rest: string)
    ensures Joined([a, b, c, d, e], rest) == a + "\n" + b + "\n" + c + "\n" + d + "\n" + e + "\n" + rest
  {
    var none: seq<string> := [];
    assert [a, b, c, d, e][1..] == [b, c, d, e] && [b, c, d, e][1..] == [c, d, e];
    assert [c, d, e][1..] == [d, e] && [d, e][1..] == [e] && [e][1..] == none;
    assert Joined([e], rest) == e + "\n" + rest;
    assert Joined([d, e], rest) == d + "\n" + Joined([e], rest);
    assert Joined([c, d, e], rest) == c + "\n" + Joined([d, e], rest);
    assert Joined([b, c, d, e], rest) == b + "\n" + Joined([c, d, e], rest);
  }

  predicate Simple(line: string) {
    OneLine(line) && Unmarked(line)
  }

  lemma {:induction false} JoinedRead(lines: seq<string>, rest: string)
    requires forall i :: 0 <= i < |lines| ==> Simple(lines[i])
    ensures Lines(Joined(lines, rest)) == lines + Lines(rest)
    ensures Unmarked(rest) ==> Unmarked(Joined(lines, rest))
  {
    hide OneLine, Unmarked, Lines;
    if lines == [] {
      assert lines + Lines(rest) == Lines(rest);
    } else {
      assert Simple(lines[0]);
      JoinedRead(lines[1..], rest);
      LineRead(lines[0], Joined(lines[1..], rest));
      if Unmarked(rest) {
        TextUnmarked(lines[0], Joined(lines[1..], rest));
      }
      assert lines == [lines[0]] + lines[1..];
    }
  }

  lemma TextUnmarked(line: string, rest: string)
    requires Unmarked(line) && Unmarked(rest)
    ensures Unmarked(line + "\n" + rest)
  {
    hide Unmarked;
    NoBarUnmarked("\n");
    SeamUnmarked(line, "\n");
    SeamUnmarked(line + "\n", rest);
  }

  function Before(): seq<string> { ["# Tools", "", MayCall(), "", Provided()] }

  function After(): seq<string> { ["</tools>", "", Returns(), "<tool_call>", CallShape()] }

  lemma ProseSimple()
    ensures forall i :: 0 <= i < 5 ==> Simple(Before()[i]) && Simple(After()[i])
    ensures Simple("<tools>") && Simple("</tool_call>")
  {
    hide Plain, OneLine, Unmarked, MayCall, Provided, Returns, CallShape;
    PlainPieces();
    MorePieces();
    ShortPieces();
    PlainLine("");
    PlainLine("# Tools");
    PlainLine(MayCall());
    PlainLine(Provided());
    PlainLine("<tools>");
    PlainLine("</tools>");
    PlainLine(Returns());
    PlainLine("<tool_call>");
    PlainLine(CallShape());
    PlainLine("</tool_call>");
  }

  lemma ShortPieces()
    ensures Plain("") && Plain("# Tools") && Plain("<tools>") && Plain("</tools>")
    ensures Plain("<tool_call>") && Plain("</tool_call>")
  {
  }

  /** The part of a system turn that tells of the tools. */
  function ToolsText(tools: seq<string>): string {
    ToolsBefore() + ToolLines(tools) + ToolsAfter()
  }

  lemma ToolsTextIs(tools: seq<string>)
    ensures ToolsText(tools) == Joined(Before(), "<tools>" + ToolLines(tools) + "\n" + Joined(After(), "</tool_call>"))
    ensures "# Tools" <= ToolsText(tools)
  {
    hide MayCall, Provided, Returns, CallShape, ToolLines;
    var after := Joined(After(), "</tool_call>");
    FiveJoined("</tools>", "", Returns(), "<tool_call>", CallShape(), "</tool_call>");
    assert ToolsAfter() == "\n" + after;
    var rest := "<tools>" + ToolLines(tools) + "\n" + after;
    FiveJoined("# Tools", "", MayCall(), "", Provided(), rest);
    BeforeIs(ToolLines(tools), after);
  }

  lemma BeforeIs(mid: string, after: string)
    ensures ToolsBefore() + mid + ("\n" + after)
         == "# Tools" + "\n" + "" + "\n" + MayCall() + "\n" + "" + "\n" + Provided() + "\n"
            + ("<tools>" + mid + "\n" + after)
  {
    hide MayCall, Provided;
  }

  lemma ToolsPart(tools: seq<string>)
    requires forall i :: 0 <= i < |tools| ==> Unmarked(tools[i]) && OneLine(tools[i])
    ensures Unmarked(ToolsText(tools)) && "# Tools" <= ToolsText(tools)
    ensures Lines(ToolsText(tools)) == Before() + ["<tools>"] + tools + After() + ["</tool_call>"]
  {
    hide Lines, OneLine, Unmarked, ToolsText, ToolLines, Joined, Before, After;
    ToolsTextIs(tools);
    ProseSimple();
    FiveLines();
    var after := Joined(After(), "</tool_call>");
    LastLine("</tool_call>");
    JoinedRead(After(), "</tool_call>");
    ToolsRead("<tools>", tools, after);
    var rest := "<tools>" + ToolLines(tools) + "\n" + after;
    ToolLinesUnmarked(tools);
    SeamUnmarked("<tools>", ToolLines(tools));
    TextUnmarked("<tools>" + ToolLines(tools), after);
    JoinedRead(Before(), rest);
    assert Before() + (["<tools>"] + tools + (After() + ["</tool_call>"]))
        == Before() + ["<tools>"] + tools + After() + ["</tool_call>"];
  }

  lemma FiveLines()
    ensures |Before()| == |After()| == 5
  {
  }

  lemma SystemRead(pre: string, tools: seq<string>)
    requires !Occurs(pre, "# Tools")
    requires forall i :: 0 <= i < |tools| ==> Unmarked(tools[i]) && OneLine(tools[i])
    ensures ReadSystem(pre + ToolsText(tools)) == (if |pre| < 2 then None else Some(pre[..|pre| - 2]), tools)
  {
    hide Lines, OneLine, Unmarked, Find, Occurs, ToolsText, Before, After;
    ToolsPart(tools);
    FiveLines();
    var text := ToolsText(tools);
    var body := pre + text;
    assert text == "# Tools" + text[7..];
    assert body == pre + "# Tools" + text[7..];
    FindBehind(pre, "# Tools", text[7..]);
    assert body[|pre|..] == text;
    var lines := Before() + ["<tools>"] + tools + After() + ["</tool_call>"];
    assert lines[6..|lines| - 6] == tools;
    if |pre| >= 2 {
      assert body[..|pre| - 2] == pre[..|pre| - 2];
    }
  }

  lemma BlankBefore(s: string)
    requires !Occurs(s, "# Tools")
    ensures !Occurs(s + "\n\n", "# Tools")
  {
    var p, t := "# Tools", s + "\n\n";
    forall i | 0 <= i <= |t| ensures !At(t, p, i) {
      if At(t, p, i) {
        if i + |p| <= |s| {
          AtPrefix(s, "\n\n", p, i);
        } else {
          AtChar(t, p, i, |p| - 1);
        }
      }
    }
  }

  predicate HasSystem(req: Request) {
    req.system.Some? || req.tools != []
  }

  lemma HeadIs(system: Option<string>, tools: seq<string>, rest: string)
    ensures tools == [] && system.Some? ==>
      Head(system, tools) + rest == "<|im_start|>" + "system" + "\n" + system.value + "<|im_end|>\n" + rest
    ensures tools != [] ==>
      Head(system, tools) + rest
      == "<|im_start|>" + "system" + "\n" + ((if system.None? then "" else system.value + "\n\n") + ToolsText(tools))
         + "<|im_end|>\n" + rest
    ensures tools == [] && system.None? ==> Head(system, tools) == ""
  {
    hide ToolsBefore, ToolsAfter, ToolLines;
    if tools != [] {
      Regroup(if system.None? then "" else system.value + "\n\n", ToolsBefore(), ToolLines(tools), ToolsAfter(), rest);
    }
  }

  lemma Regroup(a: string, b: string, c: string, e: string, rest: string)
    ensures "<|im_start|>" + "system\n" + a + b + c + e + "<|im_end|>\n" + rest
         == "<|im_start|>" + "system" + "\n" + (a + (b + c + e)) + "<|im_end|>\n" + rest
  {
    assert "system" + "\n" == "system\n";
    assert "<|im_start|>" + "system" + "\n" == "<|im_start|>" + "system\n";
    var open := "<|im_start|>" + "system\n";
    assert open + a + b + c + e == open + (a + (b + c + e));
  }

  lemma SystemBody(system: Option<string>, tools: seq<string>) returns (body: string)
    requires tools != []
    requires system.Some? ==> Unmarked(system.value) && !Occurs(system.value, "# Tools")
    requires forall i :: 0 <= i < |tools| ==> Unmarked(tools[i]) && OneLine(tools[i])
    ensures body == (if system.None? then "" else system.value + "\n\n") + ToolsText(tools)
    ensures Unmarked(body) && ReadSystem(body) == (system, tools)
  {
    hide Unmarked, OneLine, Occurs, ToolsText, ReadSystem;
    var pre := if system.None? then "" else system.value + "\n\n";
    ToolsPart(tools);
    NothingOccurs();
    NoBarUnmarked("");
    if system.Some? {
      BlankBefore(system.value);
      BlankUnmarked(system.value);
      assert pre[..|pre| - 2] == system.value;
    }
    SystemRead(pre, tools);
    SeamUnmarked(pre, ToolsText(tools));
    body := pre + ToolsText(tools);
  }

  /** The system turn is there exactly when there is something to say in it, and says it. */
  lemma HeadRead(req: Request, rest: string) returns (body: string)
    requires req.system.Some? ==> Unmarked(req.system.value) && !Occurs(req.system.value, "# Tools")
    requires forall i :: 0 <= i < |req.tools| ==> Unmarked(req.tools[i]) && OneLine(req.tools[i])
    ensures HasSystem(req) ==>
      && ReadSystem(body) == (req.system, req.tools)
      && ReadPrompt(Head(req.system, req.tools) + rest)
         == Transcript([Seen("system", body)] + ReadPrompt(rest).turns, ReadPrompt(rest).open)
    ensures !HasSystem(req) ==> Head(req.system, req.tools) == ""
  {
    hide Unmarked, OneLine, ReadPrompt, Occurs, ToolsText, ReadSystem, Head;
    HeadIs(req.system, req.tools, rest);
    body := "";
    if req.tools != [] {
      body := SystemBody(req.system, req.tools);
      TurnRead("system", body, rest);
    } else if req.system.Some? {
      body := req.system.value;
      TurnRead("system", body, rest);
      TextOnly(body);
    }
  }

  lemma NothingOccurs()
    ensures !Occurs("", "# Tools")
  {
  }

  lemma BlankUnmarked(s: string)
    requires Unmarked(s)
    ensures Unmarked(s + "\n\n")
  {
    NoBarUnmarked("\n\n");
    SeamUnmarked(s, "\n\n");
  }

  lemma TextOnly(s: string)
    requires !Occurs(s, "# Tools")
    ensures ReadSystem(s) == (Some(s), [])
  {
  }

  // ---- the whole prompt ----

  /** What an answer begins with: an empty thought, if thinking is switched off. */
  predicate IsCue(cue: string) {
    cue == "<|im_start|>assistant\n" || cue == "<|im_start|>assistant\n" + "<think>\n\n</think>\n\n"
  }

  /** The cue, and the start of the answer behind it. */
  lemma CueRead(cue: string, start: string)
    requires IsCue(cue)
    requires Unmarked(start)
    ensures ReadPrompt(cue + start) == Transcript([], cue + start)
  {
    hide Unmarked, ReadPrompt, IsCue;
    var line := CueLine(cue);
    SeamUnmarked(line, start);
    assert (cue + start)[12..] == line + start;
    OpenRead(cue + start);
  }

  lemma CueLine(cue: string) returns (line: string)
    requires IsCue(cue)
    ensures "<|im_start|>" <= cue && line == cue[12..] && Unmarked(line) && line != "" && line[|line| - 1] == '\n'
  {
    hide Unmarked;
    var mark, rest := "<|im_start|>", "<think>\n\n</think>\n\n";
    line := "assistant\n";
    NoBarUnmarked(line);
    if cue != "<|im_start|>assistant\n" {
      NoBarUnmarked(rest);
      SeamUnmarked(line, rest);
      line := line + rest;
    }
    assert cue == mark + line;
  }

  lemma {:induction false} TrimmedUnmarked(s: string)
    requires Unmarked(s)
    ensures Unmarked(Parsing.TrimEnd(s))
  {
    if s != "" && Parsing.IsWhite(s[|s| - 1]) {
      var t := s[..|s| - 1];
      assert s == t + s[|s| - 1..];
      forall i | 0 <= i <= |t| ensures !At(t, "<|im_end|>", i) {
        if At(t, "<|im_end|>", i) {
          AtPrefix(t, s[|s| - 1..], "<|im_end|>", i);
        }
      }
      TrimmedUnmarked(t);
    }
  }

  /** The start of the answer that the request gives itself. */
  function Opening(r: Renderer, req: Request): Option<string> {
    if TurnCount(req) == |req.messages| then Some("")
    else match r.assistant(req.messages[|req.messages| - 1].content)
      case None => None
      case Some(s) => Some(Parsing.TrimEnd(s))
  }

  lemma PromptIs(r: Renderer, req: Request, cue: string)
    requires Prompt(r, req, cue).Some?
    ensures Turns(r, req.messages[..TurnCount(req)]).Some? && Opening(r, req).Some?
    ensures Prompt(r, req, cue).value == Head(req.system, req.tools)
      + (Turns(r, req.messages[..TurnCount(req)]).value + (cue + Opening(r, req).value))
  {
    hide Turns, Head, Parsing.TrimEnd;
    CompleteTurns(req);
    assert cue + "" == cue;
  }

  /** Reading back gives the system turn (its text, and every tool in order), every complete message under its own
      role with its own content, in order, and then the cue with the trimmed start of the answer. */
  lemma PromptReadsBack(r: Renderer, req: Request, cue: string)
    requires IsCue(cue)
    requires Prompt(r, req, cue).Some? && Legible(r, req)
    ensures var t, first := ReadPrompt(Prompt(r, req, cue).value), if HasSystem(req) then 1 else 0;
      && |t.turns| == first + TurnCount(req)
      && (HasSystem(req) ==>
            t.turns[0].role == "system" && ReadSystem(t.turns[0].body) == (req.system, req.tools))
      && (forall i :: 0 <= i < TurnCount(req) ==> ReadsAs(r, req.messages[i], t.turns[first + i]))
      && Opening(r, req).Some? && t.open == cue + Opening(r, req).value
  {
    hide *;
    var body, ts := WholeRead(r, req, cue);
    LegibleParts(r, req, TurnCount(req));
    SeenTurns(r, req.messages, TurnCount(req), HeadSeen(req, body), ts);
    HeadSeenIs(req, body);
  }

  /** The system turn, if there is one. */
  function HeadSeen(req: Request, body: string): seq<Seen> {
    if HasSystem(req) then [Seen("system", body)] else []
  }

  lemma HeadSeenIs(req: Request, body: string)
    ensures if HasSystem(req) then HeadSeen(req, body) == [Seen("system", body)] else HeadSeen(req, body) == []
  {
  }

  lemma WholeRead(r: Renderer, req: Request, cue: string) returns (body: string, ts: seq<Seen>)
    requires IsCue(cue) && Prompt(r, req, cue).Some? && Legible(r, req)
    ensures Opening(r, req).Some? && TurnCount(req) <= |req.messages|
    ensures ReadPrompt(Prompt(r, req, cue).value) == Transcript(HeadSeen(req, body) + ts, cue + Opening(r, req).value)
    ensures HasSystem(req) ==> ReadSystem(body) == (req.system, req.tools)
    ensures |ts| == TurnCount(req)
    ensures forall i :: 0 <= i < |ts| ==> ReadsAs(r, req.messages[..TurnCount(req)][i], ts[i])
  {
    hide *;
    PromptIs(r, req, cue);
    OpeningUnmarked(r, req);
    CompleteTurns(req);
    var n, end := TurnCount(req), cue + Opening(r, req).value;
    LegibleParts(r, req, n);
    CueRead(cue, Opening(r, req).value);
    ts := TurnsRead(r, req.messages[..n], end);
    assert ts + [] == ts;
    var later := Turns(r, req.messages[..n]).value + end;
    body := HeadRead(req, later);
    HeadSeenIs(req, body);
    assert "" + later == later && [] + ts == ts;
  }

  lemma LegibleParts(r: Renderer, req: Request, n: nat)
    requires Legible(r, req) && n == TurnCount(req)
    ensures req.system.Some? ==> Unmarked(req.system.value) && !Occurs(req.system.value, "# Tools")
    ensures forall i :: 0 <= i < |req.tools| ==> Unmarked(req.tools[i]) && OneLine(req.tools[i])
    ensures n <= |req.messages| && forall i :: 0 <= i < n && Rendered(r, req.messages[..n][i]).Some? ==>
      Unmarked(Rendered(r, req.messages[..n][i]).value)
  {
    hide Rendered, Unmarked, Occurs, OneLine;
  }

  lemma SeenTurns(r: Renderer, ms: seq<Message>, n: nat, head: seq<Seen>, ts: seq<Seen>)
    requires n == |ts| <= |ms| && forall i :: 0 <= i < n ==> ReadsAs(r, ms[..n][i], ts[i])
    ensures forall i :: 0 <= i < n ==> ReadsAs(r, ms[i], (head + ts)[|head| + i])
  {
    hide ReadsAs;
    forall i | 0 <= i < n ensures ReadsAs(r, ms[i], (head + ts)[|head| + i]) {
      assert (head + ts)[|head| + i] == ts[i] && ms[..n][i] == ms[i];
    }
  }

  lemma OpeningUnmarked(r: Renderer, req: Request)
    requires Legible(r, req) && Opening(r, req).Some?
    ensures Unmarked(Opening(r, req).value)
  {
    hide Unmarked, Parsing.TrimEnd;
    if TurnCount(req) == |req.messages| {
      NoBarUnmarked("");
    } else {
      CompleteTurns(req);
      StartRendered(r, req);
    }
  }

  lemma StartRendered(r: Renderer, req: Request)
    requires Legible(r, req) && TurnCount(req) < |req.messages|
    requires r.assistant(req.messages[|req.messages| - 1].content).Some?
    ensures Unmarked(Parsing.TrimEnd(r.assistant(req.messages[|req.messages| - 1].content).value))
  {
    hide Unmarked, Parsing.TrimEnd;
    var m := req.messages[|req.messages| - 1];
    assert Rendered(r, m) == r.assistant(m.content);
    TrimmedUnmarked(r.assistant(m.content).value);
  }
}
