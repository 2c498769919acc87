/** What generated text means: reading it inverts writing it (anthropic.rs). */
module Readings {
  import opened Common
  import opened Strings
  import opened Stops
  import opened Parsing
  import opened Blocks
  import opened Messages

  /** A text for the client, a thought, or the text of a tool call. */
  datatype Segment = Plain(text: string) | Thought(text: string) | Quoted(raw: string)

  /** How a generation ends: complete, or inside a thought or a call. */
  datatype Ending = Complete | InThought(text: string) | InCall(raw: string)

  function Written(segs: seq<Segment>, end: Ending): string {
    if segs == [] then
      match end
      case Complete => ""
      case InThought(t) => "<think>" + t
      case InCall(raw) => "<tool_call>" + raw
    else
      (match segs[0]
       case Plain(t) => t
       case Thought(t) => "<think>" + t + "</think>"
       case Quoted(raw) => "<tool_call>" + raw + "</tool_call>")
      + Written(segs[1..], end)
  }

  /** No opening tag begins inside a text, whatever follows it, and nothing holds its own closing tag. */
  predicate Readable(segs: seq<Segment>, end: Ending) {
    if segs == [] then
      match end
      case Complete => true
      case InThought(t) => !Occurs(t, "</think>")
      case InCall(raw) => !Occurs(raw, "</tool_call>")
    else
      (match segs[0]
       case Plain(t) =>
         forall i :: 0 <= i < |t| ==>
           !At(Written(segs, end), "<think>", i) && !At(Written(segs, end), "<tool_call>", i)
       case Thought(t) => !Occurs(t, "</think>")
       case Quoted(raw) => !Occurs(raw, "</tool_call>"))
      && Readable(segs[1..], end)
  }

  function CallItem(reader: string -> ToolResult, raw: string): Item {
    match reader(Trim(raw))
    case Good(name, input) => Call(name, input)
    case Bad(error) => Lost(Trim(raw), error)
  }

  /** The texts' characters, nothing for a thought, and for a call what the reader makes of it; a call that is cut
      short is given to the reader too. */
  function Meant(reader: string -> ToolResult, segs: seq<Segment>, end: Ending): seq<Item> {
    if segs == [] then (if end.InCall? then [CallItem(reader, end.raw)] else [])
    else
      (match segs[0]
       case Plain(t) => seq(|t|, i requires 0 <= i < |t| => Ch(t[i]))
       case Thought(_) => []
       case Quoted(raw) => [CallItem(reader, raw)])
      + Meant(reader, segs[1..], end)
  }

  lemma OpensThought(s: string)
    requires "<think>" <= s
    ensures FirstMark(s) == Some(Mark(0, THINK_OPEN, InThink)) && s[7..] == s[0 + |THINK_OPEN|..]
  {
    FindIs(s, THINK_OPEN, 0);
    assert s[2] == 'h';
    if At(s, TOOL_OPEN, 0) {
      AtChar(s, TOOL_OPEN, 0, 2);
    }
  }

  lemma OpensCall(s: string)
    requires "<tool_call>" <= s
    ensures FirstMark(s) == Some(Mark(0, TOOL_OPEN, InTool)) && s[11..] == s[0 + |TOOL_OPEN|..]
  {
    FindIs(s, TOOL_OPEN, 0);
  }

  lemma OneThought(reader: string -> ToolResult, t: string, rest: string)
    requires !Occurs(t, "</think>")
    ensures Parse(reader, InText, "<think>" + t + "</think>" + rest) == Parse(reader, InText, rest)
  {
    hide FirstMark, Find, Occurs, At, Trim, ParseToolCall;
    var s := "<think>" + t + "</think>" + rest;
    OpensThought(s);
    FindBehind(t, "</think>", rest);
    var inner := t + "</think>" + rest;
    assert s[7..] == inner && inner[|t| + |THINK_CLOSE|..] == rest;
    assert s[..0] == "" && TextEvents("") == [];
    assert Parse(reader, InText, s) == TextEvents(s[..0]) + Parse(reader, InThink, inner);
  }

  lemma OneCallText(reader: string -> ToolResult, raw: string, rest: string)
    requires !Occurs(raw, "</tool_call>")
    ensures Parse(reader, InText, "<tool_call>" + raw + "</tool_call>" + rest)
         == [ParseToolCall(reader, Trim(raw))] + Parse(reader, InText, rest)
  {
    hide FirstMark, Find, Occurs, At, Trim, ParseToolCall;
    var s := "<tool_call>" + raw + "</tool_call>" + rest;
    OpensCall(s);
    FindBehind(raw, "</tool_call>", rest);
    var inner := raw + "</tool_call>" + rest;
    assert s[11..] == inner && inner[|raw| + |TOOL_CLOSE|..] == rest && inner[..|raw|] == raw;
    assert s[..0] == "" && TextEvents("") == [];
    assert Parse(reader, InText, s) == TextEvents(s[..0]) + Parse(reader, InTool, inner);
  }

  lemma LastPart(reader: string -> ToolResult, end: Ending)
    requires Readable([], end)
    ensures Flat(Parse(reader, InText, Written([], end))) == Meant(reader, [], end)
  {
    hide FirstMark, Find, Trim;
    var s := Written([], end);
    match end
    case Complete =>
      NothingOpens();
    case InThought(t) =>
      OpensThought(s);
      assert s[7..] == t && TextEvents(s[..0]) == [] && Find(t, THINK_CLOSE) == None;
      assert Parse(reader, InText, s) == TextEvents(s[..0]) + Parse(reader, InThink, t);
    case InCall(raw) =>
      OpensCall(s);
      assert s[11..] == raw && TextEvents(s[..0]) == [] && Find(raw, TOOL_CLOSE) == None;
      assert Parse(reader, InText, s) == TextEvents(s[..0]) + Parse(reader, InTool, raw);
      FlatOne(ParseToolCall(reader, Trim(raw)));
  }

  lemma NothingOpens()
    ensures FirstMark("") == None
  {
  }

  /** Reading inverts writing. */
  lemma {:induction false} ReadBack(reader: string -> ToolResult, segs: seq<Segment>, end: Ending)
    requires Readable(segs, end)
    ensures Flat(Parse(reader, InText, Written(segs, end))) == Meant(reader, segs, end)
  {
    hide Parse, FirstMark, Find, Occurs, Trim, Flat, ParseToolCall;
    if segs == [] {
      LastPart(reader, end);
    } else {
      var rest := Written(segs[1..], end);
      ReadBack(reader, segs[1..], end);
      match segs[0]
      case Plain(t) =>
        assert t + rest == Written(segs, end);
        MarkShift(t, rest);
        TextPasses(reader, t, rest);
      case Thought(t) =>
        OneThought(reader, t, rest);
      case Quoted(raw) =>
        OneCallText(reader, raw, rest);
        var call := ParseToolCall(reader, Trim(raw));
        FlatAppend([call], Parse(reader, InText, rest));
        FlatOne(call);
        CallMeans(reader, raw);
    }
  }

  lemma CallMeans(reader: string -> ToolResult, raw: string)
    ensures Items(ParseToolCall(reader, Trim(raw))) == [CallItem(reader, raw)]
  {
  }

  /** And every text is written like that: so this says what any text means. */
  lemma {:induction false} EveryTextIsWritten(s: string) returns (segs: seq<Segment>, end: Ending)
    ensures Readable(segs, end) && Written(segs, end) == s
    decreases |s|
  {
    hide Occurs;
    match FirstMark(s) {
      case None =>
        segs, end := [Plain(s)], Complete;
        NoMark(s);
        assert s + Written([], end) == s && [Plain(s)] + [] == segs;
        PlainFirst(s, [], end);
      case Some(m) =>
        var pre, tail := s[..m.pos], s[m.pos..];
        MarkThere(s);
        if m.marker == THINK_OPEN {
          segs, end := ThoughtFirst(tail);
        } else {
          segs, end := CallFirst(tail);
        }
        assert pre + tail == s;
        PlainFirst(pre, segs, end);
        segs := [Plain(pre)] + segs;
    }
  }

  lemma PlainFirst(pre: string, segs: seq<Segment>, end: Ending)
    requires Readable(segs, end)
    requires forall i :: 0 <= i < |pre| ==>
      !At(pre + Written(segs, end), "<think>", i) && !At(pre + Written(segs, end), "<tool_call>", i)
    ensures Readable([Plain(pre)] + segs, end) && Written([Plain(pre)] + segs, end) == pre + Written(segs, end)
  {
    hide At, Occurs;
    var all := [Plain(pre)] + segs;
    assert all[1..] == segs && Written(all, end) == pre + Written(segs, end);
  }

  lemma NoMark(s: string)
    requires FirstMark(s) == None
    ensures forall i :: 0 <= i < |s| ==> !At(s, "<think>", i) && !At(s, "<tool_call>", i)
  {
    assert !Occurs(s, THINK_OPEN) && !Occurs(s, TOOL_OPEN);
  }

  lemma MarkThere(s: string)
    requires FirstMark(s).Some?
    ensures var m := FirstMark(s).value;
      && m.pos < |s| && (m.marker == THINK_OPEN || m.marker == TOOL_OPEN) && m.marker <= s[m.pos..]
      && forall i :: 0 <= i < m.pos ==> !At(s, "<think>", i) && !At(s, "<tool_call>", i)
  {
    var m := FirstMark(s).value;
    assert At(s, m.marker, m.pos);
    assert s[m.pos..][..|m.marker|] == s[m.pos..m.pos + |m.marker|];
    forall i | 0 <= i < m.pos ensures !At(s, THINK_OPEN, i) && !At(s, TOOL_OPEN, i) {
      assert Find(s, THINK_OPEN).None? ==> !Occurs(s, THINK_OPEN);
      assert Find(s, TOOL_OPEN).None? ==> !Occurs(s, TOOL_OPEN);
    }
  }

  lemma FirstIsClean(s: string, p: string)
    requires Find(s, p).Some? && p != ""
    ensures var i := Find(s, p).value;
      i + |p| <= |s| && !Occurs(s[..i], p) && s == s[..i] + p + s[i + |p|..]
  {
    var i := Find(s, p).value;
    forall j | 0 <= j <= i ensures !At(s[..i], p, j) {
      if At(s[..i], p, j) {
        assert s == s[..i] + s[i..];
        AtPrefix(s[..i], s[i..], p, j);
      }
    }
  }

  lemma {:induction false} ThoughtFirst(s: string) returns (segs: seq<Segment>, end: Ending)
    requires "<think>" <= s
    ensures Readable(segs, end) && Written(segs, end) == s
    decreases |s|, 0
  {
    hide Occurs, Find;
    var inner := s[7..];
    assert s == "<think>" + inner;
    match Find(inner, "</think>") {
      case None =>
        segs, end := [], InThought(inner);
      case Some(p) =>
        FirstIsClean(inner, "</think>");
        var t, behind := inner[..p], inner[p + 8..];
        var rest;
        rest, end := EveryTextIsWritten(behind);
        segs := [Thought(t)] + rest;
        assert segs[1..] == rest;
        assert s == "<think>" + t + "</think>" + behind;
    }
  }

  lemma {:induction false} CallFirst(s: string) returns (segs: seq<Segment>, end: Ending)
    requires "<tool_call>" <= s
    ensures Readable(segs, end) && Written(segs, end) == s
    decreases |s|, 0
  {
    hide Occurs, Find;
    var inner := s[11..];
    assert s == "<tool_call>" + inner;
    match Find(inner, "</tool_call>") {
      case None =>
        segs, end := [], InCall(inner);
      case Some(p) =>
        FirstIsClean(inner, "</tool_call>");
        var raw, behind := inner[..p], inner[p + 12..];
        var rest;
        rest, end := EveryTextIsWritten(behind);
        segs := [Quoted(raw)] + rest;
        assert segs[1..] == rest;
        assert s == "<tool_call>" + raw + "</tool_call>" + behind;
    }
  }

  /** So a message, in either mode, is made of what was meant. */
  lemma MessageMeans(reader: string -> ToolResult, stops: seq<string>, pieces: seq<string>, segs: seq<Segment>,
                     end: Ending)
    requires Readable(segs, end) && Detect(NonEmpty(stops), "", pieces).content == Written(segs, end)
    ensures Reading(reader, stops, pieces) == Meant(reader, segs, end)
  {
    hide Parse, Detect;
    ReadBack(reader, segs, end);
  }

  // ---- blocks ----

  /** A call that was read, or one that was not, and the text that follows it. */
  datatype Turnout =
    | Called(name: string, input: string, after: string)
    | Missed(raw: string, error: string, after: string)

  function Letters(t: string): (r: seq<Item>)
    ensures |r| == |t|
  {
    seq(|t|, i requires 0 <= i < |t| => Ch(t[i]))
  }

  function ItemsOf(parts: seq<Turnout>): seq<Item> {
    if parts == [] then []
    else
      [match parts[0] case Called(name, input, _) => Call(name, input) case Missed(raw, error, _) => Lost(raw, error)]
      + Letters(parts[0].after) + ItemsOf(parts[1..])
  }

  predicate AllWhite(s: string) {
    forall i :: 0 <= i < |s| ==> IsWhite(s[i])
  }

  /** Text shows up unless it is all white space, and then as it is. */
  function Visible(t: string): seq<Block> {
    if AllWhite(t) then [] else [TextBlock(t)]
  }

  function BlocksMeant(parts: seq<Turnout>): seq<Block> {
    if parts == [] then []
    else
      (match parts[0]
       case Called(name, input, t) => [ToolBlock(name, input)] + Visible(t)
       case Missed(raw, _, t) => Visible("<tool_call>\n" + raw + "\n</tool_call>" + t))
      + BlocksMeant(parts[1..])
  }

  /** A message has a block for its lead text, one for every call, and one for the text behind each call; a call that
      could not be read opens the text behind it. */
  lemma BlocksMean(lead: string, parts: seq<Turnout>)
    ensures BlocksOf("", Letters(lead) + ItemsOf(parts)) == Visible(lead) + BlocksMeant(parts)
  {
    RunMeans("", lead, parts);
    assert "" + lead == lead;
  }

  lemma {:induction false} RunMeans(run: string, text: string, parts: seq<Turnout>)
    ensures BlocksOf(run, Letters(text) + ItemsOf(parts)) == Visible(run + text) + BlocksMeant(parts)
    decreases |parts|
  {
    hide AllWhite, HasInk, Fallback;
    InkShows(run + text);
    assert Letters(text) == Chars(text);
    RunOfChars(run, text, ItemsOf(parts));
    if parts != [] {
      var p := parts[0];
      var items := ItemsOf(parts);
      assert items[1..] == Letters(p.after) + ItemsOf(parts[1..]);
      match p {
        case Called(name, input, t) =>
          RunMeans("", t, parts[1..]);
          assert "" + t == t;
          assert BlocksOf(run + text, items)
              == IfInk(run + text) + [ToolBlock(name, input)] + BlocksOf("", items[1..]);
        case Missed(raw, _, t) =>
          FallbackIs(raw);
          RunMeans(Fallback(raw), t, parts[1..]);
          assert BlocksOf(run + text, items) == IfInk(run + text) + BlocksOf(Fallback(raw), items[1..]);
      }
    }
  }

  lemma InkShows(t: string)
    ensures IfInk(t) == Visible(t)
  {
  }

  lemma FallbackIs(raw: string)
    ensures Fallback(raw) == "<tool_call>\n" + raw + "\n</tool_call>"
  {
  }

  /** Every reading is of that form. */
  lemma {:induction false} EveryReadingHasParts(items: seq<Item>) returns (lead: string, parts: seq<Turnout>)
    ensures items == Letters(lead) + ItemsOf(parts)
    decreases |items|
  {
    lead, parts := "", [];
    if items != [] {
      var t, rest := EveryReadingHasParts(items[1..]);
      assert items == [items[0]] + items[1..];
      match items[0] {
        case Ch(c) =>
          lead, parts := [c] + t, rest;
          assert Letters([c] + t) == [Ch(c)] + Letters(t);
        case Call(name, input) => parts := [Called(name, input, t)] + rest;
        case Lost(raw, error) => parts := [Missed(raw, error, t)] + rest;
      }
      assert parts != [] && !items[0].Ch? ==> parts[1..] == rest;
    }
  }

  // ---- trimming ----

  lemma {:induction false} TrimStartMeans(s: string) returns (a: string)
    ensures s == a + TrimStart(s) && AllWhite(a)
    ensures TrimStart(s) != "" ==> !IsWhite(TrimStart(s)[0])
  {
    hide IsWhite;
    a := "";
    if s != "" && IsWhite(s[0]) {
      var b := TrimStartMeans(s[1..]);
      a := [s[0]] + b;
      assert s == [s[0]] + s[1..];
    }
  }

  lemma {:induction false} TrimEndMeans(s: string) returns (b: string)
    ensures s == TrimEnd(s) + b && AllWhite(b)
    ensures var t := TrimEnd(s); t != "" ==> !IsWhite(t[|t| - 1]) && t[0] == s[0]
  {
    hide IsWhite;
    b := "";
    var n := |s| - 1;
    if s != "" && IsWhite(s[n]) {
      var c := TrimEndMeans(s[..n]);
      b := c + [s[n]];
      assert s == s[..n] + [s[n]];
    }
  }

  /** Trimming takes white space off both ends, and all of it. */
  lemma TrimMeans(s: string) returns (a: string, b: string)
    ensures s == a + Trim(s) + b && AllWhite(a) && AllWhite(b)
    ensures var t := Trim(s); t != "" ==> !IsWhite(t[0]) && !IsWhite(t[|t| - 1])
  {
    hide IsWhite, TrimStart, TrimEnd;
    a := TrimStartMeans(s);
    b := TrimEndMeans(TrimStart(s));
    assert a + (Trim(s) + b) == a + Trim(s) + b;
  }
}
