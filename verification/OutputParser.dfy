/** Tags in generated text: plain text, tool calls and dropped thoughts (anthropic.rs). */
module Parsing {
  import opened Common
  import opened Strings

  const TOOL_OPEN := "<tool_call>"
  const TOOL_CLOSE := "</tool_call>"
  const THINK_OPEN := "<think>"
  const THINK_CLOSE := "</think>"

  datatype ToolResult = Good(name: string, input: string) | Bad(error: string)

  datatype ParsedEvent =
    | Text(text: string)
    | ToolCall(name: string, input: string)
    | Malformed(raw: string, error: string)

  datatype ParseState = InText | InThink | InTool

  /** What a client sees of a list of events: adjacent texts run together. */
  datatype Item = Ch(c: char) | Call(name: string, input: string) | Lost(raw: string, error: string)

  function Chars(s: string): seq<Item> {
    seq(|s|, i requires 0 <= i < |s| => Ch(s[i]))
  }

  function Items(e: ParsedEvent): seq<Item> {
    match e
    case Text(text) => Chars(text)
    case ToolCall(name, input) => [Call(name, input)]
    case Malformed(raw, error) => [Lost(raw, error)]
  }

  function Flat(events: seq<ParsedEvent>): seq<Item> {
    if events == [] then [] else Items(events[0]) + Flat(events[1..])
  }

  lemma {:induction false} FlatAppend(a: seq<ParsedEvent>, b: seq<ParsedEvent>)
    ensures Flat(a + b) == Flat(a) + Flat(b)
  {
    if a == [] {
      assert a + b == b;
    } else {
      assert (a + b)[1..] == a[1..] + b;
      FlatAppend(a[1..], b);
    }
  }

  lemma FlatOne(e: ParsedEvent)
    ensures Flat([e]) == Items(e)
  {
    assert [e][1..] == [];
  }

  // char::is_whitespace: the White_Space property.
  predicate IsWhite(c: char) {
    '\U{9}' <= c <= '\U{D}' || c == ' ' || c == '\U{85}' || c == '\U{A0}' || c == '\U{1680}'
    || '\U{2000}' <= c <= '\U{200A}' || c == '\U{2028}' || c == '\U{2029}' || c == '\U{202F}'
    || c == '\U{205F}' || c == '\U{3000}'
  }

  function TrimStart(s: string): string {
    if s != "" && IsWhite(s[0]) then TrimStart(s[1..]) else s
  }

  function TrimEnd(s: string): string {
    if s != "" && IsWhite(s[|s| - 1]) then TrimEnd(s[..|s| - 1]) else s
  }

  function Trim(s: string): string {
    TrimEnd(TrimStart(s))
  }

  /** The JSON reader, its repairs and the name inference are any function of the trimmed text. */
  function ParseToolCall(reader: string -> ToolResult, raw: string): ParsedEvent {
    match reader(raw)
    case Good(name, input) => ToolCall(name, input)
    case Bad(error) => Malformed(raw, error)
  }

  datatype Mark = Mark(pos: nat, marker: string, next: ParseState)

  /** The earlier of the two opening tags. */
  function FirstMark(s: string): (r: Option<Mark>)
    ensures r.Some? ==> r.value.pos + |r.value.marker| <= |s| && |r.value.marker| > 0
  {
    match (Find(s, TOOL_OPEN), Find(s, THINK_OPEN))
    case (Some(a), Some(b)) => if a <= b then Some(Mark(a, TOOL_OPEN, InTool)) else Some(Mark(b, THINK_OPEN, InThink))
    case (Some(a), None) => Some(Mark(a, TOOL_OPEN, InTool))
    case (None, Some(b)) => Some(Mark(b, THINK_OPEN, InThink))
    case (None, None) => None
  }

  function TextEvents(s: string): seq<ParsedEvent> {
    if s == "" then [] else [Text(s)]
  }

  /** The specification: read the whole text at once. */
  function Parse(reader: string -> ToolResult, state: ParseState, s: string): seq<ParsedEvent>
    decreases |s|
  {
    match state
    case InText =>
      (match FirstMark(s)
       case None => TextEvents(s)
       case Some(m) => TextEvents(s[..m.pos]) + Parse(reader, m.next, s[m.pos + |m.marker|..]))
    case InThink =>
      (match Find(s, THINK_CLOSE)
       case None => []
       case Some(p) => Parse(reader, InText, s[p + |THINK_CLOSE|..]))
    case InTool =>
      match Find(s, TOOL_CLOSE)
      case None => [ParseToolCall(reader, Trim(s))]
      case Some(p) => [ParseToolCall(reader, Trim(s[..p]))] + Parse(reader, InText, s[p + |TOOL_CLOSE|..])
  }

  /** No closing or opening tag of the current state is left in the buffer. */
  predicate Settled(state: ParseState, buf: string) {
    match state
    case InText => FirstMark(buf) == None
    case InThink => Find(buf, THINK_CLOSE) == None
    case InTool => Find(buf, TOOL_CLOSE) == None
  }

  /** Having emitted `out` and holding (state, buf) comes to the same as holding (state0, buf0), whatever follows. */
  ghost predicate Carries(reader: string -> ToolResult, state0: ParseState, buf0: string,
                          out: seq<ParsedEvent>, state: ParseState, buf: string) {
    forall rest: string :: Same(reader, state0, buf0, out, state, buf, rest)
  }

  ghost predicate Same(reader: string -> ToolResult, state0: ParseState, buf0: string,
                       out: seq<ParsedEvent>, state: ParseState, buf: string, rest: string) {
    Flat(out) + Flat(Parse(reader, state, buf + rest)) == Flat(Parse(reader, state0, buf0 + rest))
  }

  lemma CarriesStep(reader: string -> ToolResult, state0: ParseState, buf0: string,
                    out1: seq<ParsedEvent>, state1: ParseState, buf1: string,
                    out2: seq<ParsedEvent>, state2: ParseState, buf2: string)
    requires Carries(reader, state0, buf0, out1, state1, buf1)
    requires Carries(reader, state1, buf1, out2, state2, buf2)
    ensures Carries(reader, state0, buf0, out1 + out2, state2, buf2)
  {
    hide Parse, Flat;
    forall rest: string ensures Same(reader, state0, buf0, out1 + out2, state2, buf2, rest) {
      FlatAppend(out1, out2);
      assert Same(reader, state0, buf0, out1, state1, buf1, rest);
      assert Same(reader, state1, buf1, out2, state2, buf2, rest);
    }
  }

  /** Text that arrives later moves only the buffer. */
  lemma CarriesMore(reader: string -> ToolResult, state0: ParseState, buf0: string,
                    out: seq<ParsedEvent>, state: ParseState, buf: string, text: string)
    requires Carries(reader, state0, buf0, out, state, buf)
    ensures Carries(reader, state0, buf0 + text, out, state, buf + text)
  {
    hide Parse;
    forall rest: string ensures Same(reader, state0, buf0 + text, out, state, buf + text, rest) {
      assert Same(reader, state0, buf0, out, state, buf, text + rest);
      assert buf0 + text + rest == buf0 + (text + rest) && buf + text + rest == buf + (text + rest);
    }
  }

  /** An occurrence that more text completes ends in that text. */
  lemma EndsLater(s: string, rest: string, p: string)
    requires Find(s, p) == None
    ensures Find(s + rest, p).Some? ==> Find(s + rest, p).value + |p| > |s|
  {
    if Find(s + rest, p).Some? && Find(s + rest, p).value + |p| <= |s| {
      AtPrefix(s, rest, p, Find(s + rest, p).value);
    }
  }

  /** Two different opening tags never overlap. */
  lemma TagsApart(s: string, tool: nat, think: nat)
    requires At(s, TOOL_OPEN, tool) && At(s, THINK_OPEN, think)
    ensures tool + |TOOL_OPEN| <= think || think + |THINK_OPEN| <= tool
  {
    AtChar(s, TOOL_OPEN, tool, 0);
    AtChar(s, TOOL_OPEN, tool, 2);
    AtChar(s, THINK_OPEN, think, 0);
    AtChar(s, THINK_OPEN, think, 2);
    if tool <= think < tool + |TOOL_OPEN| {
      AtChar(s, TOOL_OPEN, tool, think - tool);
    } else if think <= tool < think + |THINK_OPEN| {
      AtChar(s, THINK_OPEN, think, tool - think);
    }
  }

  /** The first opening tag stays first when text is added. */
  lemma MarkStable(s: string, rest: string)
    requires FirstMark(s).Some?
    ensures FirstMark(s + rest) == FirstMark(s)
  {
    var tool, think := Find(s, TOOL_OPEN), Find(s, THINK_OPEN);
    if tool.Some? {
      FindStable(s, rest, TOOL_OPEN);
    } else {
      EndsLater(s, rest, TOOL_OPEN);
    }
    if think.Some? {
      FindStable(s, rest, THINK_OPEN);
    } else {
      EndsLater(s, rest, THINK_OPEN);
    }
    if Find(s + rest, TOOL_OPEN).Some? && Find(s + rest, THINK_OPEN).Some? {
      TagsApart(s + rest, Find(s + rest, TOOL_OPEN).value, Find(s + rest, THINK_OPEN).value);
    }
  }

  function ShiftMark(delta: nat, m: Option<Mark>): Option<Mark> {
    match m
    case None => None
    case Some(m) => Some(m.(pos := delta + m.pos))
  }

  lemma MarkShift(pre: string, s: string)
    requires forall i :: 0 <= i < |pre| ==> !At(pre + s, TOOL_OPEN, i) && !At(pre + s, THINK_OPEN, i)
    ensures FirstMark(pre + s) == ShiftMark(|pre|, FirstMark(s))
  {
    hide Find, Occurs;
    FindShift(pre, s, TOOL_OPEN);
    FindShift(pre, s, THINK_OPEN);
  }

  /** Text in which no opening tag starts passes straight through. */
  lemma TextPasses(reader: string -> ToolResult, pre: string, s: string)
    requires FirstMark(pre + s) == ShiftMark(|pre|, FirstMark(s))
    ensures Flat(Parse(reader, InText, pre + s)) == Chars(pre) + Flat(Parse(reader, InText, s))
  {
    hide FirstMark, Flat, Chars;
    CharsAppend(pre, s);
    match FirstMark(s)
    case None =>
      FlatText(pre + s);
      FlatText(s);
    case Some(m) =>
      var tail := s[m.pos + |m.marker|..];
      assert (pre + s)[..|pre| + m.pos] == pre + s[..m.pos];
      assert (pre + s)[|pre| + m.pos + |m.marker|..] == tail;
      CharsAppend(pre, s[..m.pos]);
      FlatText(pre + s[..m.pos]);
      FlatText(s[..m.pos]);
      FlatAppend(TextEvents(pre + s[..m.pos]), Parse(reader, m.next, tail));
      FlatAppend(TextEvents(s[..m.pos]), Parse(reader, m.next, tail));
  }

  lemma CharsAppend(a: string, b: string)
    ensures Chars(a + b) == Chars(a) + Chars(b)
  {
  }

  lemma FlatText(s: string)
    ensures Flat(TextEvents(s)) == Chars(s)
  {
    if s != "" {
      FlatOne(Text(s));
    }
  }

  /** The last `take` characters are the start of an opening tag. */
  predicate Growing(buf: string, take: nat) {
    take <= |buf| && (buf[|buf| - take..] <= TOOL_OPEN || buf[|buf| - take..] <= THINK_OPEN)
  }

  /** `keep` is the length of the longest suffix an opening tag could still grow from. */
  predicate Held(buf: string, keep: nat) {
    Growing(buf, keep) && forall take: nat :: keep < take < |TOOL_OPEN| ==> !Growing(buf, take)
  }

  method HoldbackLen(buf: string) returns (keep: nat)
    ensures Held(buf, keep)
  {
    var take := Min(|TOOL_OPEN| - 1, |buf|);
    while take > 0
      invariant take <= |buf|
      invariant forall t: nat :: take < t < |TOOL_OPEN| ==> !Growing(buf, t)
    {
      if Growing(buf, take) {
        return take;
      }
      take := take - 1;
    }
    return 0;
  }

  lemma PartialAt(buf: string, rest: string, p: string, i: nat)
    requires i <= |buf| < i + |p| && At(buf + rest, p, i)
    ensures buf[i..] <= p
  {
    forall k | 0 <= k < |buf| - i ensures buf[i..][k] == p[k] {
      AtChar(buf + rest, p, i, k);
    }
  }

  /** No tag, complete now or later, starts before the held suffix. */
  lemma NoneBeforeHeld(buf: string, keep: nat, rest: string, p: string, i: nat)
    requires Held(buf, keep) && Find(buf, p) == None && (p == TOOL_OPEN || p == THINK_OPEN)
    requires i < |buf| - keep
    ensures !At(buf + rest, p, i)
  {
    hide Find, At;
    if i + |p| <= |buf| {
      AtPrefix(buf, rest, p, i);
      assert !Occurs(buf, p);
    } else {
      assert !Growing(buf, |buf| - i);
      if At(buf + rest, p, i) {
        PartialAt(buf, rest, p, i);
      }
    }
  }

  /** One opening tag is consumed. */
  lemma OpenCarries(reader: string -> ToolResult, buf: string)
    requires FirstMark(buf).Some?
    ensures var m := FirstMark(buf).value;
      Carries(reader, InText, buf, TextEvents(buf[..m.pos]), m.next, buf[m.pos + |m.marker|..])
  {
    hide Find, FirstMark;
    var m := FirstMark(buf).value;
    var out, tail := TextEvents(buf[..m.pos]), buf[m.pos + |m.marker|..];
    forall rest: string ensures Same(reader, InText, buf, out, m.next, tail, rest) {
      MarkStable(buf, rest);
      assert (buf + rest)[..m.pos] == buf[..m.pos];
      assert (buf + rest)[m.pos + |m.marker|..] == tail + rest;
      FlatAppend(out, Parse(reader, m.next, tail + rest));
    }
  }

  /** Everything before the held suffix is let go. */
  lemma ReleaseCarries(reader: string -> ToolResult, buf: string, keep: nat)
    requires Settled(InText, buf) && Held(buf, keep)
    ensures Carries(reader, InText, buf, TextEvents(buf[..|buf| - keep]), InText, buf[|buf| - keep..])
    ensures Settled(InText, buf[|buf| - keep..])
  {
    hide Parse;
    var cut := |buf| - keep;
    var pre, tail := buf[..cut], buf[cut..];
    assert buf == pre + tail;
    forall rest: string ensures Same(reader, InText, buf, TextEvents(pre), InText, tail, rest) {
      forall i | 0 <= i < cut
        ensures !At(pre + (tail + rest), TOOL_OPEN, i) && !At(pre + (tail + rest), THINK_OPEN, i)
      {
        NoneBeforeHeld(buf, keep, rest, TOOL_OPEN, i);
        NoneBeforeHeld(buf, keep, rest, THINK_OPEN, i);
        assert pre + (tail + rest) == buf + rest;
      }
      assert pre + (tail + rest) == buf + rest;
      MarkShift(pre, tail + rest);
      TextPasses(reader, pre, tail + rest);
      FlatText(pre);
    }
    SuffixClean(pre, tail, TOOL_OPEN);
    SuffixClean(pre, tail, THINK_OPEN);
  }

  lemma SuffixClean(pre: string, tail: string, p: string)
    requires Find(pre + tail, p) == None
    ensures Find(tail, p) == None
  {
    forall i | 0 <= i <= |tail| ensures !At(tail, p, i) {
      AtShift(pre, tail, p, i);
      assert !Occurs(pre + tail, p);
    }
    assert !Occurs(tail, p);
  }

  /** A thought ends. */
  lemma ThinkCarries(reader: string -> ToolResult, buf: string)
    requires Find(buf, THINK_CLOSE).Some?
    ensures var p := Find(buf, THINK_CLOSE).value;
      Carries(reader, InThink, buf, [], InText, buf[p + |THINK_CLOSE|..])
  {
    hide Find, FirstMark;
    var p := Find(buf, THINK_CLOSE).value;
    var tail := buf[p + |THINK_CLOSE|..];
    forall rest: string ensures Same(reader, InThink, buf, [], InText, tail, rest) {
      FindStable(buf, rest, THINK_CLOSE);
      assert (buf + rest)[p + |THINK_CLOSE|..] == tail + rest;
    }
  }

  /** A tool call ends. */
  lemma ToolCarries(reader: string -> ToolResult, buf: string)
    requires Find(buf, TOOL_CLOSE).Some?
    ensures var p := Find(buf, TOOL_CLOSE).value;
      Carries(reader, InTool, buf, [ParseToolCall(reader, Trim(buf[..p]))], InText, buf[p + |TOOL_CLOSE|..])
  {
    hide Find, FirstMark, Trim, ParseToolCall;
    var p := Find(buf, TOOL_CLOSE).value;
    var call, tail := [ParseToolCall(reader, Trim(buf[..p]))], buf[p + |TOOL_CLOSE|..];
    forall rest: string ensures Same(reader, InTool, buf, call, InText, tail, rest) {
      FindStable(buf, rest, TOOL_CLOSE);
      assert (buf + rest)[p + |TOOL_CLOSE|..] == tail + rest;
      assert (buf + rest)[..p] == buf[..p];
      FlatAppend(call, Parse(reader, InText, tail + rest));
    }
  }

  class OutputParser {
    const reader: string -> ToolResult
    var buf: string
    var state: ParseState

    ghost predicate Valid()
      reads this
    {
      Settled(state, buf)
    }

    constructor (reader: string -> ToolResult)
      ensures Valid() && buf == "" && state == InText && this.reader == reader
    {
      this.reader := reader;
      buf, state := "", InText;
      new;
      assert Find("", TOOL_OPEN) == None && Find("", THINK_OPEN) == None;
    }

    /** What is emitted, followed by reading what is kept and all that may follow, is reading it all at once. */
    method Push(text: string) returns (out: seq<ParsedEvent>)
      requires Valid()
      modifies this
      ensures Valid()
      ensures Carries(reader, old(state), old(buf) + text, out, state, buf)
      ensures state.InText? ==> Held(buf, |buf|)
    {
      hide Find, FirstMark, Parse, Flat, Trim, Carries, Held, ParseToolCall;
      buf := buf + text;
      ghost var state0, buf0 := state, buf;
      out := [];
      CarriesNothing(reader, state, buf);
      while true
        invariant Carries(reader, state0, buf0, out, state, buf)
        decreases |buf|
      {
        ghost var state1, buf1, before := state, buf, out;
        match state
        case InText =>
          match FirstMark(buf) {
            case Some(m) =>
              OpenCarries(reader, buf);
              if m.pos > 0 {
                out := out + [Text(buf[..m.pos])];
              }
              buf := buf[m.pos + |m.marker|..];
              state := m.next;
              CarriesStep(reader, state0, buf0, before, state1, buf1, TextEvents(buf1[..m.pos]), state, buf);
              assert before + [] == before;
              continue;
            case None =>
              var keep := HoldbackLen(buf);
              HeldBound(buf, keep);
              ReleaseCarries(reader, buf, keep);
              HeldWhole(buf, keep);
              var ready := |buf| - keep;
              CarriesStep(reader, state0, buf0, before, state1, buf1, TextEvents(buf[..ready]), InText, buf[ready..]);
              if ready > 0 {
                out := out + [Text(buf[..ready])];
                buf := buf[ready..];
              } else {
                assert before + [] == before && buf[ready..] == buf;
              }
              break;
          }
        case InThink =>
          match Find(buf, THINK_CLOSE) {
            case Some(p) =>
              ThinkCarries(reader, buf);
              buf := buf[p + |THINK_CLOSE|..];
              state := InText;
              CarriesStep(reader, state0, buf0, before, state1, buf1, [], state, buf);
              assert before + [] == before;
              continue;
            case None => break;
          }
        case InTool =>
          match Find(buf, TOOL_CLOSE) {
            case Some(p) =>
              ToolCarries(reader, buf);
              var call := ParseToolCall(reader, Trim(buf[..p]));
              buf := buf[p + |TOOL_CLOSE|..];
              state := InText;
              out := out + [call];
              CarriesStep(reader, state0, buf0, before, state1, buf1, [call], state, buf);
              continue;
            case None => break;
          }
      }
    }

    /** What the rest of the buffer means once nothing follows. */
    method Finish() returns (out: seq<ParsedEvent>)
      requires Valid()
      ensures out == Parse(reader, state, buf)
    {
      match state
      case InText => out := if buf == "" then [] else [Text(buf)];
      case InThink => out := [];
      case InTool => out := [ParseToolCall(reader, Trim(buf))];
    }
  }

  lemma HeldBound(buf: string, keep: nat)
    requires Held(buf, keep)
    ensures keep <= |buf|
  {
  }

  /** What is kept is all held back, and nothing but it. */
  lemma HeldWhole(buf: string, keep: nat)
    requires Held(buf, keep) && keep <= |buf|
    ensures Held(buf[|buf| - keep..], keep)
  {
    var kept := buf[|buf| - keep..];
    assert kept[|kept| - keep..] == kept;
  }

  lemma CarriesNothing(reader: string -> ToolResult, state: ParseState, buf: string)
    ensures Carries(reader, state, buf, [], state, buf)
  {
    hide Parse;
    forall rest: string ensures Same(reader, state, buf, [], state, buf, rest) {
    }
  }
}
