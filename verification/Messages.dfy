/** A generated message, streamed block by block or collected and sent whole (anthropic.rs). */
module Messages {
  import opened Common
  import opened Strings
  import opened Stops
  import opened Parsing
  import opened Blocks

  function Kept(items: seq<Item>): seq<Item> {
    if items == [] then [] else (if items[0].Lost? then [] else [items[0]]) + Kept(items[1..])
  }

  /** The malformed calls, in order. */
  function LostOf(items: seq<Item>): seq<string> {
    if items == [] then [] else (if items[0].Lost? then [items[0].raw] else []) + LostOf(items[1..])
  }

  lemma {:induction false} SplitAppend(a: seq<Item>, b: seq<Item>)
    ensures Kept(a + b) == Kept(a) + Kept(b) && LostOf(a + b) == LostOf(a) + LostOf(b)
  {
    if a == [] {
      assert a + b == b;
      assert [] + Kept(b) == Kept(b) && [] + LostOf(b) == LostOf(b);
    } else {
      assert (a + b)[1..] == a[1..] + b && (a + b)[0] == a[0];
      SplitAppend(a[1..], b);
      var k, l := if a[0].Lost? then [] else [a[0]], if a[0].Lost? then [a[0].raw] else [];
      assert k + (Kept(a[1..]) + Kept(b)) == k + Kept(a[1..]) + Kept(b);
      assert l + (LostOf(a[1..]) + LostOf(b)) == l + LostOf(a[1..]) + LostOf(b);
    }
  }

  lemma {:induction false} TextKept(s: string)
    ensures Kept(Chars(s)) == Chars(s) && LostOf(Chars(s)) == []
  {
    if s != "" {
      assert Chars(s)[1..] == Chars(s[1..]);
      TextKept(s[1..]);
    }
  }

  lemma {:induction false} NoneLost(items: seq<Item>)
    requires LostOf(items) == []
    ensures Kept(items) == items
  {
    if items != [] {
      NoneLost(items[1..]);
    }
  }

  lemma {:induction false} CallsKept(items: seq<Item>)
    ensures Calls(Kept(items)) == Calls(items)
  {
    if items != [] {
      CallsKept(items[1..]);
      CallsAppend(if items[0].Lost? then [] else [items[0]], Kept(items[1..]));
    }
  }

  function Fallbacks(raws: seq<string>): seq<Item> {
    if raws == [] then [] else Chars(Fallback(raws[0])) + Fallbacks(raws[1..])
  }

  lemma {:induction false} FallbacksAppend(a: seq<string>, b: seq<string>)
    ensures Fallbacks(a + b) == Fallbacks(a) + Fallbacks(b)
  {
    if a == [] {
      assert a + b == b;
    } else {
      assert (a + b)[1..] == a[1..] + b;
      FallbacksAppend(a[1..], b);
    }
  }

  lemma {:induction false} NoCallsInFallbacks(raws: seq<string>)
    ensures Calls(Fallbacks(raws)) == 0
  {
    if raws != [] {
      NoCallsInFallbacks(raws[1..]);
      NoCallsInText(Fallback(raws[0]));
      CallsAppend(Chars(Fallback(raws[0])), Fallbacks(raws[1..]));
    }
  }

  /** What a generation comes to: everything its text says up to the stop, read at once. */
  function Reading(reader: string -> ToolResult, stops: seq<string>, pieces: seq<string>): seq<Item> {
    Flat(Parse(reader, InText, Detect(NonEmpty(stops), "", pieces).content))
  }

  /** A streamed message keeps its malformed calls for the end, and shows them only if no call was good. */
  function StreamedBlocks(items: seq<Item>): seq<Block> {
    BlocksOf("", Kept(items) + if Calls(items) == 0 then Fallbacks(LostOf(items)) else [])
  }

  /** One batch of parsed events on its way to the client. */
  method Relay(emitter: BlockEmitter, events: seq<ParsedEvent>) returns (out: seq<Sse>, malformed: seq<string>)
    requires emitter.Valid()
    modifies emitter
    ensures emitter.Valid() && emitter.sent == old(emitter.sent) + out
    ensures emitter.seen == old(emitter.seen) + Kept(Flat(events)) && malformed == LostOf(Flat(events))
  {
    hide *;
    out, malformed := [], [];
    NothingLost();
    for i := 0 to |events|
      invariant emitter.Valid() && emitter.sent == old(emitter.sent) + out
      invariant emitter.seen == old(emitter.seen) + Kept(Flat(events[..i]))
      invariant malformed == LostOf(Flat(events[..i]))
    {
      SplitOne(events, i);
      if events[i].Malformed? {
        malformed := malformed + [events[i].raw];
      } else {
        var more := emitter.OnEvent(events[i]);
        out := out + more;
      }
    }
    assert events[..|events|] == events;
  }

  lemma NothingLost()
    ensures Kept(Flat([])) == [] && LostOf(Flat([])) == []
  {
  }

  lemma SplitOne(events: seq<ParsedEvent>, i: nat)
    requires i < |events|
    ensures var e := events[i];
      && Kept(Flat(events[..i + 1])) == Kept(Flat(events[..i])) + (if e.Malformed? then [] else Items(e))
      && LostOf(Flat(events[..i + 1])) == LostOf(Flat(events[..i])) + (if e.Malformed? then [e.raw] else [])
  {
    assert events[..i + 1] == events[..i] + [events[i]];
    FlatAppend(events[..i], [events[i]]);
    FlatOne(events[i]);
    SplitAppend(Flat(events[..i]), Items(events[i]));
    OneSplit(events[i]);
  }

  lemma OneSplit(e: ParsedEvent)
    ensures Kept(Items(e)) == if e.Malformed? then [] else Items(e)
    ensures LostOf(Items(e)) == if e.Malformed? then [e.raw] else []
  {
    match e
    case Text(text) => TextKept(text);
    case ToolCall(name, input) => assert [Call(name, input)][1..] == [];
    case Malformed(raw, error) => assert [Lost(raw, error)][1..] == [];
  }

  /** All the text taken from the detector has been read, and its good events relayed. */
  ghost predicate Relayed(detector: StopDetector, parser: OutputParser, emitter: BlockEmitter, all: seq<ParsedEvent>)
    reads detector, parser, emitter
  {
    && parser.Valid() && emitter.Valid()
    && Carries(parser.reader, InText, detector.taken, all, parser.state, parser.buf)
    && emitter.seen == Kept(Flat(all))
  }

  /** The body of the streaming loop for one piece: take what the detector let go, parse it, relay it. */
  method Forward(detector: StopDetector, parser: OutputParser, emitter: BlockEmitter, ghost all: seq<ParsedEvent>)
    returns (out: seq<Sse>, malformed: seq<string>, ghost now: seq<ParsedEvent>)
    requires detector.Valid() && Relayed(detector, parser, emitter, all)
    modifies detector, parser, emitter
    ensures detector.Valid() && Relayed(detector, parser, emitter, now)
    ensures detector.seen == old(detector.seen) && emitter.sent == old(emitter.sent) + out
    ensures LostOf(Flat(now)) == LostOf(Flat(all)) + malformed
  {
    hide Carries, Flat, Kept, LostOf, Settled, Tracks, ReceiveAll;
    var ready := detector.TakeReady();
    CarriesMore(parser.reader, InText, old(detector.taken), all, parser.state, parser.buf, ready);
    var events := parser.Push(ready);
    CarriesStep(parser.reader, InText, detector.taken, all, old(parser.state), old(parser.buf) + ready,
                events, parser.state, parser.buf);
    out, malformed := Relay(emitter, events);
    now := all + events;
    FlatAppend(all, events);
    SplitAppend(Flat(all), Flat(events));
  }

  /** One piece of text. */
  method StreamPiece(detector: StopDetector, parser: OutputParser, emitter: BlockEmitter, piece: string,
                     ghost all: seq<ParsedEvent>)
    returns (out: seq<Sse>, malformed: seq<string>, hit: Option<string>, ghost now: seq<ParsedEvent>)
    requires detector.Valid() && Relayed(detector, parser, emitter, all)
    modifies detector, parser, emitter
    ensures Relayed(detector, parser, emitter, now) && emitter.sent == old(emitter.sent) + out
    ensures LostOf(Flat(now)) == LostOf(Flat(all)) + malformed
    ensures detector.seen == old(detector.seen) + piece
    ensures match FirstStop(detector.stops, detector.seen)
            case None => hit == None && detector.Valid()
            case Some(k) =>
              && hit == Some(detector.stops[k])
              && detector.taken + (detector.ready + detector.held)
                 == detector.seen[..Find(detector.seen, detector.stops[k]).value]
  {
    hide Carries, Flat, LostOf, Kept, Settled, Tracks, ReceiveAll, Clean, FirstStop, Find, Occurs, Calls, HasInk;
    hit := detector.Push(piece);
    if hit.Some? {
      assert detector.taken + (detector.ready + detector.held) == detector.taken + detector.ready + detector.held;
      out, malformed, now := [], [], all;
      assert emitter.sent + [] == emitter.sent && LostOf(Flat(all)) + [] == LostOf(Flat(all));
    } else {
      out, malformed, now := Forward(detector, parser, emitter, all);
    }
  }

  /** The pieces up to the first hit, or all of them; the detector is left holding the rest of the content. */
  method StreamPieces(detector: StopDetector, parser: OutputParser, emitter: BlockEmitter, pieces: seq<string>)
    returns (out: seq<Sse>, malformed: seq<string>, hit: Option<string>, ghost all: seq<ParsedEvent>)
    requires detector.Valid() && Relayed(detector, parser, emitter, [])
    requires detector.seen == "" && emitter.sent == []
    modifies detector, parser, emitter
    ensures Relayed(detector, parser, emitter, all) && emitter.sent == out && malformed == LostOf(Flat(all))
    ensures var o := Detect(detector.stops, "", pieces);
      hit == Stopped(o) && detector.taken + (detector.ready + detector.held) == o.content
  {
    hide *;
    out, malformed, all := [], [], [];
    NothingLost();
    for i := 0 to |pieces|
      invariant detector.Valid() && Relayed(detector, parser, emitter, all)
      invariant emitter.sent == out && malformed == LostOf(Flat(all))
      invariant Detect(detector.stops, "", pieces) == Detect(detector.stops, detector.seen, pieces[i..])
    {
      DetectStep(detector.stops, detector.seen, pieces, i);
      var more, bad;
      more, bad, hit, all := StreamPiece(detector, parser, emitter, pieces[i], all);
      out, malformed := out + more, malformed + bad;
      if hit.Some? {
        return;
      }
    }
    hit := None;
    AllHeld(detector);
    DetectDone(detector.stops, detector.seen, pieces[|pieces|..]);
  }

  lemma DetectStep(stops: seq<string>, seen: string, pieces: seq<string>, i: nat)
    requires i < |pieces|
    ensures var t := seen + pieces[i];
      match FirstStop(stops, t)
      case None => Detect(stops, seen, pieces[i..]) == Detect(stops, t, pieces[i + 1..])
      case Some(k) =>
        var o := Detect(stops, seen, pieces[i..]);
        o.content == t[..Find(t, stops[k]).value] && Stopped(o) == Some(stops[k])
  {
    assert pieces[i..][0] == pieces[i] && pieces[i..][1..] == pieces[i + 1..];
  }

  lemma DetectDone(stops: seq<string>, seen: string, none: seq<string>)
    requires none == []
    ensures var o := Detect(stops, seen, none); o.content == seen && Stopped(o) == None
  {
  }

  lemma AllHeld(detector: StopDetector)
    requires detector.Valid()
    ensures detector.taken + (detector.ready + detector.held) == detector.seen
  {
    assert detector.taken + (detector.ready + detector.held) == detector.taken + detector.ready + detector.held;
  }

  /** The streaming endpoint for one generation, after the message_start event. */
  method StreamMessage(reader: string -> ToolResult, stops: seq<string>, pieces: seq<string>)
    returns (out: seq<Sse>, hit: Option<string>, toolCalls: nat)
    ensures hit == Stopped(Detect(NonEmpty(stops), "", pieces))
    ensures toolCalls == Calls(Reading(reader, stops, pieces))
    ensures ReceiveAll(Client([], None), out) == Some(Client(StreamedBlocks(Reading(reader, stops, pieces)), None))
  {
    hide Carries, Parse, Flat, LostOf, Kept, Settled, Tracks, ReceiveAll, Clean, Detect, BlocksOf, Chars, Fallback,
         Fallbacks, Calls;
    var detector := new StopDetector(stops);
    var parser := new OutputParser(reader);
    var emitter := new BlockEmitter();
    ghost var items := Reading(reader, stops, pieces);
    CarriesNothing(reader, InText, "");
    NothingLost();
    var malformed;
    ghost var all;
    out, malformed, hit, all := StreamPieces(detector, parser, emitter, pieces);

    var ready := detector.Finish();
    ghost var content := detector.taken + ready;
    ghost var state1, buf1 := parser.state, parser.buf;
    CarriesMore(reader, InText, detector.taken, all, state1, buf1, ready);
    var tail := parser.Push(ready);
    CarriesStep(reader, InText, content, all, state1, buf1 + ready, tail, parser.state, parser.buf);
    var last := parser.Finish();
    tail := tail + last;
    ReadingDone(reader, content, all + (tail[..|tail| - |last|]), parser.state, parser.buf);
    assert all + tail[..|tail| - |last|] + last == all + tail;
    FlatAppend(all, tail);
    SplitAppend(Flat(all), Flat(tail));
    var more, bad := Relay(emitter, tail);
    out, malformed := out + more, malformed + bad;
    assert emitter.seen == Kept(items) && malformed == LostOf(items);
    CallsKept(items);

    if emitter.toolCalls == 0 {
      more := ShowLeftover(emitter, malformed);
      out := out + more;
      NoCallsInFallbacks(malformed);
      CallsAppend(Kept(items), Fallbacks(malformed));
    } else {
      assert Kept(items) + [] == Kept(items);
    }
    more := emitter.Finish();
    out := out + more;
    toolCalls := emitter.toolCalls;
  }

  /** Once nothing follows, the events emitted and the last ones are the whole reading. */
  lemma ReadingDone(reader: string -> ToolResult, content: string, out: seq<ParsedEvent>, state: ParseState,
                    buf: string)
    requires Carries(reader, InText, content, out, state, buf)
    ensures Flat(out + Parse(reader, state, buf)) == Flat(Parse(reader, InText, content))
  {
    hide Parse, Flat;
    assert Same(reader, InText, content, out, state, buf, "");
    assert buf + "" == buf && content + "" == content;
    FlatAppend(out, Parse(reader, state, buf));
  }

  method ShowLeftover(emitter: BlockEmitter, leftover: seq<string>) returns (out: seq<Sse>)
    requires emitter.Valid()
    modifies emitter
    ensures emitter.Valid() && emitter.sent == old(emitter.sent) + out
    ensures emitter.seen == old(emitter.seen) + Fallbacks(leftover)
  {
    hide *;
    out := [];
    NoFallbacks();
    for i := 0 to |leftover|
      invariant emitter.Valid() && emitter.sent == old(emitter.sent) + out
      invariant emitter.seen == old(emitter.seen) + Fallbacks(leftover[..i])
    {
      var more := emitter.OnText(Fallback(leftover[i]));
      out := out + more;
      FallbackStep(leftover, i);
    }
    assert leftover[..|leftover|] == leftover;
  }

  lemma NoFallbacks()
    ensures Fallbacks([]) == []
  {
  }

  lemma FallbackStep(raws: seq<string>, i: nat)
    requires i < |raws|
    ensures Fallbacks(raws[..i + 1]) == Fallbacks(raws[..i]) + Chars(Fallback(raws[i]))
  {
    hide Chars, Fallback;
    assert raws[..i + 1] == raws[..i] + [raws[i]];
    FallbacksAppend(raws[..i], [raws[i]]);
    assert [raws[i]][1..] == [];
  }

  /** collect_generation: the text up to the first hit, in one string. */
  method CollectText(stops: seq<string>, pieces: seq<string>) returns (content: string, hit: Option<string>)
    ensures var o := Detect(NonEmpty(stops), "", pieces); content == o.content && hit == Stopped(o)
  {
    hide *;
    var detector := new StopDetector(stops);
    for i := 0 to |pieces|
      invariant detector.Valid() && detector.taken == ""
      invariant Detect(detector.stops, "", pieces) == Detect(detector.stops, detector.seen, pieces[i..])
    {
      DetectStep(detector.stops, detector.seen, pieces, i);
      hit := detector.Push(pieces[i]);
      if hit.Some? {
        content := detector.Finish();
        assert detector.taken + detector.ready + detector.held == content;
        return;
      }
    }
    hit := None;
    content := detector.Finish();
    AllHeld(detector);
    assert "" + content == content;
    DetectDone(detector.stops, detector.seen, pieces[|pieces|..]);
  }

  /** Blocks that are not blank text. */
  function Retain(blocks: seq<Block>): seq<Block> {
    if blocks == [] then []
    else (if blocks[0].TextBlock? && Trim(blocks[0].text) == "" then [] else [blocks[0]]) + Retain(blocks[1..])
  }

  function IfShown(b: Block): seq<Block> {
    if b.TextBlock? then IfInk(b.text) else [b]
  }

  lemma RetainHead(blocks: seq<Block>)
    requires blocks != []
    ensures Retain(blocks) == IfShown(blocks[0]) + Retain(blocks[1..])
  {
    hide Trim, HasInk;
    if blocks[0].TextBlock? {
      TrimIsBlank(blocks[0].text);
    }
  }

  lemma {:induction false} RetainAppend(blocks: seq<Block>, b: Block)
    ensures Retain(blocks + [b]) == Retain(blocks) + IfShown(b)
  {
    hide IfShown;
    RetainHead(blocks + [b]);
    if blocks == [] {
      assert (blocks + [b])[1..] == [];
      assert IfShown(b) + [] == [] + IfShown(b);
    } else {
      assert (blocks + [b])[1..] == blocks[1..] + [b];
      RetainHead(blocks);
      RetainAppend(blocks[1..], b);
    }
  }

  function TrimLast(blocks: seq<Block>): seq<Block> {
    if blocks != [] && blocks[|blocks| - 1].TextBlock?
    then blocks[..|blocks| - 1] + [TextBlock(TrimEnd(blocks[|blocks| - 1].text))]
    else blocks
  }

  /** The block that the next text joins, and the blocks before it. */
  function OpenRun(content: seq<Block>): (string, seq<Block>) {
    if content != [] && content[|content| - 1].TextBlock?
    then (content[|content| - 1].text, content[..|content| - 1])
    else ("", content)
  }

  ghost predicate Assembled(seen: seq<Item>, content: seq<Block>) {
    Tracks(seen, Retain(OpenRun(content).1), OpenRun(content).0)
  }

  lemma RetainOpen(content: seq<Block>)
    ensures Retain(content) == Retain(OpenRun(content).1) + IfInk(OpenRun(content).0)
  {
    hide Retain;
    var n := |content|;
    if content != [] && content[n - 1].TextBlock? {
      assert content == content[..n - 1] + [content[n - 1]];
      RetainAppend(content[..n - 1], content[n - 1]);
    }
  }

  method Assemble(events: seq<ParsedEvent>) returns (content: seq<Block>, toolCalls: nat)
    ensures content == TrimLast(BlocksOf("", Flat(events))) && toolCalls == Calls(Flat(events))
  {
    hide Assembled, Flat, Calls, Items, BlocksOf, Fallback, Retain, TrimLast;
    content, toolCalls := [], 0;
    AssembledNothing();
    for i := 0 to |events|
      invariant Assembled(Flat(events[..i]), content) && toolCalls == Calls(Flat(events[..i]))
    {
      assert events[..i + 1] == events[..i] + [events[i]];
      FlatAppend(events[..i], [events[i]]);
      FlatOne(events[i]);
      CallsAppend(Flat(events[..i]), Items(events[i]));
      AssembledEvent(Flat(events[..i]), content, events[i]);
      match events[i]
      case Text(text) =>
        var n := |content|;
        if n > 0 && content[n - 1].TextBlock? {
          content := content[n - 1 := TextBlock(content[n - 1].text + text)];
        } else {
          content := content + [TextBlock(text)];
        }
      case ToolCall(name, input) =>
        toolCalls := toolCalls + 1;
        content := content + [ToolBlock(name, input)];
      case Malformed(raw, _) =>
        content := content + [TextBlock(Fallback(raw))];
    }
    assert events[..|events|] == events;
    AssembledAll(Flat(events), content);
    content := Retain(content);
    content := TrimLast(content);
  }

  lemma AssembledNothing()
    ensures Assembled(Flat([]), []) && Calls(Flat([])) == 0
  {
    TracksNothing();
  }

  function WithEvent(content: seq<Block>, e: ParsedEvent): seq<Block> {
    match e
    case Text(text) =>
      var n := |content|;
      if n > 0 && content[n - 1].TextBlock? then content[n - 1 := TextBlock(content[n - 1].text + text)]
      else content + [TextBlock(text)]
    case ToolCall(name, input) => content + [ToolBlock(name, input)]
    case Malformed(raw, _) => content + [TextBlock(Fallback(raw))]
  }

  lemma AssembledEvent(seen: seq<Item>, content: seq<Block>, e: ParsedEvent)
    requires Assembled(seen, content)
    ensures Assembled(seen + Items(e), WithEvent(content, e))
    ensures Calls(Items(e)) == if e.ToolCall? then 1 else 0
  {
    hide Tracks, Retain, HasInk, Fallback, Chars;
    var (run, done) := OpenRun(content);
    var after := WithEvent(content, e);
    RetainOpen(content);
    assert after == after[..|after| - 1] + [after[|after| - 1]];
    match e
    case Text(text) =>
      TracksText(seen, Retain(done), run, text);
      NoCallsInText(text);
      assert "" + text == text;
      assert OpenRun(after).1 == done;
    case ToolCall(name, input) =>
      TracksCall(seen, Retain(done), run, name, input);
      OneCall(name, input);
      RetainAppend(content, ToolBlock(name, input));
    case Malformed(raw, error) =>
      TracksLost(seen, Retain(done), run, raw, error);
      assert [Lost(raw, error)][1..] == [];
      assert OpenRun(after).1 == content;
  }

  lemma AssembledAll(seen: seq<Item>, content: seq<Block>)
    requires Assembled(seen, content)
    ensures Retain(content) == BlocksOf("", seen)
  {
    hide HasInk;
    var (run, done) := OpenRun(content);
    RetainOpen(content);
    assert TracksWith(seen, Retain(done), run, []);
    assert seen + [] == seen;
  }

  /** The non-streaming endpoint for one generation. */
  method CollectMessage(reader: string -> ToolResult, stops: seq<string>, pieces: seq<string>)
    returns (content: seq<Block>, hit: Option<string>, toolCalls: nat)
    ensures hit == Stopped(Detect(NonEmpty(stops), "", pieces))
    ensures toolCalls == Calls(Reading(reader, stops, pieces))
    ensures content == TrimLast(BlocksOf("", Reading(reader, stops, pieces)))
  {
    var text;
    text, hit := CollectText(stops, pieces);
    ReadingIs(reader, stops, pieces, text);
    hide *;
    var parser := new OutputParser(reader);
    var batch := parser.Push(text);
    assert "" + text == text;
    var last := parser.Finish();
    ReadingDone(reader, text, batch, parser.state, parser.buf);
    batch := batch + last;
    content, toolCalls := Assemble(batch);
  }

  lemma ReadingIs(reader: string -> ToolResult, stops: seq<string>, pieces: seq<string>, text: string)
    requires text == Detect(NonEmpty(stops), "", pieces).content
    ensures Flat(Parse(reader, InText, text)) == Reading(reader, stops, pieces)
  {
  }

  /** Streamed or collected, and however the two were cut: without malformed calls a message has the same blocks
      (the end of the last text is trimmed when collected, and only then), the same stop and the same number of
      calls. */
  lemma ModesAgree(reader: string -> ToolResult, stops: seq<string>, streamed: seq<string>, collected: seq<string>)
    requires Concat(streamed) == Concat(collected)
    requires streamed == collected || CutsAgree(NonEmpty(stops))
    requires LostOf(Reading(reader, stops, collected)) == []
    ensures StreamedBlocks(Reading(reader, stops, streamed)) == BlocksOf("", Reading(reader, stops, collected))
    ensures TrimLast(StreamedBlocks(Reading(reader, stops, streamed)))
         == TrimLast(BlocksOf("", Reading(reader, stops, collected)))
    ensures Stopped(Detect(NonEmpty(stops), "", streamed)) == Stopped(Detect(NonEmpty(stops), "", collected))
    ensures Calls(Reading(reader, stops, streamed)) == Calls(Reading(reader, stops, collected))
  {
    hide Parse, Flat, BlocksOf, Detect;
    var items := Reading(reader, stops, collected);
    assert items == Reading(reader, stops, streamed);
    NoneLost(items);
    assert Kept(items) + [] == items;
  }
}
