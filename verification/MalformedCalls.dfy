/** What becomes of malformed tool calls, streamed and collected: exactly when nothing is lost, and exactly when the
    two modes agree (anthropic.rs). */
module MalformedCalls {
  import opened Common
  import opened Strings
  import opened Stops
  import opened Parsing
  import opened Blocks
  import opened Messages

  // ---- how much is shown ----

  /** The characters that are not white space. */
  function Ink(s: string): nat {
    if s == "" then 0 else (if IsWhite(s[0]) then 0 else 1) + Ink(s[1..])
  }

  lemma {:induction false} InkSum(a: string, b: string)
    ensures Ink(a + b) == Ink(a) + Ink(b)
  {
    if a == "" {
      assert a + b == b;
    } else {
      assert (a + b)[1..] == a[1..] + b;
      InkSum(a[1..], b);
    }
  }

  lemma {:induction false} BlankInk(s: string)
    ensures Ink(s) == 0 <==> !HasInk(s)
  {
    if s != "" {
      BlankInk(s[1..]);
      InkAppend(s[..1], s[1..]);
      assert s == s[..1] + s[1..];
    }
  }

  function ItemInk(items: seq<Item>): nat {
    if items == [] then 0
    else (match items[0]
          case Ch(c) => if IsWhite(c) then 0 else 1
          case Call(_, _) => 0
          case Lost(raw, _) => Ink(Fallback(raw))) + ItemInk(items[1..])
  }

  lemma {:induction false} ItemInkSum(a: seq<Item>, b: seq<Item>)
    ensures ItemInk(a + b) == ItemInk(a) + ItemInk(b)
  {
    if a == [] {
      assert a + b == b;
    } else {
      assert (a + b)[1..] == a[1..] + b;
      ItemInkSum(a[1..], b);
    }
  }

  lemma {:induction false} CharsInk(s: string)
    ensures ItemInk(Chars(s)) == Ink(s)
  {
    if s != "" {
      assert Chars(s)[1..] == Chars(s[1..]);
      CharsInk(s[1..]);
    }
  }

  function BlockInk(blocks: seq<Block>): nat {
    if blocks == [] then 0 else (if blocks[0].TextBlock? then Ink(blocks[0].text) else 0) + BlockInk(blocks[1..])
  }

  lemma {:induction false} BlockInkSum(a: seq<Block>, b: seq<Block>)
    ensures BlockInk(a + b) == BlockInk(a) + BlockInk(b)
  {
    if a == [] {
      assert a + b == b;
    } else {
      assert (a + b)[1..] == a[1..] + b;
      BlockInkSum(a[1..], b);
    }
  }

  lemma {:induction false} TrimEndInk(s: string)
    ensures Ink(TrimEnd(s)) == Ink(s)
  {
    if s != "" && IsWhite(s[|s| - 1]) {
      var t := s[..|s| - 1];
      TrimEndInk(t);
      InkSum(t, [s[|s| - 1]]);
      assert s == t + [s[|s| - 1]];
    }
  }

  lemma TextInk(t: string)
    ensures BlockInk([TextBlock(t)]) == Ink(t)
  {
    assert [TextBlock(t)][1..] == [];
  }

  lemma TrimLastInk(blocks: seq<Block>)
    ensures BlockInk(TrimLast(blocks)) == BlockInk(blocks) && |TrimLast(blocks)| == |blocks|
  {
    hide BlockInk, Ink, TrimEnd;
    var n := |blocks|;
    if n > 0 && blocks[n - 1].TextBlock? {
      var t := blocks[n - 1].text;
      TrimEndInk(t);
      TextInk(t);
      TextInk(TrimEnd(t));
      BlockInkSum(blocks[..n - 1], [TextBlock(t)]);
      BlockInkSum(blocks[..n - 1], [TextBlock(TrimEnd(t))]);
      assert blocks == blocks[..n - 1] + [TextBlock(t)];
    }
  }

  lemma OneRun(run: string)
    ensures BlockInk(IfInk(run)) == Ink(run)
  {
    hide Ink;
    BlankInk(run);
    if HasInk(run) {
      assert [TextBlock(run)][1..] == [];
    }
  }

  /** The blocks show every character that is not white space. */
  lemma {:induction false} BlocksInk(run: string, items: seq<Item>)
    ensures BlockInk(BlocksOf(run, items)) == Ink(run) + ItemInk(items)
    decreases |items|
  {
    hide HasInk, Fallback, IsWhite, IfInk, BlockInk;
    OneRun(run);
    if items != [] {
      match items[0]
      case Ch(c) =>
        InkSum(run, [c]);
        BlocksInk(run + [c], items[1..]);
      case Call(name, input) =>
        BlocksInk("", items[1..]);
        OneTool(name, input);
        BlockInkSum(IfInk(run), [ToolBlock(name, input)]);
        BlockInkSum(IfInk(run) + [ToolBlock(name, input)], BlocksOf("", items[1..]));
      case Lost(raw, _) =>
        BlocksInk(Fallback(raw), items[1..]);
        BlockInkSum(IfInk(run), BlocksOf(Fallback(raw), items[1..]));
    }
  }

  lemma OneTool(name: string, input: string)
    ensures BlockInk([ToolBlock(name, input)]) == 0
  {
    assert [ToolBlock(name, input)][1..] == [];
  }

  lemma FallbackInk(raw: string)
    ensures HasInk(Fallback(raw)) && Ink(Fallback(raw)) > 0
  {
    assert !IsWhite(Fallback(raw)[0]);
    BlankInk(Fallback(raw));
  }

  lemma {:induction false} FallbacksInk(raws: seq<string>)
    ensures ItemInk(Fallbacks(raws)) >= |raws|
  {
    if raws != [] {
      hide Ink, ItemInk, Fallback;
      FallbacksInk(raws[1..]);
      FallbackInk(raws[0]);
      CharsInk(Fallback(raws[0]));
      ItemInkSum(Chars(Fallback(raws[0])), Fallbacks(raws[1..]));
    } else {
      assert ItemInk([]) == 0;
    }
  }

  // ---- when nothing is lost ----

  /** Everything the generation said, the malformed calls as text at the end. */
  function ShownBlocks(items: seq<Item>): seq<Block> {
    BlocksOf("", Kept(items) + Fallbacks(LostOf(items)))
  }

  /** Streaming shows everything, as its comment says, if and only if there is no malformed call or no good one. */
  lemma NothingLostIff(items: seq<Item>)
    ensures StreamedBlocks(items) == ShownBlocks(items) <==> LostOf(items) == [] || Calls(items) == 0
  {
    hide BlocksOf, Ink, ItemInk, BlockInk, Kept, LostOf, Calls;
    var raws := LostOf(items);
    if raws == [] {
      assert Fallbacks(raws) == [];
    } else if Calls(items) > 0 {
      FallbacksInk(raws);
      assert Kept(items) + [] == Kept(items);
      BlocksInk("", Kept(items));
      BlocksInk("", Kept(items) + Fallbacks(raws));
      ItemInkSum(Kept(items), Fallbacks(raws));
    }
  }

  // ---- when the two modes agree ----

  /** Text, one malformed call, text. */
  predicate LoneLost(items: seq<Item>, u: string, raw: string, error: string, v: string) {
    items == Chars(u) + [Lost(raw, error)] + Chars(v)
  }

  lemma {:induction false} AllChars(items: seq<Item>) returns (s: string)
    requires LostOf(items) == [] && Calls(items) == 0
    ensures items == Chars(s)
  {
    if items == [] {
      s := "";
    } else {
      var t := AllChars(items[1..]);
      s := [items[0].c] + t;
      assert items == [items[0]] + items[1..];
    }
  }

  lemma {:induction false} LoneLostIs(items: seq<Item>) returns (u: string, raw: string, error: string, v: string)
    requires |LostOf(items)| == 1 && Calls(items) == 0
    ensures LoneLost(items, u, raw, error, v) && LostOf(items) == [raw] && Kept(items) == Chars(u) + Chars(v)
  {
    if items[0].Lost? {
      v := AllChars(items[1..]);
      u, raw, error := "", items[0].raw, items[0].error;
      assert items == Chars(u) + [items[0]] + items[1..];
      NoneLost(items[1..]);
      assert Kept(items) == [] + items[1..] == Chars(u) + Chars(v);
    } else {
      u, raw, error, v := LoneLostIs(items[1..]);
      assert items[0].Ch?;
      assert [items[0]] + Chars(u) == Chars([items[0].c] + u);
      assert items == [items[0]] + items[1..];
      u := [items[0].c] + u;
      assert Kept(items) == [items[0]] + Kept(items[1..]);
    }
  }

  /** Collected, every malformed call begins a block. */
  lemma {:induction false} BlockPerLost(run: string, items: seq<Item>)
    ensures |BlocksOf(run, items)| >= |LostOf(items)| + if HasInk(run) then 1 else 0
    decreases |items|
  {
    hide Fallback, HasInk;
    if items != [] {
      match items[0]
      case Ch(c) =>
        InkAppend(run, [c]);
        BlockPerLost(run + [c], items[1..]);
      case Call(_, _) => BlockPerLost("", items[1..]);
      case Lost(raw, _) =>
        FallbackInk(raw);
        BlockPerLost(Fallback(raw), items[1..]);
    }
  }

  lemma TextIsOneBlock(s: string)
    ensures BlocksOf("", Chars(s)) == IfInk(s)
  {
    hide IfInk;
    RunOfChars("", s, []);
    assert Chars(s) + [] == Chars(s) && "" + s == s;
  }

  /** Streamed without a good call, everything is one text. */
  lemma {:induction false} FallbackText(raws: seq<string>) returns (s: string)
    ensures Fallbacks(raws) == Chars(s)
  {
    if raws == [] {
      s := "";
    } else {
      var t := FallbackText(raws[1..]);
      s := Fallback(raws[0]) + t;
      CharsJoin(Fallback(raws[0]), t);
    }
  }

  lemma CharsJoin(a: string, b: string)
    ensures Chars(a + b) == Chars(a) + Chars(b)
  {
  }

  lemma {:induction false} KeptText(items: seq<Item>) returns (s: string)
    requires Calls(items) == 0
    ensures Kept(items) == Chars(s)
  {
    if items == [] {
      s := "";
    } else {
      var t := KeptText(items[1..]);
      if items[0].Lost? {
        s := t;
        assert [] + Kept(items[1..]) == Kept(items[1..]);
      } else {
        s := [items[0].c] + t;
        CharsJoin([items[0].c], t);
        assert Chars([items[0].c]) == [items[0]];
      }
    }
  }

  lemma StreamedIsShort(items: seq<Item>)
    requires Calls(items) == 0
    ensures |StreamedBlocks(items)| <= 1
  {
    hide Kept, LostOf, Calls, HasInk, BlocksOf;
    var a := KeptText(items);
    var b := FallbackText(LostOf(items));
    CharsJoin(a, b);
    TextIsOneBlock(a + b);
  }

  /** One malformed call between texts: the fallback follows them when streamed, and stays in place when collected. */
  lemma LoneLostBlocks(u: string, raw: string, error: string, v: string)
    ensures BlocksOf("", Chars(u) + [Lost(raw, error)] + Chars(v)) == IfInk(u) + [TextBlock(Fallback(raw) + v)]
    ensures BlocksOf("", Chars(u) + Chars(v) + Chars(Fallback(raw))) == [TextBlock(u + v + Fallback(raw))]
  {
    hide HasInk, Fallback, Chars;
    var f := Fallback(raw);
    FallbackInk(raw);
    assert Chars(u) + [Lost(raw, error)] + Chars(v) == Chars(u) + ([Lost(raw, error)] + Chars(v));
    RunOfChars("", u, [Lost(raw, error)] + Chars(v));
    assert "" + u == u && ([Lost(raw, error)] + Chars(v))[1..] == Chars(v);
    RunOfChars(f, v, []);
    assert Chars(v) + [] == Chars(v);
    InkAppend(f, v);
    CharsJoin(u, v);
    CharsJoin(u + v, f);
    TextIsOneBlock(u + v + f);
    InkAppend(u + v, f);
  }

  /** The one message with a malformed call that both modes show alike: nothing before it, and after it at most text
      that gives the same whichever side of the fallback it stands on (such as none at all). */
  predicate OnlyLost(items: seq<Item>) {
    && |LostOf(items)| == 1 && Calls(items) == 0 && items[0].Lost?
    && var f, t := Chars(Fallback(items[0].raw)), items[1..];
       f + t == t + f
  }

  lemma {:induction false} CharsSame(a: string, b: string)
    ensures Chars(a) == Chars(b) <==> a == b
  {
    if Chars(a) == Chars(b) {
      forall i | 0 <= i < |a| ensures a[i] == b[i] {
        assert Chars(a)[i] == Chars(b)[i];
      }
    }
  }

  /** Trimming stops at the first character that is not white space. */
  lemma {:induction false} TrimEndAfter(a: string, v: string)
    requires a != "" && !IsWhite(a[|a| - 1])
    ensures TrimEnd(a + v) == a + TrimEnd(v)
  {
    hide IsWhite;
    if v == "" {
      assert a + v == a;
    } else {
      assert (a + v)[..|a + v| - 1] == a + v[..|v| - 1];
      TrimEndAfter(a, v[..|v| - 1]);
    }
  }

  lemma {:induction false} TrimEndShorter(s: string)
    ensures |TrimEnd(s)| <= |s| && (|TrimEnd(s)| == |s| ==> TrimEnd(s) == s)
    ensures TrimEnd(TrimEnd(s)) == TrimEnd(s)
  {
    if s != "" {
      TrimEndShorter(s[..|s| - 1]);
    }
  }

  lemma FallbackDark(raw: string)
    ensures var f := Fallback(raw); f != "" && !IsWhite(f[0]) && !IsWhite(f[|f| - 1])
  {
  }

  lemma TrimOne(done: seq<Block>, t: string)
    ensures TrimLast(done + [TextBlock(t)]) == done + [TextBlock(TrimEnd(t))]
  {
    assert (done + [TextBlock(t)])[..|done|] == done;
  }

  /** Text `u`, then `v` and the fallback `f` in one order or the other, trimmed: the same only if nothing precedes
      the fallback and nothing tells the orders apart. */
  lemma TrimmedOrders(u: string, v: string, f: string)
    requires f != "" && !IsWhite(f[0]) && !IsWhite(f[|f| - 1])
    requires IfInk(u) + [TextBlock(TrimEnd(f + v))] == [TextBlock(TrimEnd(u + v + f))]
    ensures u == "" && f + v == v + f
  {
    hide TrimEnd, HasInk, IsWhite;
    TrimEndAfter(f, v);
    TrimEndAfter(u + v + f, "");
    TrimEndShorter(v);
    TrimEndShorter("");
    assert u + v + f + "" == u + v + f;
    var shown := IfInk(u) + [TextBlock(TrimEnd(f + v))];
    assert shown[|shown| - 1] == TextBlock(f + TrimEnd(v));
    assert f + TrimEnd(v) == u + v + f;
    assert |u| == 0;
    assert u + v + f == v + f;
  }

  lemma LoneLostHead(items: seq<Item>, u: string, raw: string, error: string, v: string)
    requires LoneLost(items, u, raw, error, v)
    ensures items != [] && (u != "" ==> items[0].Ch?)
  {
    assert u != "" ==> items[0] == Chars(u)[0];
  }

  /** A lone malformed call, when the messages are the same: it is all there is, up to such text. */
  lemma LoneLostAgrees(items: seq<Item>, u: string, raw: string, error: string, v: string)
    requires LoneLost(items, u, raw, error, v) && LostOf(items) == [raw] && Calls(items) == 0
    requires Kept(items) == Chars(u) + Chars(v)
    ensures TrimLast(StreamedBlocks(items)) == TrimLast(BlocksOf("", items)) ==> OnlyLost(items)
    ensures OnlyLost(items) ==> StreamedBlocks(items) == BlocksOf("", items)
  {
    hide BlocksOf, Kept, LostOf, Calls, Fallback, TrimLast, TrimEnd, IsWhite, HasInk;
    var f := Fallback(raw);
    assert Fallbacks([raw]) == Chars(f) by {
      assert [raw][1..] == [] && Chars(f) + [] == Chars(f);
    }
    LoneLostBlocks(u, raw, error, v);
    assert StreamedBlocks(items) == [] + [TextBlock(u + v + f)];
    TrimOne([], u + v + f);
    TrimOne(IfInk(u), f + v);
    FallbackDark(raw);
    LoneLostHead(items, u, raw, error, v);
    if TrimLast(StreamedBlocks(items)) == TrimLast(BlocksOf("", items)) {
      assert [] + [TextBlock(TrimEnd(u + v + f))] == [TextBlock(TrimEnd(u + v + f))];
      TrimmedOrders(u, v, f);
      assert Chars(u) == [] && items[0] == Lost(raw, error) && items[1..] == Chars(v);
      CharsJoin(f, v);
      CharsJoin(v, f);
    }
    if OnlyLost(items) {
      assert Chars(u) == [] && items[1..] == Chars(v);
      CharsJoin(f, v);
      CharsJoin(v, f);
      CharsSame(f + v, v + f);
      assert u + v + f == v + f;
      NoInk();
      assert [] + [TextBlock(f + v)] == [TextBlock(f + v)];
    }
  }

  /** There is no malformed call, or nothing but one. */
  predicate ShownAlike(items: seq<Item>) {
    LostOf(items) == [] || OnlyLost(items)
  }

  /** The blocks do not end in white space. */
  predicate EndsDark(blocks: seq<Block>) {
    blocks != [] && blocks[|blocks| - 1].TextBlock? ==>
      var t := blocks[|blocks| - 1].text; t == "" || !IsWhite(t[|t| - 1])
  }

  /** Trimming is done once, and changes nothing exactly when there is nothing to trim. */
  lemma TrimmedDark(blocks: seq<Block>)
    ensures EndsDark(TrimLast(blocks)) && TrimLast(TrimLast(blocks)) == TrimLast(blocks)
    ensures TrimLast(blocks) == blocks <==> EndsDark(blocks)
  {
    var n := |blocks|;
    if n > 0 && blocks[n - 1].TextBlock? {
      var t := blocks[n - 1].text;
      TrimEndDark(t);
      TrimEndShorter(t);
      TrimOne(blocks[..n - 1], t);
      TrimOne(blocks[..n - 1], TrimEnd(t));
      assert blocks == blocks[..n - 1] + [TextBlock(t)];
      assert TrimLast(blocks)[n - 1] == TextBlock(TrimEnd(t));
    }
  }

  lemma {:induction false} TrimEndDark(s: string)
    ensures TrimEnd(s) == "" || !IsWhite(TrimEnd(s)[|TrimEnd(s)| - 1])
    ensures TrimEnd(s) == s <==> s == "" || !IsWhite(s[|s| - 1])
  {
    hide IsWhite;
    if s != "" && IsWhite(s[|s| - 1]) {
      TrimEndDark(s[..|s| - 1]);
      TrimEndShorter(s[..|s| - 1]);
    }
  }

  /** Messages that are the same once trimmed come of generations that both modes show alike. */
  lemma SameShownAlike(items: seq<Item>)
    requires TrimLast(StreamedBlocks(items)) == TrimLast(BlocksOf("", items))
    ensures ShownAlike(items)
  {
    hide Kept, LostOf, Calls, BlocksOf, ItemInk, BlockInk, TrimLast, OnlyLost;
    TrimLastInk(StreamedBlocks(items));
    TrimLastInk(BlocksOf("", items));
    if LostOf(items) == [] {
    } else if Calls(items) > 0 {
      BlocksInk("", items);
      assert Kept(items) + [] == Kept(items);
      BlocksInk("", Kept(items));
      KeptInk(items);
      FallbacksInk(LostOf(items));
      assert false;
    } else if |LostOf(items)| > 1 {
      BlockPerLost("", items);
      StreamedIsShort(items);
      assert false;
    } else {
      var u, raw, error, v := LoneLostIs(items);
      LoneLostAgrees(items, u, raw, error, v);
    }
  }

  lemma ShownAlikeSame(items: seq<Item>)
    requires ShownAlike(items)
    ensures StreamedBlocks(items) == BlocksOf("", items)
  {
    hide Kept, LostOf, Calls, BlocksOf;
    if LostOf(items) == [] {
      NoneLost(items);
      assert Fallbacks([]) == [] && items + [] == items;
    } else {
      var u, raw, error, v := LoneLostIs(items);
      LoneLostAgrees(items, u, raw, error, v);
    }
  }

  /** Streamed blocks are not trimmed, those of a collected message are. Apart from that the two modes show the same
      if and only if there is no malformed call, or nothing but one; and they show exactly the same if and only if,
      besides, the streamed blocks do not end in white space. */
  lemma ModesAgreeIff(items: seq<Item>)
    ensures StreamedBlocks(items) == BlocksOf("", items) <==> ShownAlike(items)
    ensures TrimLast(StreamedBlocks(items)) == TrimLast(BlocksOf("", items)) <==> ShownAlike(items)
    ensures StreamedBlocks(items) == TrimLast(BlocksOf("", items))
            <==> ShownAlike(items) && EndsDark(StreamedBlocks(items))
  {
    hide *;
    TrimmedDark(StreamedBlocks(items));
    TrimmedDark(BlocksOf("", items));
    if ShownAlike(items) {
      ShownAlikeSame(items);
    }
    if TrimLast(StreamedBlocks(items)) == TrimLast(BlocksOf("", items)) {
      SameShownAlike(items);
    }
  }

  /** The same for the two messages made of one generated text, however the two were cut. */
  lemma ModesAgreeExactly(reader: string -> ToolResult, stops: seq<string>, streamed: seq<string>,
                          collected: seq<string>)
    requires Concat(streamed) == Concat(collected)
    requires streamed == collected || CutsAgree(NonEmpty(stops))
    ensures var items := Reading(reader, stops, collected);
      var shown, sent := StreamedBlocks(Reading(reader, stops, streamed)), TrimLast(BlocksOf("", items));
      && (TrimLast(shown) == sent <==> ShownAlike(items))
      && (shown == sent <==> ShownAlike(items) && EndsDark(shown))
  {
    hide Parse, Flat, BlocksOf, Detect, ShownAlike, EndsDark, TrimLast;
    var items := Reading(reader, stops, collected);
    assert items == Reading(reader, stops, streamed);
    ModesAgreeIff(items);
  }

  /** A generation that ends in a blank: streamed with it, collected without. */
  lemma TrailingBlank()
    ensures var items := [Ch('h'), Ch(' ')];
      && ShownAlike(items) && StreamedBlocks(items) == [TextBlock("h ")]
      && TrimLast(BlocksOf("", items)) == [TextBlock("h")]
  {
    var items := [Ch('h'), Ch(' ')];
    assert items == Chars("h ");
    TextKept("h ");
    TextIsOneBlock("h ");
    assert Kept(items) + Fallbacks([]) == items;
    assert HasInk("h ") by {
      assert !IsWhite("h "[0]);
    }
    assert "h "[..1] == "h";
    assert TrimEnd("h ") == "h";
    TrimOne([], "h ");
    assert [] + [TextBlock("h ")] == [TextBlock("h ")] && [] + [TextBlock("h")] == [TextBlock("h")];
    ShownAlikeSame(items);
  }

  lemma {:induction false} KeptInk(items: seq<Item>)
    ensures ItemInk(items) == ItemInk(Kept(items)) + ItemInk(Fallbacks(LostOf(items)))
  {
    if items != [] {
      hide Ink, Fallback;
      KeptInk(items[1..]);
      var k := if items[0].Lost? then [] else [items[0]];
      ItemInkSum(k, Kept(items[1..]));
      assert k != [] ==> k[1..] == [];
      var l := if items[0].Lost? then [items[0].raw] else [];
      FallbacksAppend(l, LostOf(items[1..]));
      ItemInkSum(Fallbacks(l), Fallbacks(LostOf(items[1..])));
      if items[0].Lost? {
        assert l[1..] == [] && Fallbacks(l) == Chars(Fallback(items[0].raw)) + [];
        assert Chars(Fallback(items[0].raw)) + [] == Chars(Fallback(items[0].raw));
        CharsInk(Fallback(items[0].raw));
      }
    }
  }

  // ---- a generation that loses one ----

  function OneCallText(body: string): string { TOOL_OPEN + body + TOOL_CLOSE }

  /** Two calls, "x" and "y", one after the other. */
  const TWO_CALLS := OneCallText("x") + OneCallText("y")

  /** A reader that understands anything but "x". */
  function Picky(): string -> ToolResult {
    s => if s == "x" then Bad("no name") else Good("f", "{}")
  }

  lemma NothingRead()
    ensures Parse(Picky(), InText, "") == []
  {
    assert FirstMark("") == None;
  }

  lemma TwoCallsParsed()
    ensures Parse(Picky(), InText, TWO_CALLS) == [Malformed("x", "no name"), ToolCall("f", "{}")]
  {
    hide Parse, IsWhite, OneCallText;
    var rest := OneCallText("y");
    Dark("x");
    Dark("y");
    OneCallRead(Picky(), "x", rest);
    OneCallRead(Picky(), "y", "");
    assert rest + "" == rest;
    NothingRead();
    var calls := [ToolCall("f", "{}")];
    assert calls + [] == calls;
  }

  lemma Dark(s: string)
    ensures s == "x" || s == "y" ==> !IsWhite(s[0])
  {
  }

  lemma WholeText(t: string)
    ensures Detect(NonEmpty([]), "", [t]).content == t
  {
    assert "" + t == t && [t][1..] == [];
  }

  lemma TwoCallsRead()
    ensures Reading(Picky(), [], [TWO_CALLS]) == [Lost("x", "no name"), Call("f", "{}")]
  {
    hide Parse, Detect, Picky;
    WholeText(TWO_CALLS);
    TwoCallsParsed();
    FlatOne(Malformed("x", "no name"));
    FlatAppend([Malformed("x", "no name")], [ToolCall("f", "{}")]);
    FlatOne(ToolCall("f", "{}"));
    assert [Malformed("x", "no name")] + [ToolCall("f", "{}")] == [Malformed("x", "no name"), ToolCall("f", "{}")];
  }

  lemma OneCallRead(reader: string -> ToolResult, body: string, rest: string)
    requires |body| == 1 && body[0] != '<' && !IsWhite(body[0])
    ensures Parse(reader, InText, OneCallText(body) + rest)
         == [ParseToolCall(reader, body)] + Parse(reader, InText, rest)
  {
    var s := TOOL_OPEN + body + TOOL_CLOSE + rest;
    var inner := body + TOOL_CLOSE + rest;
    assert At(s, TOOL_OPEN, 0);
    FindIs(s, TOOL_OPEN, 0);
    assert FirstMark(s) == Some(Mark(0, TOOL_OPEN, InTool)) by {
      assert s[1] == 't' && !At(s, THINK_OPEN, 0) by {
        if At(s, THINK_OPEN, 0) {
          AtChar(s, THINK_OPEN, 0, 2);
        }
      }
    }
    assert s[0 + |TOOL_OPEN|..] == inner;
    assert At(inner, TOOL_CLOSE, 1);
    assert !At(inner, TOOL_CLOSE, 0) by {
      if At(inner, TOOL_CLOSE, 0) {
        AtChar(inner, TOOL_CLOSE, 0, 0);
      }
    }
    FindIs(inner, TOOL_CLOSE, 1);
    assert inner[..1] == body && inner[1 + |TOOL_CLOSE|..] == rest;
    assert Trim(body) == body;
    assert TextEvents(s[..0]) == [];
  }

  /** A malformed call before a good one. */
  lemma DropsOne(raw: string, error: string, name: string, input: string)
    ensures var items := [Lost(raw, error), Call(name, input)];
      && StreamedBlocks(items) == [ToolBlock(name, input)]
      && BlocksOf("", items) == [TextBlock(Fallback(raw)), ToolBlock(name, input)]
  {
    hide HasInk, Fallback;
    var items := [Lost(raw, error), Call(name, input)];
    assert items[1..] == [Call(name, input)] && items[1..][1..] == [];
    OneCall(name, input);
    assert Kept(items[1..]) == [Call(name, input)];
    assert Kept(items) == [Call(name, input)] && Calls(items) == 1;
    assert Kept(items) + [] == [Call(name, input)];
    NoInk();
    FallbackInk(raw);
    assert BlocksOf("", [Call(name, input)]) == IfInk("") + [ToolBlock(name, input)] + BlocksOf("", []);
    assert BlocksOf(Fallback(raw), [Call(name, input)])
      == IfInk(Fallback(raw)) + [ToolBlock(name, input)] + BlocksOf("", []);
  }

  /** This generation's first call is shown when the message is collected, and lost when it is streamed. */
  lemma StreamingDropsMalformed()
    ensures var items := Reading(Picky(), [], [TWO_CALLS]);
      && StreamedBlocks(items) == [ToolBlock("f", "{}")]
      && BlocksOf("", items) == [TextBlock(Fallback("x")), ToolBlock("f", "{}")]
  {
    hide *;
    TwoCallsRead();
    DropsOne("x", "no name", "f", "{}");
  }
}
