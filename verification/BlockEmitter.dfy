/** The content-block protocol of a streamed message (anthropic.rs). */
module Blocks {
  import opened Common
  import opened Parsing

  datatype Block = TextBlock(text: string) | ToolBlock(name: string, input: string)

  datatype Sse =
    | TextStart(index: nat)
    | ToolStart(index: nat, name: string)
    | TextDelta(index: nat, text: string)
    | InputDelta(index: nat, json: string)
    | Stop(index: nat)

  /** What a client has assembled: the closed blocks and the open one. */
  datatype Client = Client(done: seq<Block>, open: Option<Block>)

  /** A client that insists on the protocol: one block open at a time, numbered in order. */
  function Receive(c: Client, e: Sse): Option<Client> {
    if e.index != |c.done| then None
    else match (e, c.open)
      case (TextStart(_), None) => Some(c.(open := Some(TextBlock(""))))
      case (ToolStart(_, name), None) => Some(c.(open := Some(ToolBlock(name, ""))))
      case (TextDelta(_, more), Some(TextBlock(text))) => Some(c.(open := Some(TextBlock(text + more))))
      case (InputDelta(_, json), Some(ToolBlock(name, input))) => Some(c.(open := Some(ToolBlock(name, input + json))))
      case (Stop(_), Some(block)) => Some(Client(c.done + [block], None))
      case _ => None
  }

  function ReceiveAll(c: Client, events: seq<Sse>): Option<Client>
    decreases |events|
  {
    if events == [] then Some(c)
    else match Receive(c, events[0])
      case None => None
      case Some(c1) => ReceiveAll(c1, events[1..])
  }

  lemma {:induction false} ReceiveAppend(c: Client, a: seq<Sse>, b: seq<Sse>)
    ensures ReceiveAll(c, a + b) ==
            match ReceiveAll(c, a) { case None => None case Some(c1) => ReceiveAll(c1, b) }
    decreases |a|
  {
    if a == [] {
      assert a + b == b;
    } else {
      assert (a + b)[1..] == a[1..] + b;
      match Receive(c, a[0])
      case None =>
      case Some(c1) => ReceiveAppend(c1, a[1..], b);
    }
  }

  /** Some character is not white space. */
  predicate HasInk(s: string) {
    exists i :: 0 <= i < |s| && !IsWhite(s[i])
  }

  lemma InkAppend(a: string, b: string)
    ensures HasInk(a + b) <==> HasInk(a) || HasInk(b)
  {
    if HasInk(a) {
      var i :| 0 <= i < |a| && !IsWhite(a[i]);
      assert (a + b)[i] == a[i];
    }
    if HasInk(b) {
      var i :| 0 <= i < |b| && !IsWhite(b[i]);
      assert (a + b)[|a| + i] == b[i];
    }
  }

  /** str::trim leaves nothing exactly of white space. */
  lemma TrimIsBlank(s: string)
    ensures Trim(s) == "" <==> !HasInk(s)
  {
    StartInk(s);
    EndInk(TrimStart(s));
  }

  lemma {:induction false} StartInk(s: string)
    ensures HasInk(TrimStart(s)) <==> HasInk(s)
    ensures TrimStart(s) != "" ==> HasInk(s)
  {
    if s != "" {
      if IsWhite(s[0]) {
        StartInk(s[1..]);
        InkAppend(s[..1], s[1..]);
        assert s == s[..1] + s[1..];
      }
    }
  }

  lemma {:induction false} EndInk(s: string)
    ensures HasInk(TrimEnd(s)) <==> HasInk(s)
    ensures TrimEnd(s) != "" ==> HasInk(s)
  {
    if s != "" {
      var n := |s| - 1;
      if IsWhite(s[n]) {
        EndInk(s[..n]);
        InkAppend(s[..n], s[n..]);
        assert s == s[..n] + s[n..];
      }
    }
  }

  function IfInk(run: string): seq<Block> {
    if HasInk(run) then [TextBlock(run)] else []
  }

  function Fallback(raw: string): string {
    TOOL_OPEN + "\n" + raw + "\n" + TOOL_CLOSE
  }

  /** A malformed call is shown with its tags and its whole text between them. */
  lemma FallbackShows(raw: string)
    ensures var f := Fallback(raw);
      && "<tool_call>\n" <= f && |f| == |raw| + 25
      && f[12..12 + |raw|] == raw && f[12 + |raw|..] == "\n</tool_call>"
  {
    var f := Fallback(raw);
    assert f == "<tool_call>\n" + raw + "\n</tool_call>";
  }

  /** The specification: one block for every tool call, and one for every text run between them that has ink.
      A malformed call left in place is text that starts a run of its own. */
  function BlocksOf(run: string, items: seq<Item>): seq<Block>
    decreases |items|
  {
    if items == [] then IfInk(run)
    else match items[0]
      case Ch(c) => BlocksOf(run + [c], items[1..])
      case Call(name, input) => IfInk(run) + [ToolBlock(name, input)] + BlocksOf("", items[1..])
      case Lost(raw, _) => IfInk(run) + BlocksOf(Fallback(raw), items[1..])
  }

  lemma {:induction false} RunOfChars(run: string, s: string, rest: seq<Item>)
    ensures BlocksOf(run, Chars(s) + rest) == BlocksOf(run + s, rest)
    decreases |s|
  {
    if s == "" {
      assert Chars(s) + rest == rest && run + s == run;
    } else {
      assert (Chars(s) + rest)[1..] == Chars(s[1..]) + rest;
      assert run + s == run + [s[0]] + s[1..];
      RunOfChars(run + [s[0]], s[1..], rest);
    }
  }

  function Calls(items: seq<Item>): nat {
    if items == [] then 0 else (if items[0].Call? then 1 else 0) + Calls(items[1..])
  }

  lemma {:induction false} CallsAppend(a: seq<Item>, b: seq<Item>)
    ensures Calls(a + b) == Calls(a) + Calls(b)
  {
    if a == [] {
      assert a + b == b;
    } else {
      assert (a + b)[1..] == a[1..] + b;
      CallsAppend(a[1..], b);
    }
  }

  lemma {:induction false} NoCallsInText(s: string)
    ensures Calls(Chars(s)) == 0
  {
    if s != "" {
      assert Chars(s)[1..] == Chars(s[1..]);
      NoCallsInText(s[1..]);
    }
  }

  /** With `seen` behind it, a client holding (done, run) is where the specification is. */
  ghost predicate Tracks(seen: seq<Item>, done: seq<Block>, run: string) {
    forall rest: seq<Item> :: TracksWith(seen, done, run, rest)
  }

  ghost predicate TracksWith(seen: seq<Item>, done: seq<Block>, run: string, rest: seq<Item>) {
    BlocksOf("", seen + rest) == done + BlocksOf(run, rest)
  }

  lemma TracksText(seen: seq<Item>, done: seq<Block>, run: string, text: string)
    requires Tracks(seen, done, run)
    ensures Tracks(seen + Chars(text), done, run + text)
  {
    hide BlocksOf, Chars;
    forall rest: seq<Item> ensures TracksWith(seen + Chars(text), done, run + text, rest) {
      assert TracksWith(seen, done, run, Chars(text) + rest);
      assert seen + Chars(text) + rest == seen + (Chars(text) + rest);
      RunOfChars(run, text, rest);
    }
  }

  lemma TracksCall(seen: seq<Item>, done: seq<Block>, run: string, name: string, input: string)
    requires Tracks(seen, done, run)
    ensures Tracks(seen + [Call(name, input)], done + IfInk(run) + [ToolBlock(name, input)], "")
  {
    hide HasInk;
    forall rest: seq<Item>
      ensures TracksWith(seen + [Call(name, input)], done + IfInk(run) + [ToolBlock(name, input)], "", rest)
    {
      assert TracksWith(seen, done, run, [Call(name, input)] + rest);
      assert seen + [Call(name, input)] + rest == seen + ([Call(name, input)] + rest);
      assert ([Call(name, input)] + rest)[1..] == rest;
    }
  }

  lemma TracksLost(seen: seq<Item>, done: seq<Block>, run: string, raw: string, error: string)
    requires Tracks(seen, done, run)
    ensures Tracks(seen + [Lost(raw, error)], done + IfInk(run), Fallback(raw))
  {
    hide HasInk, Fallback;
    forall rest: seq<Item> ensures TracksWith(seen + [Lost(raw, error)], done + IfInk(run), Fallback(raw), rest) {
      assert TracksWith(seen, done, run, [Lost(raw, error)] + rest);
      assert seen + [Lost(raw, error)] + rest == seen + ([Lost(raw, error)] + rest);
      assert ([Lost(raw, error)] + rest)[1..] == rest;
    }
  }

  lemma TracksNothing()
    ensures Tracks([], [], "")
  {
    forall rest: seq<Item> ensures TracksWith([], [], "", rest) {
      assert [] + rest == rest;
    }
  }

  /** The deltas of one tool call, for a client with nothing open. */
  lemma ToolReceived(done: seq<Block>, name: string, input: string)
    ensures ReceiveAll(Client(done, None), [ToolStart(|done|, name), InputDelta(|done|, input), Stop(|done|)])
            == Some(Client(done + [ToolBlock(name, input)], None))
  {
    var e := [ToolStart(|done|, name), InputDelta(|done|, input), Stop(|done|)];
    var c1 := Client(done, Some(ToolBlock(name, "")));
    var c2 := Client(done, Some(ToolBlock(name, input)));
    assert "" + input == input;
    assert Receive(Client(done, None), e[0]) == Some(c1) && Receive(c1, e[1]) == Some(c2);
    assert e[1..] == [e[1], e[2]] && e[1..][1..] == [e[2]] && e[1..][1..][1..] == [];
    assert ReceiveAll(c2, [e[2]]) == Some(Client(done + [ToolBlock(name, input)], None));
    assert ReceiveAll(c1, e[1..]) == ReceiveAll(c2, [e[2]]);
  }

  lemma OneReceived(c: Client, e: Sse)
    ensures ReceiveAll(c, [e]) == Receive(c, e)
  {
    assert [e][1..] == [];
  }

  class BlockEmitter {
    var index: nat
    var textOpen: bool
    var pendingWs: string
    var toolCalls: nat
    // Everything read and emitted so far, and what a client makes of it.
    ghost var seen: seq<Item>
    ghost var sent: seq<Sse>
    ghost var client: Client

    ghost function Run(): string
      reads this
    {
      if client.open.Some? && client.open.value.TextBlock? then client.open.value.text else pendingWs
    }

    ghost predicate Valid()
      reads this
    {
      && ReceiveAll(Client([], None), sent) == Some(client)
      && index == |client.done|
      && textOpen == client.open.Some?
      && (textOpen ==> client.open.value.TextBlock? && pendingWs == "")
      && textOpen == HasInk(Run())
      && Tracks(seen, client.done, Run())
      && toolCalls == Calls(seen)
    }

    constructor ()
      ensures Valid() && seen == [] && sent == []
    {
      index, textOpen, pendingWs, toolCalls := 0, false, "", 0;
      seen, sent, client := [], [], Client([], None);
      new;
      TracksNothing();
    }

    /** Text opens a block at its first ink; blanks before it are kept for the block or dropped. */
    method OnText(text: string) returns (out: seq<Sse>)
      requires Valid()
      modifies this
      ensures Valid() && seen == old(seen) + Chars(text) && sent == old(sent) + out
    {
      hide BlocksOf, Tracks, ReceiveAll, IsWhite, Trim, HasInk;
      InkAppend(Run(), text);
      TracksText(seen, client.done, Run(), text);
      CallsAppend(seen, Chars(text));
      NoCallsInText(text);
      TrimIsBlank(text);
      seen := seen + Chars(text);
      if !textOpen {
        if Trim(text) == "" {
          pendingWs := pendingWs + text;
          assert sent + [] == sent;
          return [];
        }
        var delta := pendingWs + text;
        pendingWs := "";
        textOpen := true;
        out := [TextStart(index), TextDelta(index, delta)];
        TextReceived(client.done, delta);
        ReceiveAppend(Client([], None), sent, out);
        client := client.(open := Some(TextBlock(delta)));
        sent := sent + out;
      } else {
        out := [TextDelta(index, text)];
        OneReceived(client, out[0]);
        ReceiveAppend(Client([], None), sent, out);
        client := client.(open := Some(TextBlock(client.open.value.text + text)));
        sent := sent + out;
      }
    }

    method OnCall(name: string, input: string) returns (out: seq<Sse>)
      requires Valid()
      modifies this
      ensures Valid() && seen == old(seen) + [Call(name, input)] && sent == old(sent) + out
    {
      hide BlocksOf, Tracks, ReceiveAll, IsWhite, HasInk;
      NoInk();
      TracksCall(seen, client.done, Run(), name, input);
      CallsAppend(seen, [Call(name, input)]);
      OneCall(name, input);
      seen := seen + [Call(name, input)];
      pendingWs := "";
      toolCalls := toolCalls + 1;
      out := [];
      ghost var start := sent;
      assert client.done + [] == client.done;
      if textOpen {
        out := [Stop(index)];
        OneReceived(client, out[0]);
        ReceiveAppend(Client([], None), sent, out);
        client := Client(client.done + [client.open.value], None);
        sent := sent + out;
        index := index + 1;
        textOpen := false;
      }
      ghost var tool := [ToolStart(index, name), InputDelta(index, input), Stop(index)];
      assert sent + tool == start + (out + tool);
      out := out + [ToolStart(index, name), InputDelta(index, input), Stop(index)];
      ToolReceived(client.done, name, input);
      ReceiveAppend(Client([], None), sent, tool);
      client := Client(client.done + [ToolBlock(name, input)], None);
      sent := sent + tool;
      index := index + 1;
    }

    method OnEvent(event: ParsedEvent) returns (out: seq<Sse>)
      requires Valid()
      modifies this
      ensures Valid() && sent == old(sent) + out
      ensures seen == old(seen) + (if event.Malformed? then Chars(Fallback(event.raw)) else Items(event))
    {
      match event
      case Text(text) => out := OnText(text);
      case ToolCall(name, input) => out := OnCall(name, input);
      case Malformed(raw, _) => out := OnText(Fallback(raw));
    }

    /** Everything sent is a complete list of blocks: those of the text read, whatever its pieces were. */
    method Finish() returns (out: seq<Sse>)
      requires Valid()
      modifies this
      ensures sent == old(sent) + out && seen == old(seen)
      ensures ReceiveAll(Client([], None), sent) == Some(Client(BlocksOf("", seen), None))
      ensures toolCalls == Calls(seen)
    {
      assert BlocksOf("", seen) == client.done + IfInk(Run()) by {
        assert TracksWith(seen, client.done, Run(), []);
        assert seen + [] == seen;
      }
      hide BlocksOf, Tracks, ReceiveAll, HasInk;
      if textOpen {
        textOpen := false;
        out := [Stop(index)];
        index := index + 1;
        OneReceived(client, out[0]);
        ReceiveAppend(Client([], None), sent, out);
        client := Client(client.done + [client.open.value], None);
        sent := sent + out;
      } else {
        assert sent + [] == sent && client.done + [] == client.done;
        out := [];
      }
    }
  }

  lemma NoInk()
    ensures !HasInk("")
  {
  }

  lemma OneCall(name: string, input: string)
    ensures Calls([Call(name, input)]) == 1
  {
    assert [Call(name, input)][1..] == [];
  }

  lemma TextReceived(done: seq<Block>, text: string)
    ensures ReceiveAll(Client(done, None), [TextStart(|done|), TextDelta(|done|, text)])
            == Some(Client(done, Some(TextBlock(text))))
  {
    var e := [TextStart(|done|), TextDelta(|done|, text)];
    var c1 := Client(done, Some(TextBlock("")));
    assert "" + text == text;
    assert e[1..] == [e[1]];
    OneReceived(c1, e[1]);
    assert Receive(Client(done, None), e[0]) == Some(c1);
  }
}
