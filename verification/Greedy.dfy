/** The specification: the greedy stream of a prompt. */
module Greedy {
  import opened Network

  function Embed(net: Net, toks: seq<Token>): (xs: seq<Vec>)
    ensures |xs| == |toks|
  {
    seq(|toks|, i requires 0 <= i < |toks| => net.embed(toks[i]))
  }

  function Ids(net: Net, ys: seq<Vec>): (ids: seq<Token>)
    ensures |ids| == |ys|
  {
    seq(|ys|, i requires 0 <= i < |ys| => net.argmax(ys[i]))
  }

  /** The token the model picks after the history `h`. */
  function Next(net: Net, h: seq<Token>): Token
    requires h != []
  {
    net.argmax(Outs(net.layers, Embed(net, h))[|h| - 1])
  }

  /** Greedy decoding from `h`: stop before `eos`, or after `limit` tokens. */
  function Stream(net: Net, eos: Token, h: seq<Token>, limit: nat): seq<Token>
    requires h != []
    decreases limit
  {
    if limit == 0 then [] else
      var t := Next(net, h);
      if t == eos then [] else [t] + Stream(net, eos, h + [t], limit - 1)
  }

  /** Every token of `g` is the model's pick after what precedes it. */
  predicate IsGreedy(net: Net, eos: Token, prompt: seq<Token>, g: seq<Token>)
    requires prompt != []
  {
    forall i :: 0 <= i < |g| ==> g[i] == Next(net, prompt + g[..i]) && g[i] != eos
  }

  predicate Ended(net: Net, eos: Token, prompt: seq<Token>, g: seq<Token>, limit: nat)
    requires prompt != []
  {
    |g| == limit || Next(net, prompt + g) == eos
  }

  lemma EmbedAppend(net: Net, a: seq<Token>, b: seq<Token>)
    ensures Embed(net, a + b) == Embed(net, a) + Embed(net, b)
  {
  }

  lemma GreedyExtend(net: Net, eos: Token, prompt: seq<Token>, g: seq<Token>, t: Token)
    requires prompt != [] && IsGreedy(net, eos, prompt, g)
    requires t == Next(net, prompt + g) && t != eos
    ensures IsGreedy(net, eos, prompt, g + [t])
  {
    var g1 := g + [t];
    forall i | 0 <= i < |g1| ensures g1[i] == Next(net, prompt + g1[..i]) && g1[i] != eos {
      assert g1[..i] == g[..i];
      assert i == |g| ==> g[..i] == g;
    }
  }

  /** A greedy list within the limit is a prefix of the stream, and the whole of it exactly when it has ended. */
  lemma {:induction false} GreedyIsStream(net: Net, eos: Token, prompt: seq<Token>, g: seq<Token>, limit: nat)
    requires prompt != [] && IsGreedy(net, eos, prompt, g) && |g| <= limit
    ensures g <= Stream(net, eos, prompt, limit)
    ensures g == Stream(net, eos, prompt, limit) <==> Ended(net, eos, prompt, g, limit)
    decreases limit
  {
    hide Next;
    assert prompt + [] == prompt;
    if g != [] {
      var t := g[0];
      assert g[..0] == [];
      var rest := g[1..];
      forall i | 0 <= i < |rest| ensures rest[i] == Next(net, prompt + [t] + rest[..i]) && rest[i] != eos {
        assert g[i + 1] == rest[i];
        assert prompt + g[..i + 1] == prompt + [t] + rest[..i];
      }
      GreedyIsStream(net, eos, prompt + [t], rest, limit - 1);
      assert prompt + g == prompt + [t] + rest;
      assert g == [t] + rest;
    } else {
      assert prompt + g == prompt;
    }
  }

  /** The stream itself is greedy and has ended. */
  lemma {:induction false} StreamIsGreedy(net: Net, eos: Token, h: seq<Token>, limit: nat)
    requires h != []
    ensures |Stream(net, eos, h, limit)| <= limit
    ensures IsGreedy(net, eos, h, Stream(net, eos, h, limit))
    ensures Ended(net, eos, h, Stream(net, eos, h, limit), limit)
    decreases limit
  {
    hide Next;
    assert h + [] == h;
    var g := Stream(net, eos, h, limit);
    if g != [] {
      var t := g[0];
      var rest := Stream(net, eos, h + [t], limit - 1);
      StreamIsGreedy(net, eos, h + [t], limit - 1);
      assert g == [t] + rest;
      forall i | 0 <= i < |g| ensures g[i] == Next(net, h + g[..i]) && g[i] != eos {
        if i == 0 {
          assert g[..0] == [];
        } else {
          assert rest[i - 1] == g[i];
          assert h + [t] + rest[..i - 1] == h + g[..i];
        }
      }
      assert h + g == h + [t] + rest;
    }
  }

  // ---- slot states ----

  /** `ms` is the state of a slot that has been fed exactly the tokens `h`. */
  predicate Fed(net: Net, ms: seq<LayerMem>, h: seq<Token>, cap: nat) {
    Holds(net.layers, ms, Embed(net, h), cap)
  }

  lemma FedShaped(net: Net, ms: seq<LayerMem>, h: seq<Token>, cap: nat)
    requires Fed(net, ms, h, cap)
    ensures Shaped(net.layers, ms, cap) && |h| <= cap
  {
  }

  lemma FedZero(net: Net, cap: nat)
    ensures Fed(net, Zero(net.layers, cap), [], cap)
  {
    HoldsZero(net.layers, cap);
    assert Embed(net, []) == [];
  }

  lemma OutsPrefix(ls: seq<Layer>, xs: seq<Vec>, ys: seq<Vec>)
    ensures Outs(ls, xs + ys)[..|xs|] == Outs(ls, xs)
  {
    ColdRunSplits(ls, Zero(ls, |xs + ys|), |xs + ys|, xs, ys);
    ColdPrefix(ls, xs, |xs + ys|);
  }

  /** Feeding tokens to a correct state: state and every per-position id are those of the serial model. */
  lemma FeedTokens(net: Net, ms: seq<LayerMem>, h: seq<Token>, toks: seq<Token>, cap: nat)
    requires Fed(net, ms, h, cap) && |h| + |toks| <= cap
    ensures Fed(net, RunTokens(net.layers, ms, |h|, Embed(net, toks), cap).0, h + toks, cap)
    ensures forall j :: 0 <= j < |toks| ==>
              net.argmax(RunTokens(net.layers, ms, |h|, Embed(net, toks), cap).1[j]) == Next(net, h + toks[..j + 1])
  {
    hide RunTokens, Outs, Next, Holds;
    FedShaped(net, ms, h, cap);
    var xs, zs := Embed(net, h), Embed(net, toks);
    EmbedAppend(net, h, toks);
    HoldsRun(net.layers, ms, xs, zs, cap);
    var ys := RunTokens(net.layers, ms, |h|, zs, cap).1;
    forall j | 0 <= j < |toks| ensures net.argmax(ys[j]) == Next(net, h + toks[..j + 1]) {
      NextInside(net, h + toks, |h| + j);
      assert (h + toks)[..|h| + j + 1] == h + toks[..j + 1];
      assert Outs(net.layers, xs + zs)[|h| + j] == ys[j];
    }
  }

  lemma NextInside(net: Net, h: seq<Token>, i: nat)
    requires i < |h|
    ensures net.argmax(Outs(net.layers, Embed(net, h))[i]) == Next(net, h[..i + 1])
  {
    var a, b := h[..i + 1], h[i + 1..];
    assert a + b == h;
    EmbedAppend(net, a, b);
    OutsPrefix(net.layers, Embed(net, a), Embed(net, b));
    assert Outs(net.layers, Embed(net, h))[..i + 1][i] == Outs(net.layers, Embed(net, h))[i];
  }

  /** The serial step: one token at its own position. */
  lemma FeedOne(net: Net, ms: seq<LayerMem>, h: seq<Token>, t: Token, cap: nat)
    requires Fed(net, ms, h, cap) && |h| < cap && Shaped(net.layers, ms, cap)
    ensures var (m, y) := StepLayers(net.layers, ms, |h|, net.embed(t), cap);
            Fed(net, m, h + [t], cap) && net.argmax(y) == Next(net, h + [t])
  {
    hide RunTokens, StepLayers, Next, Fed;
    FeedTokens(net, ms, h, [t], cap);
    assert Embed(net, [t]) == [net.embed(t)];
    RunOne(net.layers, ms, |h|, net.embed(t), cap);
    assert net.argmax(RunTokens(net.layers, ms, |h|, Embed(net, [t]), cap).1[0]) == Next(net, h + [t][..0 + 1]);
    assert [t][..1] == [t];
  }
}
