/** specDraft: prompt-lookup drafting over the slot's history. */
module Draft {
  import opened Common
  import opened Network
  import opened Slots

  /** `toks` is the pending token followed by what came after `e`, the latest earlier
      place whose gram has the hash of the gram that ends the history. */
  predicate IsDraft(c: Config, hist: seq<Token>, e: nat, toks: seq<Token>) {
    && c.specL <= e < |hist| && 1 <= |toks| && e + |toks| - 1 <= |hist|
    && toks == [hist[|hist| - 1]] + hist[e..e + |toks| - 1]
    && c.gramHash(Gram(hist, c.specL, e)) == c.gramHash(Gram(hist, c.specL, |hist|))
    && forall e2 :: e < e2 < |hist| ==>
         c.gramHash(Gram(hist, c.specL, e2)) != c.gramHash(Gram(hist, c.specL, |hist|))
  }

  /** Some gram that ends before the history does has the hash of the one that ends it. */
  ghost predicate Seen(c: Config, hist: seq<Token>)
    requires c.specL <= |hist|
  {
    exists e :: c.specL <= e < |hist| && c.gramHash(Gram(hist, c.specL, e)) == c.gramHash(Gram(hist, c.specL, |hist|))
  }

  /** The longest draft that width, context and request allow. */
  function Allowed(c: Config, sl: Slot): nat
    requires sl.pos <= c.nCtx && sl.gen <= sl.maxGen
  {
    Min(Min(c.specK, c.nCtx - sl.pos), sl.maxGen - sl.gen)
  }

  /** Indexes every gram that ends strictly before the history's end, so the query never matches itself. */
  method BuildIndex(hash: seq<Token> -> nat, L: nat, hist: seq<Token>, built0: nat, table0: map<nat, nat>)
    returns (table: map<nat, nat>)
    requires L < |hist| && IndexOk(hash, L, hist, built0, table0)
    ensures IndexOk(hash, L, hist, |hist|, table)
  {
    table := table0;
    var built := if built0 < L then L else built0;
    for end := built to |hist|
      invariant IndexOk(hash, L, hist, end, table)
    {
      table := table[hash(Gram(hist, L, end)) := end];
    }
  }

  /** The table has the last gram's hash exactly if an earlier gram has it. */
  lemma Looked(c: Config, hist: seq<Token>, table: map<nat, nat>)
    requires c.specL < |hist| && IndexOk(c.gramHash, c.specL, hist, |hist|, table)
    ensures var key := c.gramHash(Gram(hist, c.specL, |hist|));
      && (key in table <==> Seen(c, hist))
      && (key in table ==> c.specL <= table[key] < |hist|)
  {
    var key := c.gramHash(Gram(hist, c.specL, |hist|));
    IndexIsNaiveSearch(c.gramHash, c.specL, hist, |hist|, table, key);
    if key in table {
      assert c.gramHash(Gram(hist, c.specL, table[key])) == key;
    }
  }

  lemma IsDraftOf(c: Config, hist: seq<Token>, e: nat, toks: seq<Token>, table: map<nat, nat>)
    requires c.specL < |hist| && IndexOk(c.gramHash, c.specL, hist, |hist|, table)
    requires var key := c.gramHash(Gram(hist, c.specL, |hist|)); key in table && e == table[key]
    requires e < |hist| && 1 <= |toks| && e + |toks| - 1 <= |hist|
    requires toks == [hist[|hist| - 1]] + hist[e..e + |toks| - 1]
    ensures IsDraft(c, hist, e, toks)
  {
    IndexIsNaiveSearch(c.gramHash, c.specL, hist, |hist|, table, c.gramHash(Gram(hist, c.specL, |hist|)));
  }

  method SpecDraft(c: Config, sl: Slot) returns (after: Slot, toks: seq<Token>)
    requires ConfigOk(c) && sl.pos <= c.nCtx && sl.gen <= sl.maxGen
    requires IndexOk(c.gramHash, c.specL, sl.History(), sl.ngramBuilt, sl.ngram)
    ensures after == sl.(ngram := after.ngram, ngramBuilt := after.ngramBuilt)
    ensures IndexOk(c.gramHash, c.specL, sl.History(), after.ngramBuilt, after.ngram)
    ensures |sl.History()| > c.specL ==> after.ngramBuilt == |sl.History()|
    ensures toks != [] ==>
      && 2 <= |toks| <= c.specK && sl.pos + |toks| <= c.nCtx && sl.gen + |toks| <= sl.maxGen
      && exists e :: IsDraft(c, sl.History(), e, toks) && |toks| == Min(Allowed(c, sl), 1 + |sl.History()| - e)
    ensures toks != [] <==> |sl.History()| > c.specL && Seen(c, sl.History()) && Allowed(c, sl) >= 2
  {
    var hist := sl.History();
    var H := |hist|;
    after, toks := sl, [];
    if H < c.specL + 1 {
      return;
    }
    var table := BuildIndex(c.gramHash, c.specL, hist, sl.ngramBuilt, sl.ngram);
    after := sl.(ngram := table, ngramBuilt := H);
    var key := c.gramHash(Gram(hist, c.specL, H));
    Looked(c, hist, table);
    hide IndexOk, Seen, Gram, IsDraft;
    if key !in table {
      return;
    }
    var e := table[key];
    var maxN: nat := Min(Min(c.specK, c.nCtx - sl.pos), sl.maxGen - sl.gen);
    if maxN < 2 {
      return;
    }
    var nDraft := Min(maxN - 1, H - e);
    toks := [hist[H - 1]];
    for j := 0 to nDraft
      invariant toks == [hist[H - 1]] + hist[e..e + j]
    {
      toks := toks + [hist[e + j]];
    }
    IsDraftOf(c, hist, e, toks, table);
  }

  /** A draft starts with the slot's pending token. */
  lemma DraftHead(c: Config, a: Slot, toks: seq<Token>)
    requires Running(a) && a.cursor >= |a.prompt|
    requires exists e :: IsDraft(c, a.History(), e, toks)
    ensures toks[0] == a.last && a.History() == FedTokens(a) + [toks[0]]
  {
    assert a.genTokens == a.genTokens[..a.gen - 1] + [a.last];
  }
}
