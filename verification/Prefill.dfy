/** prefillBatchLast: the batched forward pass over one slot's stripes, in the order the
    command buffer runs it. */
module Prefill {
  import opened Network

  /** What a batch reads. Normally the slot's own stripes. In scratch mode the delta-rule state
      comes from the scratch stripe while the conv carry is still seeded from the live slot. */
  function View(ls: seq<Layer>, live: seq<LayerMem>, scratch: seq<LayerMem>, scratchMode: bool, cap: nat)
    : (ms: seq<LayerMem>)
    requires Shaped(ls, live, cap) && Shaped(ls, scratch, cap)
    ensures Shaped(ls, ms, cap)
  {
    seq(|ls|, i requires 0 <= i < |ls| =>
      if scratchMode && ls[i].Recurrent? then Rec(Stripe(live[i].stripe.window, scratch[i].stripe.s)) else live[i])
  }

  /** copyDnStripes: the recurrent layers of `from`, everything else of `to`. */
  function CopyDn(ls: seq<Layer>, from: seq<LayerMem>, to: seq<LayerMem>, cap: nat): (ms: seq<LayerMem>)
    requires Shaped(ls, from, cap) && Shaped(ls, to, cap)
    ensures Shaped(ls, ms, cap)
  {
    seq(|ls|, i requires 0 <= i < |ls| => if ls[i].Recurrent? then from[i] else to[i])
  }

  /** The conv carry bbCarry is zero for a chunk from empty, else the slot's window. */
  function Carry(l: Layer, m: LayerMem, base: nat, cap: nat): Vec
    requires l.Recurrent? && Fits(l, m, cap)
  {
    if base == 0 then l.zero.window else m.stripe.window
  }

  /** Query-tile length: within the work budget, aligned to the block size, at least one block. */
  function TileLength(budget: nat, qb: nat, base: nat, n: nat): (qt: nat)
    requires n > 0 && qb > 0
    ensures qt > 0
  {
    var fit := if budget / (base + n) < 1 then 1 else budget / (base + n);
    var qt := if fit < n then fit else n;
    if qt - qt % qb < qb then qb else qt - qt % qb
  }

  method RunRecurrent(l: Layer, start: Stripe, xs: seq<Vec>) returns (s: Stripe, ys: seq<Vec>)
    requires l.Recurrent?
    ensures (s, ys) == Scan(l.step, start, xs)
  {
    s, ys := start, [];
    assert xs[0..] == xs && [] + Scan(l.step, start, xs).1 == Scan(l.step, start, xs).1;
    for j := 0 to |xs|
      invariant |ys| == j
      invariant Scan(l.step, start, xs) == (Scan(l.step, s, xs[j..]).0, ys + Scan(l.step, s, xs[j..]).1)
    {
      var (s1, y) := l.step(s, xs[j]);
      assert xs[j..][0] == xs[j] && xs[j..][1..] == xs[j + 1..];
      ghost var tail := Scan(l.step, s1, xs[j + 1..]).1;
      assert ys + ([y] + tail) == (ys + [y]) + tail;
      s, ys := s1, ys + [y];
    }
    assert ys + [] == ys;
  }

  method RunAttention(l: Layer, rows0: seq<KvRow>, base: nat, xs: seq<Vec>, budget: nat, qb: nat)
    returns (rows: seq<KvRow>, ys: seq<Vec>)
    requires l.Attention? && base + |xs| <= |rows0| && xs != [] && qb > 0
    ensures rows == WriteRows(l.row, rows0, base, xs)
    ensures ys == Queries(l.attend, rows, base, xs)
  {
    hide TileLength;
    rows := rows0;
    for i := 0 to |xs|
      invariant rows == WriteRows(l.row, rows0, base, xs[..i])
    {
      rows := rows[base + i := l.row(base + i, xs[i])];
      assert xs[..i + 1] == xs[..i] + [xs[i]];
    }
    assert xs[..|xs|] == xs;
    var qt := TileLength(budget, qb, base, |xs|);
    ys := [];
    var qo := 0;
    while qo < |xs|
      invariant qo >= |xs| ==> |ys| == |xs|
      invariant qo < |xs| ==> |ys| == qo
      invariant |ys| <= |xs|
      invariant ys == Queries(l.attend, rows, base, xs)[..|ys|]
      decreases |xs| - qo
    {
      var tile := if qt < |xs| - qo then qt else |xs| - qo;
      ys := ys + seq(tile, q requires 0 <= q < tile => l.attend(rows[..base + qo + q + 1], xs[qo + q]));
      qo := qo + qt;
    }
  }

  /** One layer of the batch: a recurrent layer reads and commits its state in scratch or live, an attention layer
      always the live rows. */
  method RunLayer(ls: seq<Layer>, live0: seq<LayerMem>, scratch0: seq<LayerMem>, scratchMode: bool, il: nat,
                  base: nat, xs: seq<Vec>, cap: nat, budget: nat, qb: nat, ghost mem: LayerMem)
    returns (live: seq<LayerMem>, scratch: seq<LayerMem>, outs: seq<Vec>)
    requires |live0| == |scratch0| == |ls| && il < |ls| && xs != [] && base + |xs| <= cap && qb > 0
    requires Fits(ls[il], live0[il], cap) && Fits(ls[il], scratch0[il], cap) && Fits(ls[il], mem, cap)
    requires ls[il].Attention? ==> mem == live0[il]
    requires ls[il].Recurrent? ==>
      mem == Rec(Stripe(Carry(ls[il], live0[il], base, cap),
                        (if scratchMode then scratch0[il] else live0[il]).stripe.s))
    ensures outs == BatchLayer(ls[il], mem, base, xs, cap).1
    ensures var m := BatchLayer(ls[il], mem, base, xs, cap).0;
      && live == (if scratchMode && ls[il].Recurrent? then live0 else live0[il := m])
      && scratch == (if scratchMode && ls[il].Recurrent? then scratch0[il := m] else scratch0)
  {
    live, scratch, outs := live0, scratch0, xs;
    if ls[il].Recurrent? {
      var s := if scratchMode then scratch[il].stripe.s else live[il].stripe.s;
      var st;
      st, outs := RunRecurrent(ls[il], Stripe(Carry(ls[il], live[il], base, cap), s), outs);
      if scratchMode {
        scratch := scratch[il := Rec(st)];
      } else {
        live := live[il := Rec(st)];
      }
    } else {
      var rows;
      rows, outs := RunAttention(ls[il], live[il].rows, base, outs, budget, qb);
      live := live[il := Kv(rows)];
    }
  }

  /** Runs `xs` at positions `base..` and commits the result: K/V to the live slot always,
      recurrent state to the scratch stripe in scratch mode and to the live slot otherwise. */
  method PrefillBatch(ls: seq<Layer>, live0: seq<LayerMem>, scratch0: seq<LayerMem>, scratchMode: bool,
                      base: nat, xs: seq<Vec>, cap: nat, budget: nat, qb: nat)
    returns (live: seq<LayerMem>, scratch: seq<LayerMem>, outs: seq<Vec>)
    requires Shaped(ls, live0, cap) && Shaped(ls, scratch0, cap)
    requires xs != [] && base + |xs| <= cap && qb > 0
    requires scratchMode ==> base > 0
    ensures var start := if base == 0 then Zero(ls, cap) else live0;
            var (m, ys) := RunTokens(ls, View(ls, start, scratch0, scratchMode, cap), base, xs, cap);
            && outs == ys
            && live == (if scratchMode then CopyDn(ls, start, m, cap) else m)
            && scratch == (if scratchMode then CopyDn(ls, m, scratch0, cap) else scratch0)
  {
    hide *;
    live, scratch := live0, scratch0;
    if base == 0 {
      live := Zero(ls, cap);
    }
    ghost var start := live;
    ghost var mem := View(ls, start, scratch0, scratchMode, cap);
    ghost var done: seq<LayerMem> := [];
    outs := xs;
    LayerInit(ls, mem, base, xs, cap);
    NoneCommitted(ls, start, scratch0, scratchMode, cap);
    for il := 0 to |ls|
      invariant |outs| == |xs| && |done| == il && LayersRun(ls, mem, il, base, xs, done, outs, cap)
      invariant Committed(ls, start, scratch0, scratchMode, done, live, scratch, il)
    {
      ghost var before := outs;
      LayerReads(ls, start, scratch0, scratchMode, done, live, scratch, il, base, cap);
      ghost var live1, scratch1 := live, scratch;
      ghost var m := BatchLayer(ls[il], mem[il], base, outs, cap).0;
      live, scratch, outs := RunLayer(ls, live, scratch, scratchMode, il, base, outs, cap, budget, qb, mem[il]);
      LayerDone(ls, mem, il, base, xs, done, before, cap);
      CommittedNext(ls, start, scratch0, scratchMode, done, live1, scratch1, il, m);
      done := done + [m];
    }
    AllCommitted(ls, start, scratch0, scratchMode, mem, done, live, scratch, base, xs, outs, cap);
  }

  /** The first `il` layers have run. */
  predicate LayersRun(ls: seq<Layer>, ms: seq<LayerMem>, il: nat, base: nat, xs: seq<Vec>,
                      done: seq<LayerMem>, ys: seq<Vec>, cap: nat) {
    && Shaped(ls, ms, cap) && il <= |ls| && base + |xs| <= cap && Shaped(ls[..il], ms[..il], cap)
    && BatchLayers(ls[..il], ms[..il], base, xs, cap) == (done, ys)
  }

  /** And their results are where they belong. */
  predicate Committed(ls: seq<Layer>, start: seq<LayerMem>, scratch0: seq<LayerMem>, scratchMode: bool,
                      done: seq<LayerMem>, live: seq<LayerMem>, scratch: seq<LayerMem>, il: nat) {
    && |live| == |scratch| == |ls| == |start| == |scratch0| && |done| == il <= |ls|
    && (forall i :: il <= i < |ls| ==> live[i] == start[i] && scratch[i] == scratch0[i])
    && forall i :: 0 <= i < il ==>
      && live[i] == (if scratchMode && ls[i].Recurrent? then start[i] else done[i])
      && scratch[i] == (if scratchMode && ls[i].Recurrent? then done[i] else scratch0[i])
  }

  lemma NoneCommitted(ls: seq<Layer>, start: seq<LayerMem>, scratch0: seq<LayerMem>, scratchMode: bool, cap: nat)
    requires Shaped(ls, start, cap) && Shaped(ls, scratch0, cap)
    ensures Committed(ls, start, scratch0, scratchMode, [], start, scratch0, 0)
  {
  }

  lemma CommittedNext(ls: seq<Layer>, start: seq<LayerMem>, scratch0: seq<LayerMem>, scratchMode: bool,
                      done: seq<LayerMem>, live: seq<LayerMem>, scratch: seq<LayerMem>, il: nat, m: LayerMem)
    requires Committed(ls, start, scratch0, scratchMode, done, live, scratch, il) && il < |ls|
    ensures Committed(ls, start, scratch0, scratchMode, done + [m],
                      if scratchMode && ls[il].Recurrent? then live else live[il := m],
                      if scratchMode && ls[il].Recurrent? then scratch[il := m] else scratch, il + 1)
  {
  }

  /** Layer `il` reads exactly what the view shows. */
  lemma LayerReads(ls: seq<Layer>, start: seq<LayerMem>, scratch0: seq<LayerMem>, scratchMode: bool,
                   done: seq<LayerMem>, live: seq<LayerMem>, scratch: seq<LayerMem>, il: nat, base: nat, cap: nat)
    requires Shaped(ls, start, cap) && Shaped(ls, scratch0, cap) && il < |ls|
    requires Committed(ls, start, scratch0, scratchMode, done, live, scratch, il)
    requires if base == 0 then !scratchMode && start == Zero(ls, cap) else true
    ensures |live| == |scratch| == |ls|
    ensures var mem := View(ls, start, scratch0, scratchMode, cap);
      && |mem| == |ls|
      && Fits(ls[il], live[il], cap) && Fits(ls[il], scratch[il], cap) && Fits(ls[il], mem[il], cap)
      && (ls[il].Attention? ==> mem[il] == live[il])
      && (ls[il].Recurrent? ==>
            mem[il] == Rec(Stripe(Carry(ls[il], live[il], base, cap),
                                  (if scratchMode then scratch[il] else live[il]).stripe.s)))
  {
    assert live[il] == start[il] && scratch[il] == scratch0[il];
  }

  lemma AllCommitted(ls: seq<Layer>, start: seq<LayerMem>, scratch0: seq<LayerMem>, scratchMode: bool,
                     mem: seq<LayerMem>, done: seq<LayerMem>, live: seq<LayerMem>, scratch: seq<LayerMem>,
                     base: nat, xs: seq<Vec>, outs: seq<Vec>, cap: nat)
    requires Shaped(ls, start, cap) && Shaped(ls, scratch0, cap) && |done| == |ls|
    requires LayersRun(ls, mem, |ls|, base, xs, done, outs, cap)
    requires Committed(ls, start, scratch0, scratchMode, done, live, scratch, |ls|)
    ensures var (m, ys) := RunTokens(ls, mem, base, xs, cap);
            && outs == ys && Shaped(ls, m, cap)
            && live == (if scratchMode then CopyDn(ls, start, m, cap) else m)
            && scratch == (if scratchMode then CopyDn(ls, m, scratch0, cap) else scratch0)
  {
    hide RunTokens, BatchLayers, Fits;
    assert ls[..|ls|] == ls && mem[..|ls|] == mem;
    LayerMajorIsTokenMajor(ls, mem, base, xs, cap);
  }

  lemma LayerInit(ls: seq<Layer>, ms: seq<LayerMem>, base: nat, xs: seq<Vec>, cap: nat)
    requires Shaped(ls, ms, cap) && base + |xs| <= cap
    ensures LayersRun(ls, ms, 0, base, xs, [], xs, cap)
  {
  }

  lemma LayerDone(ls: seq<Layer>, ms: seq<LayerMem>, il: nat, base: nat, xs: seq<Vec>,
                  done: seq<LayerMem>, ys: seq<Vec>, cap: nat)
    requires LayersRun(ls, ms, il, base, xs, done, ys, cap) && il < |ls| && |ys| == |xs| && |ms| == |ls|
    requires Fits(ls[il], ms[il], cap)
    ensures var (m, zs) := BatchLayer(ls[il], ms[il], base, ys, cap);
      LayersRun(ls, ms, il + 1, base, xs, done + [m], zs, cap) && |zs| == |ys|
  {
    hide BatchLayers, BatchLayer;
    var l, m := [ls[il]], [ms[il]];
    assert ls[..il + 1] == ls[..il] + l && ms[..il + 1] == ms[..il] + m;
    BatchLayersCut(ls[..il], l, ms[..il], m, base, xs, cap);
    OneLayer(ls[il], ms[il], base, ys, cap);
  }

  lemma OneLayer(l: Layer, m: LayerMem, base: nat, xs: seq<Vec>, cap: nat)
    requires Fits(l, m, cap) && base + |xs| <= cap
    ensures BatchLayers([l], [m], base, xs, cap)
         == ([BatchLayer(l, m, base, xs, cap).0], BatchLayer(l, m, base, xs, cap).1)
  {
    var (r, zs) := BatchLayer(l, m, base, xs, cap);
    var none: seq<Layer>, empty: seq<LayerMem> := [], [];
    assert [l][1..] == none && [m][1..] == empty;
    assert BatchLayers(none, empty, base, zs, cap) == (empty, zs);
    assert [r] + empty == [r];
  }

  // ---- what verification, promotion and rollback do to a slot ----

  /** Seeded scratch makes a verify batch read exactly the live state. */
  lemma SeededView(ls: seq<Layer>, live: seq<LayerMem>, scratch: seq<LayerMem>, cap: nat)
    requires Shaped(ls, live, cap) && Shaped(ls, scratch, cap)
    ensures View(ls, live, CopyDn(ls, live, scratch, cap), true, cap) == live
    ensures View(ls, live, scratch, false, cap) == live
  {
  }

  /** Promotion: the slot's verified KV rows with the scratch recurrent state are the post-round state. */
  lemma PromoteIsCommit(ls: seq<Layer>, live: seq<LayerMem>, scratch: seq<LayerMem>, m: seq<LayerMem>, cap: nat)
    requires Shaped(ls, live, cap) && Shaped(ls, scratch, cap) && Shaped(ls, m, cap)
    ensures CopyDn(ls, CopyDn(ls, m, scratch, cap), CopyDn(ls, live, m, cap), cap) == m
  {
  }

  /** A rejected round touches only KV rows from `base` on: the live slot still holds its state at `base`. */
  lemma {:induction false} RowsBelowBaseKept(ls: seq<Layer>, ms: seq<LayerMem>, base: nat, xs: seq<Vec>, cap: nat)
    requires Shaped(ls, ms, cap) && base + |xs| <= cap
    ensures Agree(ls, CopyDn(ls, ms, BatchLayers(ls, ms, base, xs, cap).0, cap), ms, base)
  {
    if ls != [] {
      var (m, ys) := BatchLayer(ls[0], ms[0], base, xs, cap);
      RowsBelowBaseKept(ls[1..], ms[1..], base, ys, cap);
      var rest := BatchLayers(ls[1..], ms[1..], base, ys, cap).0;
      var after := CopyDn(ls, ms, [m] + rest, cap);
      assert after[1..] == CopyDn(ls[1..], ms[1..], rest, cap);
      if ls[0].Attention? {
        assert m.rows[..base] == ms[0].rows[..base];
      }
    }
  }
}
