/** The abstract forward pass shared by the slot engine and the split driver.

    Kernels are arbitrary functions on real vectors. What is modelled is which
    state a layer owns, which rows it reads, and the order in which a batch
    visits layers and positions. */
module Network {

  type Vec = seq<real>
  /** Token ids are 32-bit words. */
  newtype Token = x: int | 0 <= x < 0x1_0000_0000

  /** One slot's recurrent state in one DeltaNet layer: conv window (st1) and delta-rule S (st2). */
  datatype Stripe = Stripe(window: Vec, s: Vec)

  datatype KvRow = KvRow(k: Vec, v: Vec)

  /** `zero` is what a cleared buffer holds. An attention layer writes row `pos`
      and reads only rows `0..pos`. */
  datatype Layer =
    | Recurrent(zero: Stripe, step: (Stripe, Vec) -> (Stripe, Vec))
    | Attention(zeroRow: KvRow, row: (nat, Vec) -> KvRow, attend: (seq<KvRow>, Vec) -> Vec)

  /** What one slot stores for one layer. */
  datatype LayerMem = Rec(stripe: Stripe) | Kv(rows: seq<KvRow>)

  /** A whole model; `argmax` stands for final norm, head and greedy pick. */
  datatype Net = Net(layers: seq<Layer>, embed: Token -> Vec, argmax: Vec -> Token)

  predicate Fits(l: Layer, m: LayerMem, cap: nat) {
    match l
    case Recurrent(_, _) => m.Rec?
    case Attention(_, _, _) => m.Kv? && |m.rows| == cap
  }

  predicate Shaped(ls: seq<Layer>, ms: seq<LayerMem>, cap: nat) {
    |ls| == |ms| && forall i :: 0 <= i < |ls| ==> Fits(ls[i], ms[i], cap)
  }

  function ZeroLayer(l: Layer, cap: nat): (m: LayerMem)
    ensures Fits(l, m, cap)
  {
    match l
    case Recurrent(z, _) => Rec(z)
    case Attention(z, _, _) => Kv(seq(cap, _ => z))
  }

  /** The state resetSlot leaves behind. */
  function Zero(ls: seq<Layer>, cap: nat): (ms: seq<LayerMem>)
    ensures Shaped(ls, ms, cap)
  {
    seq(|ls|, i requires 0 <= i < |ls| => ZeroLayer(ls[i], cap))
  }

  // ---- one position at a time ----

  function StepLayer(l: Layer, m: LayerMem, pos: nat, x: Vec, cap: nat): (r: (LayerMem, Vec))
    requires Fits(l, m, cap) && pos < cap
    ensures Fits(l, r.0, cap)
  {
    match l
    case Recurrent(_, step) => var (s, y) := step(m.stripe, x); (Rec(s), y)
    case Attention(_, row, attend) =>
      var rows := m.rows[pos := row(pos, x)];
      (Kv(rows), attend(rows[..pos + 1], x))
  }

  function StepLayers(ls: seq<Layer>, ms: seq<LayerMem>, pos: nat, x: Vec, cap: nat): (r: (seq<LayerMem>, Vec))
    requires Shaped(ls, ms, cap) && pos < cap
    ensures Shaped(ls, r.0, cap)
  {
    if ls == [] then (ms, x) else
      var (m, y) := StepLayer(ls[0], ms[0], pos, x, cap);
      var (rest, z) := StepLayers(ls[1..], ms[1..], pos, y, cap);
      ([m] + rest, z)
  }

  /** Token-major execution: each position goes through every layer before the next one starts. */
  function RunTokens(ls: seq<Layer>, ms: seq<LayerMem>, base: nat, xs: seq<Vec>, cap: nat)
    : (r: (seq<LayerMem>, seq<Vec>))
    requires Shaped(ls, ms, cap) && base + |xs| <= cap
    ensures Shaped(ls, r.0, cap) && |r.1| == |xs|
    decreases |xs|
  {
    if xs == [] then (ms, []) else
      var (ms1, y) := StepLayers(ls, ms, base, xs[0], cap);
      var (ms2, ys) := RunTokens(ls, ms1, base + 1, xs[1..], cap);
      (ms2, [y] + ys)
  }

  // ---- a whole chunk, layer by layer, as the batched kernels run it ----

  function Scan(step: (Stripe, Vec) -> (Stripe, Vec), s: Stripe, xs: seq<Vec>): (r: (Stripe, seq<Vec>))
    ensures |r.1| == |xs|
    decreases |xs|
  {
    if xs == [] then (s, []) else
      var (s1, y) := step(s, xs[0]);
      var (s2, ys) := Scan(step, s1, xs[1..]);
      (s2, [y] + ys)
  }

  /** All K/V rows of the chunk are written before any query runs. */
  function WriteRows(row: (nat, Vec) -> KvRow, rows: seq<KvRow>, base: nat, xs: seq<Vec>): (r: seq<KvRow>)
    requires base + |xs| <= |rows|
    ensures |r| == |rows|
  {
    rows[..base] + seq(|xs|, i requires 0 <= i < |xs| => row(base + i, xs[i])) + rows[base + |xs|..]
  }

  function Queries(attend: (seq<KvRow>, Vec) -> Vec, rows: seq<KvRow>, base: nat, xs: seq<Vec>): (r: seq<Vec>)
    requires base + |xs| <= |rows|
    ensures |r| == |xs|
  {
    seq(|xs|, i requires 0 <= i < |xs| => attend(rows[..base + i + 1], xs[i]))
  }

  function BatchLayer(l: Layer, m: LayerMem, base: nat, xs: seq<Vec>, cap: nat): (r: (LayerMem, seq<Vec>))
    requires Fits(l, m, cap) && base + |xs| <= cap
    ensures Fits(l, r.0, cap) && |r.1| == |xs|
  {
    match l
    case Recurrent(_, step) => var (s, ys) := Scan(step, m.stripe, xs); (Rec(s), ys)
    case Attention(_, row, attend) =>
      var rows := WriteRows(row, m.rows, base, xs);
      (Kv(rows), Queries(attend, rows, base, xs))
  }

  function BatchLayers(ls: seq<Layer>, ms: seq<LayerMem>, base: nat, xs: seq<Vec>, cap: nat)
    : (r: (seq<LayerMem>, seq<Vec>))
    requires Shaped(ls, ms, cap) && base + |xs| <= cap
    ensures Shaped(ls, r.0, cap) && |r.1| == |xs|
  {
    if ls == [] then (ms, xs) else
      var (m, ys) := BatchLayer(ls[0], ms[0], base, xs, cap);
      var (rest, zs) := BatchLayers(ls[1..], ms[1..], base, ys, cap);
      ([m] + rest, zs)
  }

  // ---- layer-major equals token-major ----

  /** Causality: writing every row of the chunk first does not change what the first query sees. */
  lemma BatchLayerPeel(l: Layer, m: LayerMem, base: nat, xs: seq<Vec>, cap: nat)
    requires Fits(l, m, cap) && base + |xs| <= cap && xs != []
    ensures var (m1, y) := StepLayer(l, m, base, xs[0], cap);
            var (m2, ys) := BatchLayer(l, m1, base + 1, xs[1..], cap);
            BatchLayer(l, m, base, xs, cap) == (m2, [y] + ys)
  {
    if l.Attention? {
      var m1 := StepLayer(l, m, base, xs[0], cap).0;
      var a := WriteRows(l.row, m.rows, base, xs);
      var b := WriteRows(l.row, m1.rows, base + 1, xs[1..]);
      assert a == b;
      assert a[..base + 1] == m1.rows[..base + 1];
      assert Queries(l.attend, a, base, xs)
          == [l.attend(a[..base + 1], xs[0])] + Queries(l.attend, b, base + 1, xs[1..]);
    }
  }

  lemma {:induction false} LayerMajorPeel(ls: seq<Layer>, ms: seq<LayerMem>, base: nat, xs: seq<Vec>, cap: nat)
    requires Shaped(ls, ms, cap) && base + |xs| <= cap && xs != []
    ensures var (ms1, y) := StepLayers(ls, ms, base, xs[0], cap);
            var (ms2, ys) := BatchLayers(ls, ms1, base + 1, xs[1..], cap);
            BatchLayers(ls, ms, base, xs, cap) == (ms2, [y] + ys)
  {
    if ls == [] {
      assert [xs[0]] + xs[1..] == xs;
    } else {
      BatchLayerPeel(ls[0], ms[0], base, xs, cap);
      var (m1, y) := StepLayer(ls[0], ms[0], base, xs[0], cap);
      var (m2, ys) := BatchLayer(ls[0], m1, base + 1, xs[1..], cap);
      var all := [y] + ys;
      assert all[1..] == ys;
      LayerMajorPeel(ls[1..], ms[1..], base, all, cap);
      var (rest, z) := StepLayers(ls[1..], ms[1..], base, y, cap);
      var after := [m1] + rest;
      assert after[1..] == rest;
    }
  }

  lemma {:induction false} BatchEmpty(ls: seq<Layer>, ms: seq<LayerMem>, base: nat, cap: nat)
    requires Shaped(ls, ms, cap) && base <= cap
    ensures BatchLayers(ls, ms, base, [], cap) == (ms, [])
  {
    if ls != [] {
      var (m, ys) := BatchLayer(ls[0], ms[0], base, [], cap);
      if ls[0].Attention? {
        assert m.rows == ms[0].rows;
      }
      BatchEmpty(ls[1..], ms[1..], base, cap);
      assert [ms[0]] + ms[1..] == ms;
    }
  }

  /** Running a chunk layer by layer leaves the state, and produces the outputs, of running it token by token. */
  lemma {:induction false} LayerMajorIsTokenMajor(ls: seq<Layer>, ms: seq<LayerMem>, base: nat, xs: seq<Vec>, cap: nat)
    requires Shaped(ls, ms, cap) && base + |xs| <= cap
    ensures BatchLayers(ls, ms, base, xs, cap) == RunTokens(ls, ms, base, xs, cap)
    decreases |xs|
  {
    if xs == [] {
      BatchEmpty(ls, ms, base, cap);
    } else {
      LayerMajorPeel(ls, ms, base, xs, cap);
      LayerMajorIsTokenMajor(ls, StepLayers(ls, ms, base, xs[0], cap).0, base + 1, xs[1..], cap);
    }
  }

  // ---- what one layer computes ----

  /** Causal attention: every output is attention over the rows of its own position and of those before it. */
  lemma AttentionMeans(l: Layer, rows: seq<KvRow>, base: nat, xs: seq<Vec>, cap: nat, i: nat)
    requires l.Attention? && |rows| == cap && base + |xs| <= cap && i < |xs|
    ensures RunTokens([l], [Kv(rows)], base, xs, cap).1[i]
         == l.attend(rows[..base] + seq(i + 1, j requires 0 <= j <= i => l.row(base + j, xs[j])), xs[i])
    ensures RunTokens([l], [Kv(rows)], base, xs, cap).0
         == [Kv(rows[..base] + seq(|xs|, j requires 0 <= j < |xs| => l.row(base + j, xs[j])) + rows[base + |xs|..])]
  {
    OneLayer(l, Kv(rows), base, xs, cap);
    var all := WriteRows(l.row, rows, base, xs);
    assert all[..base + i + 1] == rows[..base] + seq(i + 1, j requires 0 <= j <= i => l.row(base + j, xs[j]));
  }

  /** `states` lists what a recurrent layer goes through, one step per input. */
  predicate Recurrence(step: (Stripe, Vec) -> (Stripe, Vec), states: seq<Stripe>, xs: seq<Vec>, ys: seq<Vec>) {
    && |xs| == |ys| && |states| == |xs| + 1
    && forall i :: 0 <= i < |xs| ==> step(states[i], xs[i]) == (states[i + 1], ys[i])
  }

  /** A recurrent layer: every step starts from the state the step before it left. */
  lemma RecurrentMeans(l: Layer, s: Stripe, base: nat, xs: seq<Vec>, cap: nat) returns (states: seq<Stripe>)
    requires l.Recurrent? && base + |xs| <= cap
    ensures Recurrence(l.step, states, xs, RunTokens([l], [Rec(s)], base, xs, cap).1)
    ensures states[0] == s && RunTokens([l], [Rec(s)], base, xs, cap).0 == [Rec(states[|xs|])]
  {
    OneLayer(l, Rec(s), base, xs, cap);
    states := ScanStates(l.step, s, xs);
  }

  lemma {:induction false} ScanStates(step: (Stripe, Vec) -> (Stripe, Vec), s: Stripe, xs: seq<Vec>)
    returns (states: seq<Stripe>)
    ensures Recurrence(step, states, xs, Scan(step, s, xs).1)
    ensures states[0] == s && states[|xs|] == Scan(step, s, xs).0
    decreases |xs|
  {
    if xs == [] {
      states := [s];
    } else {
      var rest := ScanStates(step, step(s, xs[0]).0, xs[1..]);
      states := [s] + rest;
      var ys := Scan(step, s, xs).1;
      forall i | 0 <= i < |xs| ensures step(states[i], xs[i]) == (states[i + 1], ys[i]) {
        if i > 0 {
          assert xs[1..][i - 1] == xs[i] && rest[i - 1] == states[i] && rest[i] == states[i + 1];
        }
      }
    }
  }

  lemma OneLayer(l: Layer, m: LayerMem, base: nat, xs: seq<Vec>, cap: nat)
    requires Fits(l, m, cap) && base + |xs| <= cap
    ensures RunTokens([l], [m], base, xs, cap)
         == ([BatchLayer(l, m, base, xs, cap).0], BatchLayer(l, m, base, xs, cap).1)
  {
    LayerMajorIsTokenMajor([l], [m], base, xs, cap);
    var (m1, ys) := BatchLayer(l, m, base, xs, cap);
    assert [l][1..] == [] && [m][1..] == [] && BatchLayers([], [], base, ys, cap) == ([], ys);
    assert [m1] + [] == [m1];
  }

  // ---- cutting a sequence into chunks, and a model into stages ----

  lemma {:induction false} RunTokensAppend(ls: seq<Layer>, ms: seq<LayerMem>, base: nat, xs: seq<Vec>, ys: seq<Vec>,
                                           cap: nat)
    requires Shaped(ls, ms, cap) && base + |xs| + |ys| <= cap
    ensures var (m1, o1) := RunTokens(ls, ms, base, xs, cap);
            var (m2, o2) := RunTokens(ls, m1, base + |xs|, ys, cap);
            RunTokens(ls, ms, base, xs + ys, cap) == (m2, o1 + o2)
    decreases |xs|
  {
    if xs == [] {
      assert xs + ys == ys;
      var o2 := RunTokens(ls, ms, base, ys, cap).1;
      assert [] + o2 == o2;
    } else {
      assert (xs + ys)[1..] == xs[1..] + ys;
      var (ms1, y) := StepLayers(ls, ms, base, xs[0], cap);
      RunTokensAppend(ls, ms1, base + 1, xs[1..], ys, cap);
      var (m1, o1) := RunTokens(ls, ms1, base + 1, xs[1..], cap);
      var o2 := RunTokens(ls, m1, base + |xs|, ys, cap).1;
      assert [y] + (o1 + o2) == ([y] + o1) + o2;
    }
  }

  lemma {:induction false} BatchLayersCut(l1: seq<Layer>, l2: seq<Layer>, m1: seq<LayerMem>, m2: seq<LayerMem>,
                                           base: nat, xs: seq<Vec>, cap: nat)
    requires Shaped(l1, m1, cap) && Shaped(l2, m2, cap) && base + |xs| <= cap
    ensures Shaped(l1 + l2, m1 + m2, cap)
    ensures var (a, ys) := BatchLayers(l1, m1, base, xs, cap);
            var (b, zs) := BatchLayers(l2, m2, base, ys, cap);
            BatchLayers(l1 + l2, m1 + m2, base, xs, cap) == (a + b, zs)
    decreases |l1|
  {
    if l1 == [] {
      assert l1 + l2 == l2 && m1 + m2 == m2;
      var b := BatchLayers(l2, m2, base, xs, cap).0;
      assert m1 + b == b;
    } else {
      assert (l1 + l2)[1..] == l1[1..] + l2 && (m1 + m2)[1..] == m1[1..] + m2;
      var (m, ys) := BatchLayer(l1[0], m1[0], base, xs, cap);
      BatchLayersCut(l1[1..], l2, m1[1..], m2, base, ys, cap);
      var (a, us) := BatchLayers(l1[1..], m1[1..], base, ys, cap);
      var b := BatchLayers(l2, m2, base, us, cap).0;
      assert ([m] + a) + b == [m] + (a + b);
    }
  }

  /** The stage split: a model cut in two gives the states and outputs of the whole. */
  lemma TokensCut(l1: seq<Layer>, l2: seq<Layer>, m1: seq<LayerMem>, m2: seq<LayerMem>,
                  base: nat, xs: seq<Vec>, cap: nat)
    requires Shaped(l1, m1, cap) && Shaped(l2, m2, cap) && base + |xs| <= cap
    ensures Shaped(l1 + l2, m1 + m2, cap)
    ensures var (a, ys) := RunTokens(l1, m1, base, xs, cap);
            var (b, zs) := RunTokens(l2, m2, base, ys, cap);
            RunTokens(l1 + l2, m1 + m2, base, xs, cap) == (a + b, zs)
  {
    BatchLayersCut(l1, l2, m1, m2, base, xs, cap);
    LayerMajorIsTokenMajor(l1, m1, base, xs, cap);
    LayerMajorIsTokenMajor(l2, m2, base, RunTokens(l1, m1, base, xs, cap).1, cap);
    LayerMajorIsTokenMajor(l1 + l2, m1 + m2, base, xs, cap);
  }

  /** One stage engine: the chunk is re-chunked at `width` positions (stageRun). */
  function StageRun(ls: seq<Layer>, ms: seq<LayerMem>, base: nat, xs: seq<Vec>, width: nat, cap: nat)
    : (r: (seq<LayerMem>, seq<Vec>))
    requires Shaped(ls, ms, cap) && base + |xs| <= cap && width > 0
    ensures Shaped(ls, r.0, cap) && |r.1| == |xs|
    decreases |xs|
  {
    if |xs| <= width then BatchLayers(ls, ms, base, xs, cap) else
      var (m1, ys) := BatchLayers(ls, ms, base, xs[..width], cap);
      var (m2, zs) := StageRun(ls, m1, base + width, xs[width..], width, cap);
      (m2, ys + zs)
  }

  lemma {:induction false} StageRunIsTokenMajor(ls: seq<Layer>, ms: seq<LayerMem>, base: nat, xs: seq<Vec>,
                                                width: nat, cap: nat)
    requires Shaped(ls, ms, cap) && base + |xs| <= cap && width > 0
    ensures StageRun(ls, ms, base, xs, width, cap) == RunTokens(ls, ms, base, xs, cap)
    decreases |xs|
  {
    if |xs| <= width {
      LayerMajorIsTokenMajor(ls, ms, base, xs, cap);
    } else {
      LayerMajorIsTokenMajor(ls, ms, base, xs[..width], cap);
      StageRunIsTokenMajor(ls, BatchLayers(ls, ms, base, xs[..width], cap).0, base + width, xs[width..], width, cap);
      RunTokensAppend(ls, ms, base, xs[..width], xs[width..], cap);
      assert xs[..width] + xs[width..] == xs;
    }
  }

  datatype Stage = Stage(layers: seq<Layer>, mem: seq<LayerMem>, width: nat)

  predicate StagesOk(stages: seq<Stage>, cap: nat) {
    forall i :: 0 <= i < |stages| ==> stages[i].width > 0 && Shaped(stages[i].layers, stages[i].mem, cap)
  }

  function AllLayers(stages: seq<Stage>): seq<Layer> {
    if stages == [] then [] else stages[0].layers + AllLayers(stages[1..])
  }

  function AllMem(stages: seq<Stage>): seq<LayerMem> {
    if stages == [] then [] else stages[0].mem + AllMem(stages[1..])
  }

  /** A chain of stages, each handing its residual rows to the next (runChain). */
  function RunChain(stages: seq<Stage>, base: nat, xs: seq<Vec>, cap: nat): (r: (seq<Stage>, seq<Vec>))
    requires StagesOk(stages, cap) && base + |xs| <= cap
    ensures StagesOk(r.0, cap) && |r.1| == |xs|
  {
    if stages == [] then ([], xs) else
      var (m, ys) := StageRun(stages[0].layers, stages[0].mem, base, xs, stages[0].width, cap);
      var (rest, zs) := RunChain(stages[1..], base, ys, cap);
      ([stages[0].(mem := m)] + rest, zs)
  }

  /** Any number of cuts at any layers, each stage re-chunking at its own width, equals
      running the uncut model one token at a time. */
  lemma {:induction false} ChainIsTokenMajor(stages: seq<Stage>, base: nat, xs: seq<Vec>, cap: nat)
    requires StagesOk(stages, cap) && base + |xs| <= cap
    ensures Shaped(AllLayers(stages), AllMem(stages), cap)
    ensures var (after, ys) := RunChain(stages, base, xs, cap);
            AllLayers(after) == AllLayers(stages)
            && RunTokens(AllLayers(stages), AllMem(stages), base, xs, cap) == (AllMem(after), ys)
  {
    if stages == [] {
      LayerMajorIsTokenMajor([], [], base, xs, cap);
    } else {
      var s := stages[0];
      StageRunIsTokenMajor(s.layers, s.mem, base, xs, s.width, cap);
      var (m, ys) := StageRun(s.layers, s.mem, base, xs, s.width, cap);
      ChainIsTokenMajor(stages[1..], base, ys, cap);
      var (rest, zs) := RunChain(stages[1..], base, ys, cap);
      TokensCut(s.layers, AllLayers(stages[1..]), s.mem, AllMem(stages[1..]), base, xs, cap);
      var after := [s.(mem := m)] + rest;
      assert after[1..] == rest;
    }
  }

  // ---- what a slot's state must be after a list of inputs ----

  /** Equal recurrent state, and equal KV rows below `n`; rows from `n` on may differ. */
  predicate Agree(ls: seq<Layer>, a: seq<LayerMem>, b: seq<LayerMem>, n: nat) {
    && |a| == |ls| && |b| == |ls|
    && forall i :: 0 <= i < |ls| ==>
         match ls[i]
         case Recurrent(_, _) => a[i].Rec? && a[i] == b[i]
         case Attention(_, _, _) =>
           a[i].Kv? && b[i].Kv? && n <= |a[i].rows| && n <= |b[i].rows| && a[i].rows[..n] == b[i].rows[..n]
  }

  /** The state of a slot that was cleared and fed exactly `xs`, one position at a time. */
  function Canon(ls: seq<Layer>, xs: seq<Vec>): (ms: seq<LayerMem>)
    ensures Shaped(ls, ms, |xs|)
  {
    RunTokens(ls, Zero(ls, |xs|), 0, xs, |xs|).0
  }

  function Outs(ls: seq<Layer>, xs: seq<Vec>): (ys: seq<Vec>)
    ensures |ys| == |xs|
  {
    RunTokens(ls, Zero(ls, |xs|), 0, xs, |xs|).1
  }

  /** `ms` is the state after exactly `xs`, whatever its KV rows beyond `|xs|` hold. */
  predicate Holds(ls: seq<Layer>, ms: seq<LayerMem>, xs: seq<Vec>, cap: nat) {
    Shaped(ls, ms, cap) && |xs| <= cap && Agree(ls, ms, Canon(ls, xs), |xs|)
  }

  lemma {:induction false} StepAgree(ls: seq<Layer>, a: seq<LayerMem>, capA: nat, b: seq<LayerMem>, capB: nat,
                                     pos: nat, x: Vec)
    requires Shaped(ls, a, capA) && Shaped(ls, b, capB) && pos < capA && pos < capB
    requires Agree(ls, a, b, pos)
    ensures StepLayers(ls, a, pos, x, capA).1 == StepLayers(ls, b, pos, x, capB).1
    ensures Agree(ls, StepLayers(ls, a, pos, x, capA).0, StepLayers(ls, b, pos, x, capB).0, pos + 1)
  {
    if ls != [] {
      var (ma, ya) := StepLayer(ls[0], a[0], pos, x, capA);
      var (mb, yb) := StepLayer(ls[0], b[0], pos, x, capB);
      if ls[0].Attention? {
        assert ma.rows[..pos + 1] == a[0].rows[..pos] + [ls[0].row(pos, x)];
        assert mb.rows[..pos + 1] == b[0].rows[..pos] + [ls[0].row(pos, x)];
      }
      StepAgree(ls[1..], a[1..], capA, b[1..], capB, pos, ya);
    }
  }

  lemma {:induction false} RunAgree(ls: seq<Layer>, a: seq<LayerMem>, capA: nat, b: seq<LayerMem>, capB: nat,
                                    base: nat, xs: seq<Vec>)
    requires Shaped(ls, a, capA) && Shaped(ls, b, capB) && base + |xs| <= capA && base + |xs| <= capB
    requires Agree(ls, a, b, base)
    ensures RunTokens(ls, a, base, xs, capA).1 == RunTokens(ls, b, base, xs, capB).1
    ensures Agree(ls, RunTokens(ls, a, base, xs, capA).0, RunTokens(ls, b, base, xs, capB).0, base + |xs|)
    decreases |xs|
  {
    if xs != [] {
      StepAgree(ls, a, capA, b, capB, base, xs[0]);
      RunAgree(ls, StepLayers(ls, a, base, xs[0], capA).0, capA, StepLayers(ls, b, base, xs[0], capB).0, capB,
               base + 1, xs[1..]);
    }
  }

  lemma AgreeTrans(ls: seq<Layer>, a: seq<LayerMem>, b: seq<LayerMem>, c: seq<LayerMem>, n: nat)
    requires Agree(ls, a, b, n) && Agree(ls, b, c, n)
    ensures Agree(ls, a, c, n) && Agree(ls, b, a, n)
  {
  }

  lemma HoldsZero(ls: seq<Layer>, cap: nat)
    ensures Holds(ls, Zero(ls, cap), [], cap)
  {
  }

  /** Continuing from a correct state: the state is correct for the longer input and the
      outputs are those of a cold run over all of it. */
  lemma HoldsRun(ls: seq<Layer>, ms: seq<LayerMem>, xs: seq<Vec>, ys: seq<Vec>, cap: nat)
    requires Holds(ls, ms, xs, cap) && |xs| + |ys| <= cap
    ensures Holds(ls, RunTokens(ls, ms, |xs|, ys, cap).0, xs + ys, cap)
    ensures Outs(ls, xs + ys) == Outs(ls, xs) + RunTokens(ls, ms, |xs|, ys, cap).1
  {
    var n := |xs + ys|;
    var mid := RunTokens(ls, Zero(ls, n), 0, xs, n).0;
    ColdPrefix(ls, xs, n);
    ColdRunSplits(ls, Zero(ls, n), n, xs, ys);
    HoldsRunFrom(ls, ms, cap, Canon(ls, xs), mid, n, |xs|, ys);
  }

  /** Capacity does not matter to a cold run. */
  lemma ColdPrefix(ls: seq<Layer>, xs: seq<Vec>, n: nat)
    requires |xs| <= n
    ensures Agree(ls, RunTokens(ls, Zero(ls, n), 0, xs, n).0, Canon(ls, xs), |xs|)
    ensures RunTokens(ls, Zero(ls, n), 0, xs, n).1 == Outs(ls, xs)
  {
    var a, b := Zero(ls, n), Zero(ls, |xs|);
    assert Agree(ls, a, b, 0);
    RunAgree(ls, a, n, b, |xs|, 0, xs);
  }

  lemma HoldsRunFrom(ls: seq<Layer>, ms: seq<LayerMem>, cap: nat, canon: seq<LayerMem>, mid: seq<LayerMem>, n: nat,
                     base: nat, ys: seq<Vec>)
    requires Shaped(ls, ms, cap) && Shaped(ls, mid, n) && base + |ys| <= cap && base + |ys| <= n
    requires Agree(ls, ms, canon, base) && Agree(ls, mid, canon, base)
    ensures Agree(ls, RunTokens(ls, ms, base, ys, cap).0, RunTokens(ls, mid, base, ys, n).0, base + |ys|)
    ensures RunTokens(ls, ms, base, ys, cap).1 == RunTokens(ls, mid, base, ys, n).1
  {
    AgreeTrans(ls, mid, canon, mid, base);
    AgreeTrans(ls, ms, canon, mid, base);
    RunAgree(ls, ms, cap, mid, n, base, ys);
  }

  lemma ColdRunSplits(ls: seq<Layer>, zero: seq<LayerMem>, n: nat, xs: seq<Vec>, ys: seq<Vec>)
    requires n == |xs + ys| && zero == Zero(ls, n)
    ensures var (mid, o) := RunTokens(ls, zero, 0, xs, n);
            var (m, os) := RunTokens(ls, mid, |xs|, ys, n);
            Canon(ls, xs + ys) == m && Outs(ls, xs + ys) == o + os
  {
    RunTokensAppend(ls, zero, 0, xs, ys, n);
  }

  lemma HoldsAgree(ls: seq<Layer>, a: seq<LayerMem>, b: seq<LayerMem>, xs: seq<Vec>, cap: nat)
    requires Holds(ls, a, xs, cap) && Shaped(ls, b, cap) && Agree(ls, b, a, |xs|)
    ensures Holds(ls, b, xs, cap)
  {
    AgreeTrans(ls, b, a, Canon(ls, xs), |xs|);
  }

  lemma ZeroCut(l1: seq<Layer>, l2: seq<Layer>, cap: nat)
    ensures Zero(l1 + l2, cap) == Zero(l1, cap) + Zero(l2, cap)
  {
  }

  /** A split model: the tail stage sees exactly the head stage's outputs. */
  lemma OutsCut(l1: seq<Layer>, l2: seq<Layer>, xs: seq<Vec>)
    ensures Outs(l1 + l2, xs) == Outs(l2, Outs(l1, xs))
  {
    ZeroCut(l1, l2, |xs|);
    OutsCutFrom(l1, l2, Zero(l1, |xs|), Zero(l2, |xs|), xs, |xs|);
  }

  lemma OutsCutFrom(l1: seq<Layer>, l2: seq<Layer>, z1: seq<LayerMem>, z2: seq<LayerMem>, xs: seq<Vec>, n: nat)
    requires n == |xs| && Shaped(l1, z1, n) && Shaped(l2, z2, n)
    ensures Shaped(l1 + l2, z1 + z2, n)
    ensures RunTokens(l1 + l2, z1 + z2, 0, xs, n).1 == RunTokens(l2, z2, 0, RunTokens(l1, z1, 0, xs, n).1, n).1
  {
    TokensCut(l1, l2, z1, z2, 0, xs, n);
  }

  lemma RunOne(ls: seq<Layer>, ms: seq<LayerMem>, base: nat, x: Vec, cap: nat)
    requires Shaped(ls, ms, cap) && base < cap
    ensures RunTokens(ls, ms, base, [x], cap)
         == (StepLayers(ls, ms, base, x, cap).0, [StepLayers(ls, ms, base, x, cap).1])
  {
    var (m, y) := StepLayers(ls, ms, base, x, cap);
    var none: seq<Vec> := [];
    assert [x][1..] == none && RunTokens(ls, m, base + 1, none, cap) == (m, none);
    assert [y] + none == [y];
  }
}
