/** A pipeline stage: some layers of the model, with per-slot state and snapshot entries. */
module StageEngine {
  import opened Network
  import opened Prefill

  /** Both sides of the link are stages; the head owns the first layers, the worker the rest. */
  datatype Machine = Machine(mem: seq<seq<LayerMem>>, snaps: seq<seq<LayerMem>>)

  predicate MachineOk(ls: seq<Layer>, m: Machine, nSlots: nat, nSnaps: nat, cap: nat) {
    && |m.mem| == nSlots && |m.snaps| == nSnaps
    && (forall i :: 0 <= i < nSlots ==> Shaped(ls, m.mem[i], cap))
    && (forall i :: 0 <= i < nSnaps ==> Shaped(ls, m.snaps[i], cap))
  }

  /** What stage_run does to a slot: `base == 0` starts from a cleared slot. */
  function RunSlot(ls: seq<Layer>, ms: seq<LayerMem>, base: nat, xs: seq<Vec>, cap: nat): (r: (seq<LayerMem>, seq<Vec>))
    requires Shaped(ls, ms, cap) && base + |xs| <= cap
    ensures Shaped(ls, r.0, cap) && |r.1| == |xs|
  {
    RunTokens(ls, if base == 0 then Zero(ls, cap) else ms, base, xs, cap)
  }

  /** stageRun: the chunk is fed in pieces of at most `width`. */
  method RunStage(ls: seq<Layer>, ms0: seq<LayerMem>, base: nat, xs: seq<Vec>, width: nat, cap: nat, budget: nat,
                  qb: nat)
    returns (ms: seq<LayerMem>, ys: seq<Vec>)
    requires Shaped(ls, ms0, cap) && xs != [] && base + |xs| <= cap && width > 0 && qb > 0
    ensures (ms, ys) == RunSlot(ls, ms0, base, xs, cap)
  {
    hide RunTokens, View;
    ms, ys := ms0, [];
    var off := 0;
    ghost var start := if base == 0 then Zero(ls, cap) else ms0;
    while off < |xs|
      invariant off <= |xs| && Shaped(ls, ms, cap) && |ys| == off
      invariant off == 0 ==> ms == ms0 && ys == []
      invariant off > 0 ==> (ms, ys) == RunTokens(ls, start, base, xs[..off], cap)
      decreases |xs| - off
    {
      var cn := if width < |xs| - off then width else |xs| - off;
      ghost var before, outs := if off == 0 then start else ms, ys;
      SeededView(ls, before, ms0, cap);
      var part, scratch;
      ms, scratch, part := PrefillBatch(ls, ms, ms0, false, base + off, xs[off..off + cn], cap, budget, qb);
      PieceDone(ls, start, base, xs, off, cn, before, outs, cap);
      ys := ys + part;
      off := off + cn;
    }
    assert xs[..|xs|] == xs;
  }

  lemma PieceDone(ls: seq<Layer>, start: seq<LayerMem>, base: nat, xs: seq<Vec>, off: nat, cn: nat,
                  ms: seq<LayerMem>, ys: seq<Vec>, cap: nat)
    requires Shaped(ls, start, cap) && Shaped(ls, ms, cap) && off + cn <= |xs| && base + |xs| <= cap
    requires off == 0 ==> ms == start && ys == []
    requires off > 0 ==> (ms, ys) == RunTokens(ls, start, base, xs[..off], cap)
    ensures var (m, zs) := RunTokens(ls, ms, base + off, xs[off..off + cn], cap);
            RunTokens(ls, start, base, xs[..off + cn], cap) == (m, ys + zs)
  {
    hide RunTokens;
    assert xs[..off + cn] == xs[..off] + xs[off..off + cn];
    if off == 0 {
      assert xs[..cn] == xs[0..cn];
      var (m, zs) := RunTokens(ls, ms, base, xs[0..cn], cap);
      assert ys + zs == zs;
    } else {
      RunTokensAppend(ls, start, base, xs[..off], xs[off..off + cn], cap);
    }
  }

  /** copyStripes with a live token count: recurrent state moves whole, KV rows only below `nTok`. */
  function CopyLive(ls: seq<Layer>, from: seq<LayerMem>, to: seq<LayerMem>, nTok: nat, cap: nat): (ms: seq<LayerMem>)
    requires Shaped(ls, from, cap) && Shaped(ls, to, cap)
    ensures Shaped(ls, ms, cap)
  {
    seq(|ls|, i requires 0 <= i < |ls| =>
      if ls[i].Attention? && 0 < nTok < cap then Kv(from[i].rows[..nTok] + to[i].rows[nTok..]) else from[i])
  }

  /** A snapshot taken or restored with the number of tokens it stands for loses nothing that will be read. */
  lemma LiveCopyHolds(ls: seq<Layer>, from: seq<LayerMem>, to: seq<LayerMem>, xs: seq<Vec>, cap: nat)
    requires Holds(ls, from, xs, cap) && Shaped(ls, to, cap)
    ensures Holds(ls, CopyLive(ls, from, to, |xs|, cap), xs, cap)
  {
    hide Canon, Holds;
    HoldsShape(ls, from, xs, cap);
    LiveCopyAgree(ls, from, to, |xs|, cap);
    HoldsAgree(ls, from, CopyLive(ls, from, to, |xs|, cap), xs, cap);
  }

  lemma HoldsShape(ls: seq<Layer>, ms: seq<LayerMem>, xs: seq<Vec>, cap: nat)
    requires Holds(ls, ms, xs, cap)
    ensures Shaped(ls, ms, cap) && |xs| <= cap
  {
  }

  lemma LiveCopyAgree(ls: seq<Layer>, from: seq<LayerMem>, to: seq<LayerMem>, n: nat, cap: nat)
    requires Shaped(ls, from, cap) && Shaped(ls, to, cap) && n <= cap
    ensures Agree(ls, CopyLive(ls, from, to, n, cap), from, n)
  {
  }

  /** qk_state_save and qk_state_load on one machine. */
  function MovedState(ls: seq<Layer>, m: Machine, save: bool, slot: nat, idx: nat, nTok: nat, cap: nat): (r: Machine)
    requires MachineOk(ls, m, |m.mem|, |m.snaps|, cap) && slot < |m.mem| && idx < |m.snaps|
    ensures MachineOk(ls, r, |m.mem|, |m.snaps|, cap)
  {
    if save then m.(snaps := m.snaps[idx := CopyLive(ls, m.mem[slot], m.snaps[idx], nTok, cap)])
    else m.(mem := m.mem[slot := CopyLive(ls, m.snaps[idx], m.mem[slot], nTok, cap)])
  }

  /** The copies, layer by layer. */
  method MoveState(ls: seq<Layer>, m: Machine, save: bool, slot: nat, idx: nat, nTok: nat,
                   cap: nat) returns (r: Machine)
    requires MachineOk(ls, m, |m.mem|, |m.snaps|, cap) && slot < |m.mem| && idx < |m.snaps|
    ensures r == MovedState(ls, m, save, slot, idx, nTok, cap)
  {
    var from := if save then m.mem[slot] else m.snaps[idx];
    var to := if save then m.snaps[idx] else m.mem[slot];
    var out := to;
    for il := 0 to |ls|
      invariant |out| == |ls|
      invariant forall i :: 0 <= i < il ==> out[i] == CopyLive(ls, from, to, nTok, cap)[i]
      invariant forall i :: il <= i < |ls| ==> out[i] == to[i]
    {
      if ls[il].Attention? && nTok != 0 && nTok < cap {
        out := out[il := Kv(from[il].rows[..nTok] + out[il].rows[nTok..])];
      } else {
        out := out[il := from[il]];
      }
    }
    assert out == CopyLive(ls, from, to, nTok, cap);
    r := if save then m.(snaps := m.snaps[idx := out]) else m.(mem := m.mem[slot := out]);
  }
}
