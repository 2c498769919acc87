/** Head, channel and worker of a split model, as values. */
module Pipeline {
  import opened Network
  import opened Greedy
  import opened StageEngine
  import opened Wire

  /** The split: layers below `cut` run on the head. A local driver has no worker, and `cut` is the layer count.
      `topk` stands for the candidates of a logit row, `pick` for a sampler that has made `draws` earlier draws. */
  datatype Setup = Setup(
    net: Net, cut: nat, remote: bool, nSlots: nat, nSnaps: nat, nCtx: nat, workerCtx: nat, width: nat,
    attnBudget: nat, qb: nat, eos: Token, topk: (Vec, nat) -> seq<Cand>, pick: (seq<Cand>, nat, nat) -> Token)

  ghost predicate SetupOk(d: Setup) {
    && d.cut <= |d.net.layers| && (!d.remote ==> d.cut == |d.net.layers|)
    && d.nSlots >= 1 && d.nCtx <= d.workerCtx && d.width > 0 && d.qb > 0
    && forall v: Vec, k: nat :: |d.topk(v, k)| == k
  }

  function HeadLayers(d: Setup): seq<Layer>
    requires SetupOk(d)
  {
    d.net.layers[..d.cut]
  }

  function TailLayers(d: Setup): seq<Layer>
    requires SetupOk(d)
  {
    d.net.layers[d.cut..]
  }

  ghost predicate WorkerMemOk(d: Setup, mem: seq<seq<LayerMem>>) {
    SetupOk(d) && |mem| == d.nSlots && forall i :: 0 <= i < d.nSlots ==> Shaped(TailLayers(d), mem[i], d.workerCtx)
  }

  /** A run frame the worker accepts. */
  predicate FrameOk(d: Setup, f: Frame) {
    f.Run? && f.slot < d.nSlots && f.rows != [] && f.base + |f.rows| <= d.workerCtx
  }

  function Answered(d: Setup, f: Frame, ys: seq<Vec>): (r: Reply)
    requires f.Run? && f.rows != [] && |ys| == |f.rows| && SetupOk(d)
    ensures |r.ids| == |f.rows| && |r.cands| == f.topk
  {
    Reply(Ids(d.net, ys), if f.topk > 0 then d.topk(ys[|ys| - 1], f.topk) else [])
  }

  /** The worker's op 1: run the rows through the tail, reply with one id per position. */
  function Exec(d: Setup, mem: seq<seq<LayerMem>>, f: Frame): (r: (seq<seq<LayerMem>>, Reply))
    requires WorkerMemOk(d, mem) && FrameOk(d, f)
    ensures WorkerMemOk(d, r.0) && |r.1.ids| == |f.rows| && |r.1.cands| == f.topk
  {
    var (m, ys) := RunSlot(TailLayers(d), mem[f.slot], f.base, f.rows, d.workerCtx);
    (mem[f.slot := m], Answered(d, f, ys))
  }

  predicate InboxOk(d: Setup, fs: seq<Frame>) {
    forall i :: 0 <= i < |fs| ==> FrameOk(d, fs[i])
  }

  /** Where the worker ends up, and what it will have replied, once it has served its inbox. */
  function Drain(d: Setup, mem: seq<seq<LayerMem>>, fs: seq<Frame>): (r: (seq<seq<LayerMem>>, seq<Reply>))
    requires WorkerMemOk(d, mem) && InboxOk(d, fs)
    ensures WorkerMemOk(d, r.0) && |r.1| == |fs|
    decreases |fs|
  {
    if fs == [] then (mem, []) else
      var (m, reply) := Exec(d, mem, fs[0]);
      var (m2, rs) := Drain(d, m, fs[1..]);
      (m2, [reply] + rs)
  }

  lemma {:induction false} DrainAppend(d: Setup, mem: seq<seq<LayerMem>>, fs: seq<Frame>, f: Frame)
    requires WorkerMemOk(d, mem) && InboxOk(d, fs) && FrameOk(d, f)
    ensures InboxOk(d, fs + [f])
    ensures var (m, rs) := Drain(d, mem, fs);
            var (m2, r) := Exec(d, m, f);
            Drain(d, mem, fs + [f]) == (m2, rs + [r])
    decreases |fs|
  {
    hide Exec, RunSlot;
    if fs == [] {
      assert fs + [f] == [f] && [f][1..] == [];
      var (m, r) := Exec(d, mem, f);
      var none: seq<Frame>, empty: seq<Reply> := [], [];
      assert Drain(d, m, none) == (m, empty);
      assert Drain(d, mem, [f]) == (m, [r] + empty);
      assert [r] + empty == empty + [r];
    } else {
      assert (fs + [f])[0] == fs[0] && (fs + [f])[1..] == fs[1..] + [f];
      var (m1, r0) := Exec(d, mem, fs[0]);
      DrainAppend(d, m1, fs[1..], f);
      var (m, rs) := Drain(d, m1, fs[1..]);
      var r := Exec(d, m, f).1;
      assert [r0] + (rs + [r]) == ([r0] + rs) + [r];
    }
  }

  /** The link is in order: what has arrived plus what the worker will still answer is what is owed, the worker
      ends where `final` says, and `pending` lists exactly the shapes of the replies owed. */
  ghost predicate LinkOk(d: Setup, mem: seq<seq<LayerMem>>, inbox: seq<Frame>, outbox: seq<Reply>,
                         pending: seq<(nat, nat)>, final: seq<seq<LayerMem>>, owed: seq<Reply>) {
    && WorkerMemOk(d, mem) && InboxOk(d, inbox)
    && Drain(d, mem, inbox).0 == final
    && outbox + Drain(d, mem, inbox).1 == owed
    && (if d.remote then ShapesMatch(pending, owed) else inbox == [] && pending == [])
  }

  /** Sending a frame adds its answer to what is owed. */
  lemma LinkSent(d: Setup, mem: seq<seq<LayerMem>>, inbox: seq<Frame>, outbox: seq<Reply>,
                 pending: seq<(nat, nat)>, final: seq<seq<LayerMem>>, owed: seq<Reply>, f: Frame)
    requires LinkOk(d, mem, inbox, outbox, pending, final, owed) && d.remote && FrameOk(d, f)
    ensures WorkerMemOk(d, final) && WorkerMemOk(d, Exec(d, final, f).0)
    ensures LinkOk(d, mem, inbox + [f], outbox, pending + [(|f.rows|, f.topk)], Exec(d, final, f).0,
                   owed + [Exec(d, final, f).1])
  {
    hide Exec;
    DrainAppend(d, mem, inbox, f);
    var r := Exec(d, final, f).1;
    assert outbox + (Drain(d, mem, inbox).1 + [r]) == owed + [r];
  }

  /** Serving a frame moves its answer from the future to the pipe. */
  lemma LinkServed(d: Setup, mem: seq<seq<LayerMem>>, inbox: seq<Frame>, outbox: seq<Reply>,
                   pending: seq<(nat, nat)>, final: seq<seq<LayerMem>>, owed: seq<Reply>)
    requires LinkOk(d, mem, inbox, outbox, pending, final, owed) && inbox != []
    ensures FrameOk(d, inbox[0]) && WorkerMemOk(d, mem)
    ensures LinkOk(d, Exec(d, mem, inbox[0]).0, inbox[1..], outbox + [Exec(d, mem, inbox[0]).1], pending, final, owed)
  {
    hide Exec, ShapesMatch;
    var (m, r) := Exec(d, mem, inbox[0]);
    var rest := Drain(d, m, inbox[1..]).1;
    assert outbox + ([r] + rest) == (outbox + [r]) + rest;
  }

  lemma ExecIs(d: Setup, mem: seq<seq<LayerMem>>, f: Frame)
    requires WorkerMemOk(d, mem) && FrameOk(d, f)
    ensures f.Run? && f.slot < |mem| && f.rows != [] && f.base + |f.rows| <= d.workerCtx
    ensures Shaped(TailLayers(d), mem[f.slot], d.workerCtx)
    ensures var (m, ys) := RunSlot(TailLayers(d), mem[f.slot], f.base, f.rows, d.workerCtx);
      |ys| == |f.rows| && Exec(d, mem, f) == (mem[f.slot := m], Answered(d, f, ys))
  {
    hide RunSlot;
  }

  lemma LinkEmpty(d: Setup, mem: seq<seq<LayerMem>>)
    requires WorkerMemOk(d, mem)
    ensures LinkOk(d, mem, [], [], [], mem, [])
  {
  }

  /** A local queue may be emptied at any time. */
  lemma LinkCleared(d: Setup, mem: seq<seq<LayerMem>>, inbox: seq<Frame>, outbox: seq<Reply>,
                    pending: seq<(nat, nat)>, final: seq<seq<LayerMem>>, owed: seq<Reply>)
    requires LinkOk(d, mem, inbox, outbox, pending, final, owed) && !d.remote
    ensures LinkOk(d, mem, inbox, [], pending, final, [])
  {
  }

  /** A local answer goes straight to the queue. */
  lemma LinkQueued(d: Setup, mem: seq<seq<LayerMem>>, inbox: seq<Frame>, outbox: seq<Reply>,
                   pending: seq<(nat, nat)>, final: seq<seq<LayerMem>>, owed: seq<Reply>, r: Reply)
    requires LinkOk(d, mem, inbox, outbox, pending, final, owed) && !d.remote
    ensures LinkOk(d, mem, inbox, outbox + [r], pending, final, owed + [r])
  {
    assert Drain(d, mem, inbox) == (mem, []);
    assert outbox + [] == outbox && outbox + [r] + [] == outbox + [r];
  }

  /** A local queue holds exactly what is owed. */
  lemma LinkLocal(d: Setup, mem: seq<seq<LayerMem>>, inbox: seq<Frame>, outbox: seq<Reply>,
                  pending: seq<(nat, nat)>, final: seq<seq<LayerMem>>, owed: seq<Reply>)
    requires LinkOk(d, mem, inbox, outbox, pending, final, owed) && !d.remote
    ensures outbox == owed
    ensures owed != [] ==> LinkOk(d, mem, inbox, outbox[1..], pending, final, owed[1..])
  {
    assert Drain(d, mem, inbox) == (mem, []);
    assert outbox + [] == outbox;
    if owed != [] {
      assert outbox[1..] + [] == outbox[1..];
    }
  }

  /** The oldest answer that has arrived is the oldest owed, and has the oldest pending shape. */
  lemma LinkTaken(d: Setup, mem: seq<seq<LayerMem>>, inbox: seq<Frame>, outbox: seq<Reply>,
                  pending: seq<(nat, nat)>, final: seq<seq<LayerMem>>, owed: seq<Reply>)
    requires LinkOk(d, mem, inbox, outbox, pending, final, owed) && d.remote && outbox != []
    ensures owed != [] && outbox[0] == owed[0] && pending != []
    ensures pending[0] == (|owed[0].ids|, |owed[0].cands|)
    ensures LinkOk(d, mem, inbox, outbox[1..], pending[1..], final, owed[1..])
  {
    hide Drain;
    var rest := Drain(d, mem, inbox).1;
    assert outbox[1..] + rest == (outbox + rest)[1..];
  }

  lemma LinkLengths(d: Setup, mem: seq<seq<LayerMem>>, inbox: seq<Frame>, outbox: seq<Reply>,
                    pending: seq<(nat, nat)>, final: seq<seq<LayerMem>>, owed: seq<Reply>)
    requires LinkOk(d, mem, inbox, outbox, pending, final, owed)
    ensures |outbox| + |inbox| == |owed| && (d.remote ==> |pending| == |owed|)
  {
    hide Drain;
  }

  /** On the wire: the worker reads the inbox back from its words, and the driver, reading with its pending list,
      recovers from the words of the replies exactly those owed. */
  lemma LinkOnWire(d: Setup, mem: seq<seq<LayerMem>>, inbox: seq<Frame>, outbox: seq<Reply>,
                   pending: seq<(nat, nat)>, final: seq<seq<LayerMem>>, owed: seq<Reply>)
    requires LinkOk(d, mem, inbox, outbox, pending, final, owed) && d.remote
    ensures ReadAll(EncodeAll(inbox)) == (inbox, [])
    ensures ReadReplies(pending, EncodeReplies(owed)) == (owed, [])
  {
    hide Drain;
    StreamRoundTrip(inbox);
    RepliesRoundTrip(pending, owed);
  }

  /** With nothing owed, nothing is under way. */
  lemma LinkIdle(d: Setup, mem: seq<seq<LayerMem>>, inbox: seq<Frame>, outbox: seq<Reply>,
                 pending: seq<(nat, nat)>, final: seq<seq<LayerMem>>, owed: seq<Reply>)
    requires LinkOk(d, mem, inbox, outbox, pending, final, owed) && owed == []
    ensures final == mem && inbox == [] && outbox == [] && pending == []
  {
  }

  // ---- a sequence's state on both machines ----

  /** Head and worker hold the two halves of the state after exactly `h`. A sequence that has fed
      nothing yet has no state: its first frame starts at position 0 and clears both halves. */
  ghost predicate BothHold(d: Setup, hm: seq<LayerMem>, wm: seq<LayerMem>, h: seq<Token>) {
    SetupOk(d) && (h != [] ==>
      && Holds(HeadLayers(d), hm, Embed(d.net, h), d.nCtx)
      && Holds(TailLayers(d), wm, Outs(HeadLayers(d), Embed(d.net, h)), d.workerCtx))
  }

  /** The row of logits from which the token after `h` is picked. */
  function LastRow(net: Net, h: seq<Token>): Vec
    requires h != []
  {
    Outs(net.layers, Embed(net, h))[|h| - 1]
  }

  /** Stage-cut correctness of one frame: both halves advance, the ids are the serial model's picks, and the last
      row is the serial model's too. */
  lemma FrameIsSerial(d: Setup, hm: seq<LayerMem>, wm: seq<LayerMem>, h: seq<Token>, toks: seq<Token>)
    requires SetupOk(d) && Shaped(HeadLayers(d), hm, d.nCtx) && Shaped(TailLayers(d), wm, d.workerCtx)
    requires BothHold(d, hm, wm, h) && |h| + |toks| <= d.nCtx
    ensures var (hm2, rows) := RunSlot(HeadLayers(d), hm, |h|, Embed(d.net, toks), d.nCtx);
            var (wm2, ys) := RunSlot(TailLayers(d), wm, |h|, rows, d.workerCtx);
            && BothHold(d, hm2, wm2, h + toks)
            && (forall j :: 0 <= j < |toks| ==> d.net.argmax(ys[j]) == Next(d.net, h + toks[..j + 1]))
            && (toks != [] ==> ys[|toks| - 1] == LastRow(d.net, h + toks))
  {
    hide RunTokens, Holds, Outs, Next, Zero, LastRow;
    var hl, tl := HeadLayers(d), TailLayers(d);
    var a, b := Embed(d.net, h), Embed(d.net, toks);
    var hs := if h == [] then Zero(hl, d.nCtx) else hm;
    var ws := if h == [] then Zero(tl, d.workerCtx) else wm;
    HoldsZero(hl, d.nCtx);
    HoldsZero(tl, d.workerCtx);
    assert h == [] ==> a == [] && Outs(hl, a) == [];
    HoldsRun(hl, hs, a, b, d.nCtx);
    var rows := RunTokens(hl, hs, |h|, b, d.nCtx).1;
    HoldsRun(tl, ws, Outs(hl, a), rows, d.workerCtx);
    EmbedAppend(d.net, h, toks);
    IdsOfWhole(d, h, toks, RunTokens(tl, ws, |h|, rows, d.workerCtx).1);
  }

  /** The same for a frame sent down the link: what its reply will be. */
  lemma FrameAnswered(d: Setup, hm: seq<LayerMem>, wm: seq<seq<LayerMem>>, slot: nat, h: seq<Token>,
                      toks: seq<Token>, topk: nat)
    requires WorkerMemOk(d, wm) && slot < |wm| && Shaped(HeadLayers(d), hm, d.nCtx)
    requires BothHold(d, hm, wm[slot], h) && toks != [] && |h| + |toks| <= d.nCtx
    ensures var (hm2, rows) := RunSlot(HeadLayers(d), hm, |h|, Embed(d.net, toks), d.nCtx);
            var f := Run(slot, |h|, rows, topk);
            && FrameOk(d, f)
            && var (wm2, r) := Exec(d, wm, f);
               && |wm2| == |wm| && (forall i :: 0 <= i < |wm| && i != slot ==> wm2[i] == wm[i])
               && BothHold(d, hm2, wm2[slot], h + toks) && |r.ids| == |toks|
               && (forall j :: 0 <= j < |toks| ==> r.ids[j] == Next(d.net, h + toks[..j + 1]))
               && r.cands == if topk > 0 then d.topk(LastRow(d.net, h + toks), topk) else []
  {
    hide RunSlot, Next, LastRow, BothHold, Exec, Shaped;
    FrameIsSerial(d, hm, wm[slot], h, toks);
    var rows := RunSlot(HeadLayers(d), hm, |h|, Embed(d.net, toks), d.nCtx).1;
    ExecIs(d, wm, Run(slot, |h|, rows, topk));
  }

  lemma IdsOfWhole(d: Setup, h: seq<Token>, toks: seq<Token>, ys: seq<Vec>)
    requires SetupOk(d) && |ys| == |toks|
    requires var x := Embed(d.net, h + toks);
             Outs(TailLayers(d), Outs(HeadLayers(d), x))
             == Outs(TailLayers(d), Outs(HeadLayers(d), Embed(d.net, h))) + ys
    ensures forall j :: 0 <= j < |toks| ==> d.net.argmax(ys[j]) == Next(d.net, h + toks[..j + 1])
    ensures toks != [] ==> ys[|toks| - 1] == LastRow(d.net, h + toks)
  {
    hide Outs, Next;
    var x := Embed(d.net, h + toks);
    OutsCut(HeadLayers(d), TailLayers(d), x);
    assert HeadLayers(d) + TailLayers(d) == d.net.layers;
    forall j | 0 <= j < |toks| ensures d.net.argmax(ys[j]) == Next(d.net, h + toks[..j + 1]) {
      NextInside(d.net, h + toks, |h| + j);
      assert (h + toks)[..|h| + j + 1] == h + toks[..j + 1];
      assert Outs(d.net.layers, x)[|h| + j] == ys[j];
    }
  }
}
