/** The split-serving driver: head engine, worker link, slots and snapshot registry. */
module SplitServing {
  import opened Common
  import opened Network
  import opened Greedy
  import opened Deliveries
  import opened Events
  import opened StageEngine
  import opened Wire
  import opened Pipeline
  import opened SplitSlots
  import opened SplitTables
  import opened SplitRuns

  datatype LinkResult = Ok | Failed | Bailed

  class Driver {
    const d: Setup
    // The environment: the n-th operation that can fail (a head run or copy, a send, a receive, a state
    // operation on the worker) does so when `faults(n)`; `ops` counts them.
    const faults: nat -> bool
    var ops: nat
    var head: Machine
    var worker: Machine
    // The link: frames and replies under way, and the shapes of unanswered run frames.
    var inbox: seq<Frame>
    var outbox: seq<Reply>
    var pending: seq<(nat, nat)>
    var slots: seq<Option<Occ>>
    var snaps: seq<Option<Entry>>
    var lruClock: nat
    var queue: seq<Job>
    // The worker's slot memory once it has served its inbox, and all replies still to be received.
    ghost var final: seq<seq<LayerMem>>
    ghost var owed: seq<Reply>
    // Per slot: the tokens both machines have been (or will have been) fed.
    ghost var fed: seq<seq<Token>>
    // Requests whose events were all handed over.
    ghost var log: seq<Handed<Phase>>

    ghost predicate Shape()
      reads this
    {
      && SetupOk(d) && |slots| == |fed| == d.nSlots && |snaps| == d.nSnaps
      && MachineOk(HeadLayers(d), head, d.nSlots, d.nSnaps, d.nCtx)
      && MachineOk(TailLayers(d), worker, d.nSlots, d.nSnaps, d.workerCtx)
      && WorkerMemOk(d, final)
      && (forall i :: 0 <= i < |queue| ==> JobOk(d, queue[i]))
    }

    /** The link is in order: what has arrived plus what the worker will still answer is what is owed,
        and `pending` lists exactly those replies' shapes. */
    ghost predicate Linked()
      requires Shape()
      reads this
    {
      LinkOk(d, worker.mem, inbox, outbox, pending, final, owed)
    }

    /** Every registered prefix is held, at its index, by both machines. */
    ghost predicate RegistryOk()
      requires Shape()
      reads this
    {
      Registered(d, snaps, head.snaps, worker.snaps)
    }

    ghost predicate LogOk()
      reads this
    {
      Logged(d, log)
    }

    /** Between passes. */
    ghost predicate Valid()
      reads this
    {
      Shape() && Linked() && RegistryOk() && LogOk() && AllRest(d, Table(slots, head.mem, final, fed))
    }

    // ---- link operations ----

    /** The worker serves the oldest frame in its inbox. */
    method WorkerStep()
      requires Shape() && Linked() && inbox != []
      modifies `worker, `inbox, `outbox
      ensures Shape() && Linked() && inbox == old(inbox)[1..] && |outbox| == |old(outbox)| + 1
      ensures old(outbox) == outbox[..|outbox| - 1] && worker.snaps == old(worker.snaps)
    {
      hide Shaped, LinkOk, RunSlot, Exec, Drain, ShapesMatch, JobOk, InboxOk, MachineOk, WorkerMemOk, SetupOk, FrameOk,
           Answered;
      var f := inbox[0];
      LinkServed(d, worker.mem, inbox, outbox, pending, final, owed);
      ServeReady(d, worker, f);
      var m, ys := RunStage(TailLayers(d), worker.mem[f.slot], f.base, f.rows, d.width, d.workerCtx, d.attnBudget,
                            d.qb);
      var r := Answered(d, f, ys);
      ExecIs(d, worker.mem, f);
      MemServed(d, worker, f.slot, m);
      worker := worker.(mem := worker.mem[f.slot := m]);
      inbox := inbox[1..];
      outbox := outbox + [r];
    }

    /** A dead connection: nothing is under way any more, and the worker's state is unknown. */
    method Poison()
      requires Shape()
      modifies `worker, `inbox, `outbox, `pending, `final, `owed
      ensures Shape() && Linked() && owed == [] && pending == []
    {
      hide Shaped, LinkOk, MachineOk, WorkerMemOk, JobOk;
      var w: Machine := *;
      if MachineOk(TailLayers(d), w, d.nSlots, d.nSnaps, d.workerCtx) {
        worker := w;
      }
      MachineIdle(d, worker);
      inbox, outbox, pending := [], [], [];
      final, owed := worker.mem, [];
    }

    /** The worker serves any number of frames, in its own time. */
    method WorkerRuns()
      requires Shape() && Linked()
      modifies `worker, `inbox, `outbox
      ensures Shape() && Linked() && worker.snaps == old(worker.snaps)
    {
      hide Shaped, LinkOk;
      while inbox != []
        invariant Shape() && Linked() && worker.snaps == old(worker.snaps)
        decreases |inbox|
      {
        var later: bool := *;
        if later {
          break;
        }
        WorkerStep();
      }
    }

    /** send_run: the frame goes out and its reply shape is queued, or the link is poisoned. The worker may already
        be at it, and at earlier frames. */
    method SendRun(slot: nat, base: nat, rows: seq<Vec>, topk: nat) returns (ok: bool)
      requires Shape() && Linked() && d.remote && FrameOk(d, Run(slot, base, rows, topk))
      modifies `worker, `inbox, `outbox, `pending, `final, `owed, `ops
      ensures Shape() && Linked() && ops == old(ops) + 1 && ok == !faults(old(ops))
      ensures ok ==>
        && worker.snaps == old(worker.snaps)
        && (final, owed) == (Exec(d, old(final), Run(slot, base, rows, topk)).0,
                             old(owed) + [Exec(d, old(final), Run(slot, base, rows, topk)).1])
      ensures !ok ==> owed == []
    {
      hide Shaped, RunSlot, Exec, LinkOk, MachineOk, JobOk, WorkerMemOk;
      ops := ops + 1;
      if faults(ops - 1) {
        Poison();
        return false;
      }
      var f := Run(slot, base, rows, topk);
      LinkSent(d, worker.mem, inbox, outbox, pending, final, owed, f);
      ghost var (m, r) := Exec(d, final, f);
      inbox := inbox + [f];
      pending := pending + [(|rows|, topk)];
      final, owed := m, owed + [r];
      WorkerRuns();
      return true;
    }

    /** recv_ids: the reply of the oldest unanswered frame. The worker may have run ahead arbitrarily. */
    method RecvIds() returns (ok: bool, r: Reply)
      requires Shape() && Linked() && d.remote && owed != []
      modifies `worker, `inbox, `outbox, `pending, `final, `owed, `ops
      ensures Shape() && Linked() && ops == old(ops) + 1 && ok == !faults(old(ops))
      ensures ok ==>
        && r == old(owed)[0] && owed == old(owed)[1..] && final == old(final)
        && worker.snaps == old(worker.snaps) && |r.ids| == old(pending)[0].0 && |r.cands| == old(pending)[0].1
      ensures !ok ==> owed == []
    {
      hide Shaped, LinkOk, MachineOk, JobOk, WorkerMemOk, SetupOk;
      r := Reply([], []);
      ops := ops + 1;
      if faults(ops - 1) {
        Poison();
        return false, r;
      }
      LinkLengths(d, worker.mem, inbox, outbox, pending, final, owed);
      while inbox != []
        invariant Shape() && Linked() && owed == old(owed) && final == old(final) && pending == old(pending)
        invariant worker.snaps == old(worker.snaps) && ops == old(ops) + 1
        invariant |outbox| + |inbox| == |owed|
        decreases |inbox|
      {
        var arrived: bool := *;
        if outbox != [] && arrived {
          break;
        }
        WorkerStep();
      }
      LinkTaken(d, worker.mem, inbox, outbox, pending, final, owed);
      r := outbox[0];
      outbox, pending := outbox[1..], pending[1..];
      owed := owed[1..];
      return true, r;
    }

    lemma StateOpFacts(save: bool, slot: nat, idx: nat, nTok: nat)
      requires Shape() && Linked() && slot < d.nSlots && idx < d.nSnaps
      ensures |worker.mem| == d.nSlots && |worker.snaps| == d.nSnaps
      ensures owed == [] ==> final == worker.mem
      ensures d.remote && pending == [] ==> owed == [] && inbox == [] && outbox == []
      ensures LinkOk(d, worker.mem, [], [], [], worker.mem, [])
      ensures var moved := MovedState(TailLayers(d), worker, save, slot, idx, nTok, d.workerCtx);
        MachineOk(TailLayers(d), moved, d.nSlots, d.nSnaps, d.workerCtx) && WorkerMemOk(d, moved.mem)
        && LinkOk(d, moved.mem, [], [], [], moved.mem, [])
    {
      hide Shaped, LinkOk, CopyLive;
      LinkLengths(d, worker.mem, inbox, outbox, pending, final, owed);
      LinkEmpty(d, worker.mem);
      LinkEmpty(d, MovedState(TailLayers(d), worker, save, slot, idx, nTok, d.workerCtx).mem);
      if owed == [] {
        LinkIdle(d, worker.mem, inbox, outbox, pending, final, owed);
      }
    }

    /** state_op while run frames are in flight would misread their replies as a status, so it refuses.
        A failed operation may or may not have happened on the worker; nothing else there changes. */
    method StateOp(save: bool, slot: nat, idx: nat, nTok: nat) returns (res: LinkResult)
      requires Shape() && Linked() && slot < d.nSlots && idx < d.nSnaps
      modifies `worker, `inbox, `outbox, `pending, `final, `owed, `ops
      ensures Shape() && Linked()
      ensures res == Bailed <==> d.remote && old(pending) != []
      ensures res == Bailed ==>
        worker == old(worker) && owed == old(owed) && final == old(final) && pending == old(pending)
      ensures res == Failed ==> d.remote && owed == [] && faults(old(ops))
      ensures res == Ok ==> Quiet(faults, old(ops), ops)
      ensures ops == old(ops) + if d.remote && res != Bailed then 1 else 0
      ensures old(owed) == [] ==> owed == []
      ensures old(owed) == [] ==> final == worker.mem && old(final) == old(worker.mem)
      ensures res == Ok && d.remote && old(owed) == [] ==>
        worker == MovedState(TailLayers(d), old(worker), save, slot, idx, nTok, d.workerCtx)
      ensures res == Ok && !d.remote ==> worker == old(worker) && final == old(final)
      ensures worker == old(worker)
           || worker == MovedState(TailLayers(d), old(worker), save, slot, idx, nTok, d.workerCtx)
    {
      hide Shaped, MovedState, MachineOk, SetupOk, WorkerMemOk, LinkOk, JobOk;
      StateOpFacts(save, slot, idx, nTok);
      if !d.remote {
        return Ok;
      }
      if pending != [] {
        return Bailed;
      }
      var moved := MoveState(TailLayers(d), worker, save, slot, idx, nTok, d.workerCtx);
      ops := ops + 1;
      if faults(ops - 1) {
        if * {
          worker := moved;
        }
        inbox, outbox, pending := [], [], [];
        final, owed := worker.mem, [];
        return Failed;
      }
      worker := moved;
      final := worker.mem;
      return Ok;
    }

    // ---- one frame ----

    /** The downstream half of a frame: on the wire, or, for a local driver, already computed. */
    method HandOn(slot: nat, base: nat, rows: seq<Vec>, topk: nat) returns (ok: bool)
      requires Shape() && Linked() && FrameOk(d, Run(slot, base, rows, topk))
      modifies `worker, `inbox, `outbox, `pending, `final, `owed, `ops
      ensures Shape() && Linked() && ops == old(ops) + (if d.remote then 1 else 0) && ok == Quiet(faults, old(ops), ops)
      ensures ok ==>
        && worker.snaps == old(worker.snaps)
        && (final, owed) == (Exec(d, old(final), Run(slot, base, rows, topk)).0,
                             old(owed) + [Exec(d, old(final), Run(slot, base, rows, topk)).1])
      ensures !ok ==> d.remote && owed == []
    {
      hide Shaped, LinkOk, Exec, RunSlot, JobOk, MachineOk;
      if d.remote {
        ok := SendRun(slot, base, rows, topk);
      } else {
        var f := Run(slot, base, rows, topk);
        var reply := Answered(d, f, rows);
        ExecIs(d, final, f);
        NoTail(d, final[slot], base, rows);
        LinkQueued(d, worker.mem, inbox, outbox, pending, final, owed, reply);
        assert final[slot := final[slot]] == final;
        outbox := outbox + [reply];
        owed := owed + [reply];
        ok := true;
      }
    }

    /** The head's half of a frame. */
    method RunHead(slot: nat, toks: seq<Token>, base: nat) returns (rows: seq<Vec>)
      requires Shape() && Linked() && slot < d.nSlots && toks != [] && base + |toks| <= d.nCtx
      modifies `head
      ensures Shape() && Linked() && head.snaps == old(head.snaps)
      ensures |old(head.mem)| == d.nSlots && Shaped(HeadLayers(d), old(head.mem[slot]), d.nCtx)
      ensures var (m, ys) := RunSlot(HeadLayers(d), old(head.mem[slot]), base, Embed(d.net, toks), d.nCtx);
        head.mem == old(head.mem)[slot := m] && rows == ys
      ensures |rows| == |toks|
    {
      hide Shaped, RunSlot, LinkOk, JobOk, WorkerMemOk;
      var m;
      m, rows := RunStage(HeadLayers(d), head.mem[slot], base, Embed(d.net, toks), d.width, d.nCtx, d.attnBudget, d.qb);
      head := head.(mem := head.mem[slot := m]);
    }

    lemma FrameReady(slot: nat, base: nat, n: nat)
      requires Shape() && Linked() && slot < d.nSlots && base + n <= d.nCtx
      ensures SetupOk(d) && WorkerMemOk(d, final) && |final| == |fed| == |head.mem| == d.nSlots
      ensures Shaped(HeadLayers(d), head.mem[slot], d.nCtx) && Shaped(TailLayers(d), final[slot], d.workerCtx)
      ensures base + n <= d.workerCtx
    {
      hide Shaped, JobOk, LinkOk;
    }

    /** run_frame: the head's half now, the worker's half in the pipe. A head failure leaves the link as it is;
        a local driver's failures are all head failures. */
    method RunFrame(slot: nat, toks: seq<Token>, base: nat, topk: nat) returns (ok: bool, headFault: bool,
                    ghost r: Reply)
      requires Shape() && Linked() && slot < d.nSlots && toks != [] && base == |fed[slot]| && base + |toks| <= d.nCtx
      requires BothHold(d, head.mem[slot], final[slot], fed[slot])
      modifies `head, `worker, `inbox, `outbox, `pending, `final, `owed, `ops, `fed
      ensures Shape() && Linked() && head.snaps == old(head.snaps)
      ensures old(ops) < ops && ok == Quiet(faults, old(ops), ops) && headFault == faults(old(ops))
      ensures ops == old(ops) + if d.remote && !headFault then 2 else 1
      ensures ok ==>
        && worker.snaps == old(worker.snaps) && owed == old(owed) + [r]
        && fed == old(fed)[slot := old(fed[slot]) + toks]
        && BothHold(d, head.mem[slot], final[slot], fed[slot])
        && |r.ids| == |toks|
        && r.cands == (if topk > 0 then d.topk(LastRow(d.net, old(fed[slot]) + toks), topk) else [])
        && (forall j :: 0 <= j < |toks| ==> r.ids[j] == Next(d.net, old(fed[slot]) + toks[..j + 1]))
        && (forall i :: 0 <= i < d.nSlots && i != slot ==> head.mem[i] == old(head.mem[i]) && final[i] == old(final[i]))
      ensures !ok ==> fed == old(fed) && (d.remote || headFault)
      ensures !ok ==>
        if headFault then owed == old(owed) && pending == old(pending) && inbox == old(inbox) else owed == []
    {
      hide Shaped, RunTokens, Holds, Outs, Next, LinkOk, BothHold, RunSlot, JobOk, Exec, MachineOk, WorkerMemOk,
           SetupOk, LastRow, Answered, FrameOk, Drain, InboxOk, Embed;
      ok, headFault, r := false, false, Reply([], []);
      ops := ops + 1;
      if faults(ops - 1) {
        headFault := true;
        return;
      }
      FrameReady(slot, base, |toks|);
      FrameAnswered(d, head.mem[slot], final, slot, fed[slot], toks, topk);
      var rows := RunHead(slot, toks, base);
      ghost var f := Run(slot, base, rows, topk);
      r := Exec(d, final, f).1;
      ok := HandOn(slot, base, rows, topk);
      if ok {
        fed := fed[slot := fed[slot] + toks];
      }
    }

    // ---- the send phase of a pass ----

    /** Sends one frame for a decoding slot. */
    method SendToken(s: nat) returns (ok: bool, headFault: bool, ghost r: Reply)
      requires Shape() && Linked() && s < d.nSlots && Busy(slots, s)
      requires RestsNow(d, slots[s], head.mem[s], final[s], fed[s]) && slots[s].value.phase.Decoding?
      modifies `head, `worker, `inbox, `outbox, `pending, `final, `owed, `ops, `fed
      ensures Shape() && Linked() && head.snaps == old(head.snaps)
      ensures ok == Quiet(faults, old(ops), ops) && headFault == faults(old(ops))
      ensures ops == old(ops) + if d.remote && !headFault then 2 else 1
      ensures ok ==>
        && worker.snaps == old(worker.snaps) && owed == old(owed) + [r]
        && FliesNow(d, slots[s], head.mem[s], final[s], fed[s])
        && Matches(d, slots[s].value, 0, r)
        && (forall i :: 0 <= i < d.nSlots && i != s ==>
              fed[i] == old(fed[i]) && head.mem[i] == old(head.mem[i]) && final[i] == old(final[i]))
      ensures !ok ==> (d.remote || headFault)
                      && if headFault then owed == old(owed) && pending == old(pending) else owed == []
    {
      hide Shaped, RunTokens, Holds, Outs, Next, Drain, BothHold, Chosen, Choice, Candidates, Spoken, LastRow, LinkOk,
           MachineOk, WorkerMemOk, SetupOk;
      var o := slots[s].value;
      ok, headFault, r := RunFrame(s, [o.phase.next], o.phase.pos, if o.job.greedy then 0 else TOPK);
      if ok {
        assert r.ids[0] == Next(d.net, old(fed[s]) + [o.phase.next][..0 + 1]);
        CandidatesAre(d, old(fed[s]) + [o.phase.next]);
        TokenSent(d, o, r, old(fed[s]));
      }
    }

    /** Sends one chunk for a prefilling slot and advances its cursor. */
    method SendChunk(s: nat, n: nat) returns (ok: bool, headFault: bool, ghost r: Reply)
      requires Shape() && Linked() && s < d.nSlots && Filling(slots, s) && n > 0
      requires Unfinished(d, slots[s].value) && StateHolds(d, slots[s], head.mem[s], final[s], fed[s])
      requires fed[s] == slots[s].value.job.prompt[..slots[s].value.phase.done]
      requires slots[s].value.job.greedy ==> slots[s].value.phase.cands == []
      requires slots[s].value.phase.done + n <= |slots[s].value.job.prompt|
      requires slots[s].value.phase.snapAt > 0 && !slots[s].value.phase.snapped ==>
        slots[s].value.phase.done + n <= slots[s].value.phase.snapAt
      modifies `head, `worker, `inbox, `outbox, `pending, `final, `owed, `ops, `fed, `slots
      ensures Shape() && Linked() && head.snaps == old(head.snaps)
      ensures ok == Quiet(faults, old(ops), ops) && headFault == faults(old(ops))
      ensures ops == old(ops) + if d.remote && !headFault then 2 else 1
      ensures ok ==>
        && slots == old(slots)[s := Some(Cut(old(slots[s]).value, n))]
        && worker.snaps == old(worker.snaps) && owed == old(owed) + [r]
        && FliesNow(d, slots[s], head.mem[s], final[s], fed[s])
        && Matches(d, slots[s].value, slots[s].value.phase.done, r)
        && (forall i :: 0 <= i < d.nSlots && i != s ==>
              fed[i] == old(fed[i]) && head.mem[i] == old(head.mem[i]) && final[i] == old(final[i]))
      ensures !ok ==> slots == old(slots) && (d.remote || headFault)
                      && if headFault then owed == old(owed) && pending == old(pending) else owed == []
    {
      hide Shaped, RunTokens, Holds, Outs, Next, Drain, BothHold, Chosen, Choice, Candidates, Spoken, LastRow, LinkOk,
           MachineOk, WorkerMemOk, SetupOk;
      var o := slots[s].value;
      var p := o.phase;
      var chunk := o.job.prompt[p.done..p.done + n];
      var topk := if p.done + n == |o.job.prompt| && !o.job.greedy then TOPK else 0;
      ok, headFault, r := RunFrame(s, chunk, p.done, topk);
      if ok {
        var b := o.(phase := p.(done := p.done + n));
        assert r.ids[n - 1] == Next(d.net, old(fed[s]) + chunk[..n - 1 + 1]);
        assert p.done + n == |o.job.prompt| ==> old(fed[s]) + chunk == o.job.prompt;
        CandidatesAre(d, old(fed[s]) + chunk);
        ChunkSent(d, o, n, r, b, old(fed[s]));
        slots := slots[s := Some(b)];
      }
    }

    /** The slot may be sent another chunk. */
    ghost predicate CanSend(s: nat)
      requires Shape() && s < d.nSlots
      reads this
    {
      && Filling(slots, s) && Unfinished(d, slots[s].value) && StateHolds(d, slots[s], head.mem[s], final[s], fed[s])
      && fed[s] == slots[s].value.job.prompt[..slots[s].value.phase.done]
      && (slots[s].value.job.greedy ==> slots[s].value.phase.cands == [])
    }

    /** One burst of a prefilling slot; `n` is 0 when it must wait for its boundary snapshot. */
    method SendBurst(s: nat, shared: bool, sent0: seq<(nat, nat)>, ghost ends0: seq<nat>)
      returns (ok: bool, headFault: bool, n: nat, sent: seq<(nat, nat)>, ghost ends: seq<nat>)
      requires Shape() && Linked() && s < d.nSlots && CanSend(s) && Sending(d, slots, sent0, ends0, owed)
      requires forall j :: 0 <= j < |sent0| ==> sent0[j].0 <= s
      modifies `head, `worker, `inbox, `outbox, `pending, `final, `owed, `ops, `fed, `slots
      ensures Shape() && Linked() && head.snaps == old(head.snaps)
      ensures n == ChunkLength(old(slots[s]).value, shared) && n <= if shared then 32 else 128
      ensures var p := old(slots[s]).value.phase;
        || n == (if shared then 32 else 128) || p.done + n == |old(slots[s]).value.job.prompt|
        || (p.done + n == p.snapAt && !p.snapped)
      ensures ok == Quiet(faults, old(ops), ops) && (if n == 0 then !headFault else headFault == faults(old(ops)))
      ensures ops == old(ops) + if n == 0 then 0 else if d.remote && !headFault then 2 else 1
      ensures ok && n == 0 ==>
        slots == old(slots) && owed == old(owed) && sent == sent0 && ends == ends0 && fed == old(fed)
                               && head == old(head) && final == old(final) && worker == old(worker)
      ensures ok && n > 0 ==>
        && worker.snaps == old(worker.snaps) && Sending(d, slots, sent, ends, owed)
        && FliesNow(d, slots[s], head.mem[s], final[s], fed[s]) && CanSend(s)
        && slots == old(slots)[s := Some(Cut(old(slots[s]).value, n))]
        && sent == sent0 + [(s, n)]
        && (forall i :: 0 <= i < d.nSlots && i != s ==>
              fed[i] == old(fed[i]) && head.mem[i] == old(head.mem[i]) && final[i] == old(final[i]))
      ensures !ok ==> slots == old(slots) && (d.remote || headFault) && sent == sent0 && ends == ends0
                      && if headFault then owed == old(owed) else owed == []
    {
      hide Shaped, RunTokens, Holds, Outs, Next, Drain, BothHold, Chosen, Choice, Candidates, Spoken, Matches;
      sent, ends, ok, headFault := sent0, ends0, true, false;
      var o := slots[s].value;
      n := ChunkLength(o, shared);
      if n == 0 {
        return;
      }
      ghost var r;
      ok, headFault, r := SendChunk(s, n);
      if ok {
        SendingExtended(d, old(slots), s, sent0, ends0, old(owed), slots, n, r);
        sent, ends := sent + [(s, n)], ends + [slots[s].value.phase.done];
      }
    }

    /** All frames of one busy slot: its next token, or one chunk (two when it is alone). */
    method SendSlot(s: nat, shared: bool, sent0: seq<(nat, nat)>, ghost ends0: seq<nat>)
      returns (ok: bool, headFault: bool, sent: seq<(nat, nat)>, ghost ends: seq<nat>)
      requires Shape() && Linked() && s < d.nSlots && Busy(slots, s)
      requires RestsNow(d, slots[s], head.mem[s], final[s], fed[s]) && Sending(d, slots, sent0, ends0, owed)
      requires forall j :: 0 <= j < |sent0| ==> sent0[j].0 < s
      modifies `head, `worker, `inbox, `outbox, `pending, `final, `owed, `ops, `fed, `slots
      ensures Shape() && Linked() && head.snaps == old(head.snaps)
      ensures slots == old(slots)[s := slots[s]] && Busy(slots, s) && StaysIn(old(slots[s]).value, slots[s].value)
      ensures |sent0| <= |sent|
      ensures SentUpTo(d, faults, old(ops), ops, |sent| - |sent0|, FramesOf(old(slots[s]), shared), ok, headFault)
      ensures ok ==>
        && worker.snaps == old(worker.snaps) && Sending(d, slots, sent, ends, owed)
        && FliesNow(d, slots[s], head.mem[s], final[s], fed[s]) && Busy(slots, s)
        && SendAdvance(old(slots[s]).value, slots[s].value, shared)
        && |sent0| < |sent| <= |sent0| + Bursts(shared) && sent0 <= sent
        && (forall j :: |sent0| <= j < |sent| ==> sent[j].0 == s)
        && (forall i :: 0 <= i < d.nSlots && i != s ==>
              fed[i] == old(fed[i]) && head.mem[i] == old(head.mem[i]) && final[i] == old(final[i]))
      ensures !ok ==> if headFault then Sending(d, slots, sent, ends, owed) else owed == []
    {
      hide Shaped, RunTokens, Holds, Outs, Next, Drain, BothHold, Chosen, Choice, Candidates, Spoken, Matches,
           Sending, Flying, Unfinished;
      var o := slots[s].value;
      sent, ends := sent0, ends0;
      SendingLength(d, slots, sent0, ends0, owed);
      if o.phase.Decoding? {
        ghost var r;
        ghost var ops0 := ops;
        ok, headFault, r := SendToken(s);
        SentOneFrame(d, faults, ops0, ops, ok, headFault);
        if ok {
          SendingToken(d, slots, s, sent0, ends0, old(owed), r);
          sent, ends := sent + [(s, 0)], ends + [0];
        }
        return;
      }
      RestingCanSend(d, o, fed[s], shared);
      ok, headFault, sent, ends := SendChunks(s, shared, sent0, ends0);
    }

    lemma CanSendFacts(s: nat)
      requires Shape() && s < d.nSlots && CanSend(s)
      ensures Filling(slots, s) && Unfinished(d, slots[s].value)
      ensures var o := slots[s].value;
        && o.phase.reuse <= o.phase.done <= |o.job.prompt|
        && (o.phase.snapAt > 0 && !o.phase.snapped ==> o.phase.done <= o.phase.snapAt < |o.job.prompt|)
    {
      hide Shaped, Chosen, Spoken, StateHolds, LinkOk;
      CanSendBounds(d, slots[s].value);
    }

    /** The bursts of a prefilling slot. */
    method SendChunks(s: nat, shared: bool, sent0: seq<(nat, nat)>, ghost ends0: seq<nat>)
      returns (ok: bool, headFault: bool, sent: seq<(nat, nat)>, ghost ends: seq<nat>)
      requires Shape() && Linked() && s < d.nSlots && CanSend(s) && Sending(d, slots, sent0, ends0, owed)
      requires forall j :: 0 <= j < |sent0| ==> sent0[j].0 < s
      requires ChunkLength(slots[s].value, shared) > 0
      modifies `head, `worker, `inbox, `outbox, `pending, `final, `owed, `ops, `fed, `slots
      ensures Shape() && Linked() && head.snaps == old(head.snaps)
      ensures slots == old(slots)[s := slots[s]] && Busy(slots, s) && StaysIn(old(slots[s]).value, slots[s].value)
      ensures |sent0| <= |sent|
      ensures SentUpTo(d, faults, old(ops), ops, |sent| - |sent0|, FramesOf(old(slots[s]), shared), ok, headFault)
      ensures ok ==>
        && worker.snaps == old(worker.snaps) && Sending(d, slots, sent, ends, owed)
        && FliesNow(d, slots[s], head.mem[s], final[s], fed[s]) && Busy(slots, s)
        && SendAdvance(old(slots[s]).value, slots[s].value, shared)
        && |sent0| < |sent| <= |sent0| + Bursts(shared) && sent0 <= sent
        && (forall j :: |sent0| <= j < |sent| ==> sent[j].0 == s)
        && (forall i :: 0 <= i < d.nSlots && i != s ==>
              fed[i] == old(fed[i]) && head.mem[i] == old(head.mem[i]) && final[i] == old(final[i]))
      ensures !ok ==> if headFault then Sending(d, slots, sent, ends, owed) else owed == []
    {
      hide Shaped, RunTokens, Holds, Outs, Next, Drain, BothHold, Chosen, Choice, Candidates, Spoken, Matches,
           Sending, Flying, Unfinished, Linked, FramesOf, SentUpTo, HeadFailsOn, SendAdvance, StaysIn, ChunkLength,
           CanSend, FliesNow, SetupOk, MachineOk, WorkerMemOk, JobOk;
      var n;
      CanSendFacts(s);
      ghost var a, ops0 := slots[s].value, ops;
      SecondChunk(d, a, shared);
      ChunksAdvance(d, a, shared);
      ok, headFault, n, sent, ends := SendBurst(s, shared, sent0, ends0);
      SentOneFrame(d, faults, ops0, ops, ok, headFault);
      if shared || !ok {
        if !ok {
          MoreDue(d, faults, ops0, ops, 0, 1, FramesOf(Some(a), shared), headFault);
        }
        return;
      }
      CanSendFacts(s);
      ghost var b, ops1 := slots[s].value, ops;
      SecondAdvance(d, a);
      ok, headFault, n, sent, ends := SendBurst(s, shared, sent, ends);
      if n == 0 {
        return;
      }
      SentOneFrame(d, faults, ops1, ops, ok, headFault);
      SentOn(d, faults, ops0, ops1, ops, 1, if ok then 1 else 0, 1, 1, ok, headFault);
    }

    lemma ValidTable(shared: bool)
      requires Valid()
      ensures Shape() && Linked() && |slots| == d.nSlots
      ensures SentBelow(d, slots, Table(slots, head.mem, final, fed), [], 0, shared) && OnlyBusy(slots, slots)
      ensures BusyBelow(slots, 0) == {}
    {
      NoneSentYet(d, Table(slots, head.mem, final, fed), shared);
    }

    lemma TableSized()
      requires Shape()
      ensures Table(slots, head.mem, final, fed).Sized(d.nSlots)
    {
    }

    lemma BurstsAre(shared: bool)
      ensures Bursts(shared) == if shared then 1 else 2
    {
    }

    /** The send phase: every busy slot sends its frames, in slot order, until one fails. */
    method SendPhase(shared: bool) returns (ok: bool, headFault: bool, sent: seq<(nat, nat)>, ghost ends: seq<nat>)
      requires Valid() && owed == []
      modifies `head, `worker, `inbox, `outbox, `pending, `final, `owed, `ops, `fed, `slots
      ensures Shape() && Linked() && head.snaps == old(head.snaps)
      ensures |sent| <= if shared then |BusyBelow(old(slots), d.nSlots)| else 2 * |BusyBelow(old(slots), d.nSlots)|
      ensures OnlyBusy(old(slots), slots)
      ensures SentUpTo(d, faults, old(ops), ops, |sent|, FramesDue(old(slots), |old(slots)|, shared), ok, headFault)
      ensures ok ==>
        && worker.snaps == old(worker.snaps) && Sending(d, slots, sent, ends, owed)
        && SentBelow(d, old(slots), Table(slots, head.mem, final, fed), sent, d.nSlots, shared)
      ensures !ok ==> if headFault then Sending(d, slots, sent, ends, owed) else owed == []
    {
      hide *;
      ghost var before := slots;
      ValidTable(shared);
      ok, headFault, sent, ends := true, false, [], [];
      NothingSent(d, slots);
      SentNone(d, faults, ops);
      NothingDue(before, shared);
      var s := 0;
      while s < d.nSlots && ok
        invariant s <= d.nSlots && Shape() && Linked() && head.snaps == old(head.snaps)
        invariant |slots| == |before| == d.nSlots
        invariant |sent| <= if shared then |BusyBelow(before, s)| else 2 * |BusyBelow(before, s)|
        invariant OnlyBusy(before, slots)
        invariant SentUpTo(d, faults, old(ops), ops, |sent|, FramesDue(before, s, shared), ok, headFault)
        invariant ok ==> Sending(d, slots, sent, ends, owed) && worker.snaps == old(worker.snaps)
        invariant ok ==> SentBelow(d, before, Table(slots, head.mem, final, fed), sent, s, shared)
        invariant !ok ==> if headFault then Sending(d, slots, sent, ends, owed) else owed == []
        decreases d.nSlots - s, ok
      {
        BusyCount(before, s);
        DueNext(before, s, shared);
        ghost var t, sent0 := Table(slots, head.mem, final, fed), sent;
        Unsent(d, before, t, sent, s, shared);
        if slots[s].Some? && !slots[s].value.st.finished {
          ghost var ops0 := ops;
          SentFacts(d, faults, old(ops), ops, |sent|, FramesDue(before, s, shared), ok, headFault);
          ok, headFault, sent, ends := SendSlot(s, shared, sent, ends);
          SentFacts(d, faults, ops0, ops, |sent| - |sent0|, FramesOf(before[s], shared), ok, headFault);
          SentOn(d, faults, old(ops), ops0, ops, |sent0|, |sent| - |sent0|, FramesDue(before, s, shared),
                 FramesOf(before[s], shared), ok, headFault);
          TableSized();
          OnlyBusyNext(before, t.slots, slots, s);
          BusyIs(slots, s);
          BurstsAre(shared);
        }
        if ok {
          TableSized();
          SentNext(d, before, t, Table(slots, head.mem, final, fed), sent0, sent, s, shared);
        }
        s := s + 1;
      }
      BusyGrows(before, s, d.nSlots);
      DueGrows(before, s, d.nSlots, shared);
      if !ok {
        MoreDue(d, faults, old(ops), ops, |sent|, FramesDue(before, s, shared),
                FramesDue(before, d.nSlots, shared), headFault);
      }
    }

    // ---- the receive phase of a pass ----

    ghost predicate Receiving(rest: seq<(nat, nat)>, ends: seq<nat>)
      reads this
    {
      && Shape() && Linked() && Sending(d, slots, rest, ends, owed)
      && AllArrive(d, Table(slots, head.mem, final, fed), rest)
    }

    /** recv_frame: the next reply in send order. A local driver pops its own queue. */
    method RecvFrame() returns (ok: bool, r: Reply)
      requires Shape() && Linked() && owed != []
      modifies `worker, `inbox, `outbox, `pending, `final, `owed, `ops
      ensures Shape() && Linked()
      ensures old(ops) <= ops && ok == Quiet(faults, old(ops), ops)
      ensures ok ==>
        r == old(owed)[0] && owed == old(owed)[1..] && final == old(final) && worker.snaps == old(worker.snaps)
      ensures !ok ==> d.remote && owed == []
    {
      hide Shaped, LinkOk;
      if d.remote {
        ok, r := RecvIds();
      } else {
        LinkLocal(d, worker.mem, inbox, outbox, pending, final, owed);
        ok, r := true, outbox[0];
        outbox, owed := outbox[1..], owed[1..];
      }
    }

    /** Tries to deliver a slot's events; frees the slot when all are gone or its consumer is. */
    method FlushAt(s: nat)
      requires |slots| == d.nSlots && s < d.nSlots && slots[s].Some? && |slots[s].value.ch.buf| <= CHANNEL_CAP
      requires LogOk()
      requires slots[s].value.st.finished ==> Complete(d, slots[s].value)
      modifies `slots, `log
      ensures LogOk() && |slots| == d.nSlots && slots == old(slots)[s := slots[s]]
      ensures Flushed(old(slots[s]), slots[s]) && (slots[s].Some? ==> |slots[s].value.ch.buf| <= CHANNEL_CAP)
      ensures Accounted(old(slots), old(log), slots, log)
    {
      hide Shaped, FinishedRight, Spoken, Accounted;
      var o := slots[s].value;
      var st, ch, outcome := FlushSlot(o.st, o.ch);
      var b := o.(st := st, ch := ch);
      if outcome != Closed {
        assert ch.taken + ch.buf + st.pending == ch.taken + (ch.buf + st.pending);
        assert o.ch.taken + o.ch.buf + o.st.pending == o.ch.taken + (o.ch.buf + o.st.pending);
        assert b.Produced() == o.Produced();
      }
      match outcome
      case StillLive =>
        slots := slots[s := Some(b)];
        SlotGoesOn(old(slots), s, b, log);
      case Drained =>
        slots := slots[s := None];
        log := log + [Handed(s, b)];
        SlotLeft(old(slots), s, b, old(log), log);
      case Closed =>
        slots := slots[s := None];
        SlotLeft(old(slots), s, b, log, log);
    }

    /** A decoding slot takes its next token. */
    method LandDecode(s: nat, r: Reply)
      requires Shape() && LogOk() && Busy(slots, s) && slots[s].value.phase.Decoding?
      requires |slots[s].value.ch.buf| <= CHANNEL_CAP
      requires Flying(d, slots[s].value, fed[s]) && Matches(d, slots[s].value, 0, r) && r.ids != []
      modifies `slots, `log
      ensures Shape() && LogOk() && slots == old(slots)[s := slots[s]]
      ensures slots[s].Some? ==>
        Arriving(d, slots[s].value, fed[s], false) && RecvAdvance(old(slots[s]).value, slots[s].value)
      ensures Accounted(old(slots), old(log), slots, log)
    {
      hide Shaped, Next, Chosen, Choice, Candidates, Spoken, Matches, Flying, Unfinished, Landed, Resting,
           FinishedRight, BothHold, Accounted;
      var o := slots[s].value;
      var id := PickId(d, o, r.cands, r.ids[0]);
      var st, live := ApplySample(o.st, id, d.eos);
      var b := o.(st := st, phase := Decoding(o.phase.pos + 1, if live then id else o.phase.next,
                                              if r.cands == [] then o.phase.draws else o.phase.draws + 1));
      LandToken(d, o, r, id, b, live, fed[s]);
      SampledOn(o, b);
      SlotGoesOn(slots, s, b, log);
      slots := slots[s := Some(b)];
      ghost var mid := slots;
      FlushAt(s);
      AccountedOn(old(slots), old(log), mid, old(log), slots, log);
      if slots[s].Some? {
        Delivered(d, b, slots[s].value, fed[s]);
        LandedRest(d, o, b, slots[s].value, fed[s], live);
      }
    }

    /** Applies one reply to its slot. */
    method Land(rest: seq<(nat, nat)>, ghost ends: seq<nat>, r: Reply, ghost owed0: seq<Reply>)
      requires Shape() && Linked() && LogOk() && rest != [] && Sending(d, slots, rest, ends, owed0) && owed0 != []
      requires r == owed0[0]
      requires owed == owed0[1..]
      requires forall i :: 0 <= i < d.nSlots && slots[i].Some? ==>
        Arriving(d, slots[i].value, fed[i], Noted(rest, 0, i)) && StateHolds(d, slots[i], head.mem[i], final[i], fed[i])
      modifies `slots, `log
      ensures |ends| == |rest| && Receiving(rest[1..], ends[1..]) && LogOk()
      ensures rest[0].0 < d.nSlots && slots == old(slots)[rest[0].0 := slots[rest[0].0]]
      ensures slots[rest[0].0].Some? ==> RecvAdvance(old(slots[rest[0].0]).value, slots[rest[0].0].value)
      ensures Filling(old(slots), rest[0].0) ==> slots[rest[0].0].Some?
      ensures Accounted(old(slots), old(log), slots, log)
    {
      hide Shaped, RunTokens, Holds, Outs, Next, Drain, BothHold, Chosen, Choice, Candidates, Spoken, Matches,
           Sending, Flying, Unfinished, Complete, Landed, Accounted, Continues;
      var s := rest[0].0;
      SendingHead(d, slots, rest, ends, owed0);
      LandFacts(d, slots, rest, ends, owed0, fed[s]);
      var o := slots[s].value;
      if o.phase.Decoding? {
        LandDecode(s, r);
      } else {
        var b := WithReply(o, r);
        ReplyRecorded(d, o, ends[0], r, b, fed[s]);
        PhaseOnly(o, b);
        SlotGoesOn(slots, s, b, log);
        slots := slots[s := Some(b)];
      }
      SendingTail(d, old(slots), rest, ends, owed0, slots);
      forall i | 0 <= i < d.nSlots && slots[i].Some?
        ensures Arriving(d, slots[i].value, fed[i], Noted(rest[1..], 0, i))
        ensures StateHolds(d, slots[i], head.mem[i], final[i], fed[i])
      {
        NotedTail(rest, i);
        assert i != s ==> slots[i] == old(slots)[i];
      }
    }

    lemma ReceivingFacts(rest: seq<(nat, nat)>, ends: seq<nat>)
      requires Receiving(rest, ends)
      ensures Shape() && Linked() && Sending(d, slots, rest, ends, owed) && |rest| == |ends| == |owed|
      ensures AllArrive(d, Table(slots, head.mem, final, fed), rest) && AllComplete(d, slots)
    {
      hide Shaped, Sending, StateHolds, Complete, Noted, Linked;
      SendingLength(d, slots, rest, ends, owed);
    }

    lemma StillArriving(rest: seq<(nat, nat)>)
      requires Shape() && AllArrive(d, Table(slots, head.mem, final, fed), rest)
      ensures forall i :: 0 <= i < d.nSlots && slots[i].Some? ==>
        Arriving(d, slots[i].value, fed[i], Noted(rest, 0, i)) && StateHolds(d, slots[i], head.mem[i], final[i], fed[i])
    {
    }

    /** The receive phase: replies in send order, until one fails. */
    method RecvPhase(sent: seq<(nat, nat)>, ghost ends: seq<nat>) returns (ok: bool)
      requires Receiving(sent, ends) && LogOk()
      requires AllNoted(slots, sent)
      modifies `worker, `inbox, `outbox, `pending, `final, `owed, `ops, `slots, `log
      ensures Shape() && Linked() && LogOk() && owed == []
      ensures ok ==> Receiving([], []) && worker.snaps == old(worker.snaps)
      ensures !ok ==> d.remote
      ensures OthersStill(old(slots), slots) && AllComplete(d, slots)
      ensures Accounted(old(slots), old(log), slots, log)
      ensures old(ops) <= ops && ok == Quiet(faults, old(ops), ops)
      ensures ok ==> Received(old(slots), slots)
    {
      hide *;
      var rest := sent;
      ghost var restEnds, first := ends, slots;
      ok := true;
      ReceivingFacts(sent, ends);
      NoneStepped(slots, sent);
      NothingMoved(slots, log);
      QuietNone(faults, ops);
      while rest != [] && ok
        invariant ok ==> Receiving(rest, restEnds)
        invariant Shape() && Linked() && LogOk()
        invariant if ok then worker.snaps == old(worker.snaps) else d.remote && owed == []
        invariant OthersStill(first, slots) && AllComplete(d, slots)
        invariant Accounted(first, old(log), slots, log)
        invariant old(ops) <= ops && ok == Quiet(faults, old(ops), ops)
        invariant ok ==> AllStepped(first, slots, rest)
        decreases |rest|, ok
      {
        ReceivingFacts(rest, restEnds);
        ghost var owed0, before, log0, ops0 := owed, slots, log, ops;
        SendingHead(d, slots, rest, restEnds, owed0);
        BusyIs(slots, rest[0].0);
        IsLogged();
        var r;
        ok, r := RecvFrame();
        QuietJoin(faults, old(ops), ops0, ops);
        StillLogged();
        if ok {
          StillArriving(rest);
          Land(rest, restEnds, r, owed0);
          AccountedOn(first, old(log), before, log0, slots, log);
          SteppedNext(d, first, before, rest, restEnds, owed0, slots);
          rest, restEnds := rest[1..], restEnds[1..];
          ReceivingFacts(rest, restEnds);
        }
      }
      if ok {
        ReceivingFacts(rest, restEnds);
        assert rest == [] && restEnds == [];
        AllReceived(first, slots);
      }
    }

    /** The local driver drops uncollected frames; a remote link has cleared itself only if it raised the error. */
    method ResetInflight()
      requires Shape() && Linked()
      modifies `outbox, `owed
      ensures Shape() && Linked() && owed == if d.remote then old(owed) else []
    {
      hide Shaped, LinkOk;
      if !d.remote {
        LinkCleared(d, worker.mem, inbox, outbox, pending, final, owed);
        outbox, owed := [], [];
      }
    }

    /** A failed pass: every unfinished request fails, the registry is void, finished ones keep draining. */
    method FailAll()
      requires Shape() && Linked() && LogOk()
      requires AllComplete(d, slots)
      modifies `outbox, `owed, `slots, `snaps
      ensures Valid() && owed == if d.remote then old(owed) else []
      ensures Dropped(old(slots), slots) && NoEntries(snaps)
    {
      hide *;
      ghost var before := slots;
      MachineSizes();
      IsLogged();
      ResetInflight();
      VoidSnaps();
      DropBusy();
      MachineSizes();
      VoidRegistry(d, snaps, head.snaps, worker.snaps);
      DroppedRest(d, before, Table(slots, head.mem, final, fed));
      IsValid();
    }

    method VoidSnaps()
      requires Shape() && Linked()
      modifies `snaps
      ensures Shape() && Linked() && |snaps| == d.nSnaps && NoEntries(snaps)
    {
      hide MachineOk, WorkerMemOk, JobOk, SetupOk, LinkOk;
      snaps := seq(d.nSnaps, _ => None);
    }

    lemma IsValid()
      requires Shape() && Linked() && Registered(d, snaps, head.snaps, worker.snaps) && Logged(d, log)
      requires AllRest(d, Table(slots, head.mem, final, fed))
      ensures Valid()
    {
      hide MachineOk, WorkerMemOk, JobOk, SetupOk, LinkOk, Registered, AllRest, Logged;
    }

    lemma MachineSizes()
      requires Shape()
      ensures |slots| == d.nSlots && |head.snaps| == |worker.snaps| == d.nSnaps
      ensures Table(slots, head.mem, final, fed).Sized(d.nSlots)
    {
    }

    method DropBusy()
      requires Shape() && Linked()
      modifies `slots
      ensures Shape() && Linked() && Dropped(old(slots), slots)
    {
      hide MachineOk, WorkerMemOk, JobOk, SetupOk, LinkOk;
      for i := 0 to d.nSlots
        invariant |slots| == d.nSlots
        invariant forall j :: 0 <= j < i ==> slots[j] == if Busy(old(slots), j) then None else old(slots)[j]
        invariant forall j :: i <= j < d.nSlots ==> slots[j] == old(slots)[j]
      {
        if slots[i].Some? && !slots[i].value.st.finished {
          slots := slots[i := None];
        }
      }
    }

    // ---- the barrier: the pipe is empty ----

    /** The first empty entry, else one least recently used. */
    method PickEntry() returns (idx: nat)
      requires |snaps| == d.nSnaps > 0
      ensures idx < d.nSnaps
      ensures snaps[idx].None? ==> forall j :: 0 <= j < idx ==> snaps[j].Some?
      ensures snaps[idx].Some? ==> forall j :: 0 <= j < d.nSnaps ==>
        snaps[j].Some? && snaps[idx].value.lru <= snaps[j].value.lru
    {
      idx := 0;
      var best: Option<nat> := None;
      for i := 0 to d.nSnaps
        invariant idx < d.nSnaps && (forall j :: 0 <= j < i ==> snaps[j].Some?)
        invariant i > 0 ==> idx < i && best == Some(snaps[idx].value.lru)
        invariant i == 0 ==> best == None && idx == 0
        invariant forall j :: 0 <= j < i ==> snaps[idx].value.lru <= snaps[j].value.lru
      {
        match snaps[i]
        case None =>
          return i;
        case Some(e) =>
          if best.None? || e.lru < best.value {
            best, idx := Some(e.lru), i;
          }
      }
    }

    /** Saves a slot's state to entry `idx` on the head, then on the worker. */
    method SaveBoth(s: nat, idx: nat, ghost h: seq<Token>) returns (saved: bool)
      requires Shape() && Linked() && owed == [] && s < d.nSlots && idx < d.nSnaps && h != []
      requires BothHold(d, head.mem[s], final[s], h)
      requires slots[s].Some? && slots[s].value.phase.Prefilling? && slots[s].value.phase.snapAt == |h|
      modifies `head, `worker, `inbox, `outbox, `pending, `final, `owed, `ops
      ensures Shape() && Linked() && owed == [] && head.mem == old(head.mem) && final == old(final)
      ensures forall i :: 0 <= i < d.nSnaps && i != idx ==>
                head.snaps[i] == old(head.snaps[i]) && worker.snaps[i] == old(worker.snaps[i])
      ensures saved ==> BothHold(d, head.snaps[idx], worker.snaps[idx], h)
      ensures old(ops) < ops && saved == Quiet(faults, old(ops), ops)
    {
      hide Shaped, RunTokens, Holds, Outs, LinkOk, BothHold, CopyLive, JobOk, WorkerMemOk, SetupOk, EntryHolds;
      ops := ops + 1;
      saved := !faults(ops - 1);
      if !saved {
        return;
      }
      var nTok := slots[s].value.phase.snapAt;
      LinkIdle(d, worker.mem, inbox, outbox, pending, final, owed);
      ghost var head0, worker0 := head, worker;
      head := MoveState(HeadLayers(d), head, true, s, idx, nTok, d.nCtx);
      var res := StateOp(true, s, idx, nTok);
      assert res != Bailed;
      saved := res == Ok;
      if saved {
        SavedBoth(d, head0, worker0, head, worker, s, idx, h);
      }
    }

    /** The boundary snapshot of one slot, on both machines; a failure only costs the snapshot. */
    method TakeSnapshot(s: nat) returns (ghost entry: nat)
      requires Shape() && Linked() && RegistryOk() && owed == [] && Filling(slots, s)
      requires Landed(d, slots[s].value, fed[s])
      requires StateHolds(d, slots[s], head.mem[s], final[s], fed[s])
      requires slots[s].value.phase.snapAt == slots[s].value.phase.done > 0 && !slots[s].value.phase.snapped
      modifies `head, `worker, `inbox, `outbox, `pending, `final, `owed, `ops, `slots, `snaps, `lruClock
      ensures Shape() && Linked() && RegistryOk() && owed == []
      ensures slots == old(slots)[s := slots[s]] && Filling(slots, s) && Landed(d, slots[s].value, fed[s])
      ensures slots[s].value.phase.snapped && slots[s].value.phase.done == old(slots[s]).value.phase.done
      ensures Continues(old(slots[s]).value, slots[s].value)
      ensures head.mem == old(head.mem) && final == old(final) && old(ops) < ops
      ensures EntryPut(old(snaps), snaps, entry,
                       if Quiet(faults, old(ops), ops) then Some(Entry(fed[s], lruClock)) else None)
    {
      hide Shaped, RunTokens, Holds, Outs, Next, Drain, Chosen, Choice, Candidates, Spoken, Flying, Unfinished,
           Complete, Landed, BothHold;
      var o := slots[s].value;
      var p := o.phase;
      LandedFacts(d, o, fed[s]);
      var idx := PickEntry();
      var saved := SaveBoth(s, idx, fed[s]);
      if saved {
        lruClock := lruClock + 1;
        snaps := snaps[idx := Some(Entry(o.job.prompt[..p.snapAt], lruClock))];
        assert o.job.prompt[..p.snapAt] == fed[s];
      } else {
        snaps := snaps[idx := None];
      }
      entry := idx;
      var b := o.(phase := p.(snapped := true, snapAt := if saved then p.snapAt else 0));
      BoundaryPassed(d, o, b, fed[s]);
      PhaseOnly(o, b);
      slots := slots[s := Some(b)];
    }

    /** The first token of a prefilled slot. */
    method TakeFirst(s: nat)
      requires LogOk() && |slots| == d.nSlots && Filling(slots, s) && slots[s].value.phase.lastId.Some?
      modifies `slots
      ensures LogOk() && |slots| == d.nSlots && slots == old(slots)[s := slots[s]] && slots[s].Some?
      ensures FirstTaken(d, old(slots[s]).value, slots[s].value)
    {
      hide Sampled;
      var o := slots[s].value;
      var id := PickId(d, o, o.phase.cands, o.phase.lastId.value);
      var st, live := ApplySample(o.st, id, d.eos);
      var b := o.(st := st, phase := Decoding(|o.job.prompt|, if live then id else 0,
                                              if o.phase.cands == [] then o.phase.draws else o.phase.draws + 1));
      assert FirstTakenAs(d, o, b, id, live);
      slots := slots[s := Some(b)];
    }

    /** prefill -> decode. */
    method StartDecoding(s: nat)
      requires Shape() && LogOk() && Filling(slots, s) && Landed(d, slots[s].value, fed[s])
      requires StateHolds(d, slots[s], head.mem[s], final[s], fed[s])
      requires slots[s].value.phase.done == |slots[s].value.job.prompt|
      modifies `slots, `log
      ensures Shape() && LogOk() && slots == old(slots)[s := slots[s]]
      ensures RestsNow(d, slots[s], head.mem[s], final[s], fed[s])
      ensures Accounted(old(slots), old(log), slots, log)
      ensures slots[s].Some? ==>
        && Continues(old(slots[s]).value, slots[s].value) && slots[s].value.phase.Decoding?
        && (slots[s].value.st.finished || (slots[s].value.phase.pos == |slots[s].value.job.prompt|
                                          && slots[s].value.Said() == [slots[s].value.phase.next]))
    {
      hide Shaped, RunTokens, Holds, Outs, Next, Drain, Chosen, Choice, Candidates, Spoken, Flying, Unfinished,
           Complete, Landed, BothHold, Resting, Accounted;
      var o := slots[s].value;
      LandedFacts(d, o, fed[s]);
      TakeFirst(s);
      ghost var b := slots[s].value;
      FirstToken(d, o, fed[s], b);
      FirstTakenOn(d, o, b);
      SlotGoesOn(old(slots), s, b, log);
      ghost var mid := slots;
      OccFacts(d, b, fed[s]);
      FlushAt(s);
      AccountedOn(old(slots), old(log), mid, old(log), slots, log);
      if slots[s].Some? {
        Delivered(d, b, slots[s].value, fed[s]);
      }
    }

    lemma BarrierStart()
      requires Receiving([], [])
      ensures Shape() && Linked() && |slots| == |fed| == |head.mem| == |final| == d.nSlots
      ensures forall i :: 0 <= i < d.nSlots ==> AtBarrier(d, slots[i], head.mem[i], final[i], fed[i])
    {
      hide Shaped, LinkOk, Arriving, StateHolds, JobOk;
      forall i | 0 <= i < d.nSlots ensures AtBarrier(d, slots[i], head.mem[i], final[i], fed[i]) {
        NothingNoted(i);
      }
    }

    lemma Sizes()
      requires Shape()
      ensures |slots| == |fed| == |head.mem| == |final| == d.nSlots
    {
    }

    /** Slot by slot, everyone rests. */
    lemma EveryoneRests()
      requires Shape() && Linked() && RegistryOk() && LogOk() && |slots| == |fed| == |head.mem| == |final| == d.nSlots
      requires forall i :: 0 <= i < d.nSlots ==> RestsNow(d, slots[i], head.mem[i], final[i], fed[i])
      ensures Valid()
    {
      hide Shaped, LinkOk, MachineOk, WorkerMemOk, JobOk, SetupOk, RestsNow, Registered, Logged;
    }

    /** Boundary snapshots and prefill-to-decode transitions, slot by slot. */
    method BarrierPhase()
      requires Receiving([], []) && LogOk() && RegistryOk() && owed == []
      modifies `head, `worker, `inbox, `outbox, `pending, `final, `owed, `ops, `slots, `snaps, `lruClock, `log
      ensures Valid() && owed == [] && old(ops) <= ops
      ensures Barriered(old(slots), slots) && Accounted(old(slots), old(log), slots, log)
    {
      hide *;
      ghost var first, log1, hm, wm, ops1 := slots, log, head.mem, final, ops;
      NothingMoved(slots, log);
      BarrierStart();
      for s := 0 to d.nSlots
        invariant Shape() && Linked() && RegistryOk() && LogOk() && owed == [] && ops1 <= ops
        invariant |first| == |slots| == |fed| == |head.mem| == |final| == d.nSlots
        invariant Accounted(first, log1, slots, log)
        invariant forall i :: 0 <= i < d.nSlots && (s <= i || !Filling(first, i)) ==> slots[i] == first[i]
        invariant head.mem == hm && final == wm
        invariant forall i :: 0 <= i < d.nSlots ==> AtBarrier(d, slots[i], head.mem[i], final[i], fed[i])
        invariant forall i :: 0 <= i < s ==> RestsNow(d, slots[i], head.mem[i], final[i], fed[i])
        invariant forall i :: 0 <= i < s && slots[i].Some? ==>
          first[i].Some? && BarrierAdvance(first[i].value, slots[i].value)
      {
        EmptyRests(d, slots[s], head.mem[s], final[s], fed[s]);
        if slots[s].Some? {
          ghost var before, log0 := slots, log;
          BarrierSlot(s);
          Sizes();
          SameFilling(first, before, s);
          AccountedOn(first, log1, before, log0, slots, log);
        }
      }
      AreBarriered(first, slots);
      EveryoneRests();
    }

    method BarrierSlot(s: nat)
      requires Shape() && Linked() && RegistryOk() && LogOk() && owed == [] && s < d.nSlots && slots[s].Some?
      requires forall i :: 0 <= i < d.nSlots ==> AtBarrier(d, slots[i], head.mem[i], final[i], fed[i])
      modifies `head, `worker, `inbox, `outbox, `pending, `final, `owed, `ops, `slots, `snaps, `lruClock, `log
      ensures Shape() && Linked() && RegistryOk() && LogOk() && owed == [] && old(ops) <= ops
      ensures slots == old(slots)[s := slots[s]] && (!Filling(old(slots), s) ==> slots == old(slots))
      ensures RestsNow(d, slots[s], head.mem[s], final[s], fed[s])
      ensures AtBarrier(d, slots[s], head.mem[s], final[s], fed[s])
      ensures Accounted(old(slots), old(log), slots, log)
      ensures slots[s].Some? ==> BarrierAdvance(old(slots[s]).value, slots[s].value)
      ensures var p := old(slots[s]).value.phase;
        p.Prefilling? && p.done == p.snapAt > 0 && !p.snapped && Quiet(faults, old(ops), ops) ==>
        exists i :: 0 <= i < d.nSnaps && snaps[i] == Some(Entry(fed[s], lruClock))
      ensures head.mem == old(head.mem) && final == old(final)
    {
      hide Shaped, RunTokens, Holds, Outs, Next, Drain, Chosen, Choice, Candidates, Spoken, Flying, Unfinished,
           Complete, Landed, BothHold, Resting, Accounted;
      ghost var a := slots[s].value;
      NothingMoved(slots, log);
      assert AtBarrier(d, slots[s], head.mem[s], final[s], fed[s]);
      ArrivedCases(d, a, fed[s]);
      if slots[s].value.phase.Decoding? {
        return;
      }
      LandedFacts(d, a, fed[s]);
      if SnapshotDue(slots[s].value) {
        ghost var entry := TakeSnapshot(s);
        assert Quiet(faults, old(ops), ops) ==> snaps[entry] == Some(Entry(fed[s], lruClock));
        SlotGoesOn(old(slots), s, slots[s].value, log);
        LandedFacts(d, slots[s].value, fed[s]);
      }
      ghost var mid := slots;
      if slots[s].value.phase.done == |slots[s].value.job.prompt| {
        StartDecoding(s);
        AccountedOn(old(slots), old(log), mid, old(log), slots, log);
        if slots[s].Some? {
          ContinuesOn(a, mid[s].value, slots[s].value);
          RestingArrived(d, slots[s].value, fed[s]);
        }
      } else {
        LandedRests(d, slots[s].value, fed[s]);
      }
    }

    // ---- admission ----

    /** The longest registered strict prefix of at least eight tokens. */
    method BestSnap(prompt: seq<Token>) returns (best: Option<(nat, nat)>)
      requires |snaps| == d.nSnaps
      ensures best.Some? ==>
        && best.value.0 < d.nSnaps && snaps[best.value.0].Some?
        && best.value.1 == |snaps[best.value.0].value.tokens| && Restorable(snaps[best.value.0], prompt)
      ensures best.Some? ==> forall i :: 0 <= i < d.nSnaps && Restorable(snaps[i], prompt) ==>
        |snaps[i].value.tokens| <= best.value.1
      ensures best.None? ==> forall i :: 0 <= i < d.nSnaps ==> !Restorable(snaps[i], prompt)
    {
      best := None;
      for idx := 0 to d.nSnaps
        invariant best.Some? ==>
          && best.value.0 < idx && snaps[best.value.0].Some?
          && best.value.1 == |snaps[best.value.0].value.tokens| && Restorable(snaps[best.value.0], prompt)
        invariant best.Some? ==> forall i :: 0 <= i < idx && Restorable(snaps[i], prompt) ==>
          |snaps[i].value.tokens| <= best.value.1
        invariant best.None? ==> forall i :: 0 <= i < idx ==> !Restorable(snaps[i], prompt)
      {
        if snaps[idx].Some? {
          var len := |snaps[idx].value.tokens|;
          if len < 8 || len >= |prompt| || (best.Some? && len <= best.value.1) {
            continue;
          }
          if snaps[idx].value.tokens == prompt[..len] {
            best := Some((idx, len));
          }
        }
      }
    }

    /** Restores entry `idx` into slot `s` on the head, then on the worker. */
    method LoadBoth(s: nat, idx: nat, len: nat) returns (loaded: bool)
      requires Shape() && Linked() && owed == [] && s < d.nSlots && idx < d.nSnaps && snaps[idx].Some?
      requires len == |snaps[idx].value.tokens| && EntryHolds(d, snaps[idx], head.snaps[idx], worker.snaps[idx])
      modifies `head, `worker, `inbox, `outbox, `pending, `final, `owed, `ops
      ensures Shape() && Linked() && owed == [] && head.snaps == old(head.snaps) && worker.snaps == old(worker.snaps)
      ensures forall i :: 0 <= i < d.nSlots && i != s ==> head.mem[i] == old(head.mem[i]) && final[i] == old(final[i])
      ensures loaded ==> BothHold(d, head.mem[s], final[s], snaps[idx].value.tokens)
      ensures ops == old(ops) + if faults(old(ops)) || !d.remote then 1 else 2
      ensures old(ops) < ops && loaded == Quiet(faults, old(ops), ops)
    {
      hide Shaped, RunTokens, Holds, Outs, LinkOk, BothHold, CopyLive, JobOk, WorkerMemOk, SetupOk;
      ops := ops + 1;
      loaded := !faults(ops - 1);
      if !loaded {
        return;
      }
      LinkIdle(d, worker.mem, inbox, outbox, pending, final, owed);
      ghost var head0, worker0 := head, worker;
      head := MoveState(HeadLayers(d), head, false, s, idx, len, d.nCtx);
      var res := StateOp(false, s, idx, len);
      assert res != Bailed;
      loaded := res == Ok;
      if loaded {
        LoadedBoth(d, head0, worker0, head, worker, s, idx, snaps[idx].value.tokens);
      }
    }

    lemma NothingHeld(s: nat, prompt: seq<Token>)
      requires Shape() && s < d.nSlots
      ensures |head.mem| == |final| == d.nSlots && BothHold(d, head.mem[s], final[s], prompt[..0])
    {
      hide Shaped, JobOk;
    }

    /** The restore part of admission: `start` is how much of the prompt both machines now hold. */
    method TryRestore(s: nat, prompt: seq<Token>) returns (start: nat)
      requires Shape() && Linked() && RegistryOk() && (owed == [] || NoEntries(snaps)) && s < d.nSlots && prompt != []
      modifies `head, `worker, `inbox, `outbox, `pending, `final, `owed, `ops, `snaps, `lruClock
      ensures Shape() && Linked() && RegistryOk() && owed == old(owed) && start < |prompt| && old(ops) <= ops
      ensures BothHold(d, head.mem[s], final[s], prompt[..start])
      ensures forall i :: 0 <= i < d.nSlots && i != s ==> head.mem[i] == old(head.mem[i]) && final[i] == old(final[i])
      ensures ops == RestoreOps(d, faults, old(snaps), prompt, old(ops)) && SameTokens(old(snaps), snaps)
      ensures start == 0 || BestLength(old(snaps), prompt, start)
      ensures Quiet(faults, old(ops), ops) ==> BestLength(old(snaps), prompt, start)
      ensures NoEntries(old(snaps)) ==> snaps == old(snaps) && ops == old(ops)
    {
      hide Shaped, RunTokens, Holds, Outs, LinkOk, MachineOk, JobOk, WorkerMemOk, Registered, EntryHolds, BothHold;
      start := 0;
      NothingHeld(s, prompt);
      var best := BestSnap(prompt);
      if best.Some? {
        var (idx, len) := best.value;
        assert Restorable(snaps[idx], prompt) && |snaps[idx].value.tokens| == len;
        assert BestLength(snaps, prompt, len);
        ghost var snaps0 := snaps;
        assert !(forall i :: 0 <= i < |snaps| ==> !Restorable(snaps[i], prompt));
        EntryAt(d, snaps, head.snaps, worker.snaps, idx);
        var loaded := LoadBoth(s, idx, len);
        NothingHeld(s, prompt);
        if loaded {
          start := len;
          lruClock := lruClock + 1;
          snaps := snaps[idx := Some(snaps[idx].value.(lru := lruClock))];
          assert prompt[..start] == snaps[idx].value.tokens;
          EntryTouched(d, snaps0, head.snaps, worker.snaps, idx, snaps[idx].value);
        }
      }
    }

    /** admit_job: restore the longest registered prefix if both machines manage to; otherwise start cold,
        which position 0 makes safe whatever the failed restore left behind. */
    method AdmitJob(s: nat, job: Job)
      requires Valid() && (owed == [] || NoEntries(snaps)) && s < d.nSlots && slots[s].None? && JobOk(d, job)
      modifies `head, `worker, `inbox, `outbox, `pending, `final, `owed, `ops, `slots, `snaps, `lruClock, `fed
      ensures Valid() && owed == old(owed) && old(ops) <= ops
      ensures slots == old(slots)[s := slots[s]] && slots[s].Some? && Fresh(slots[s].value, job)
      ensures ops == RestoreOps(d, faults, old(snaps), job.prompt, old(ops)) && SameTokens(old(snaps), snaps)
      ensures slots[s].value.phase.Prefilling? && slots[s].value.phase.done == slots[s].value.phase.reuse
      ensures slots[s].value.phase.done == 0 || BestLength(old(snaps), job.prompt, slots[s].value.phase.done)
      ensures Quiet(faults, old(ops), ops) ==> BestLength(old(snaps), job.prompt, slots[s].value.phase.done)
      ensures slots[s].value.phase.snapAt ==
        if slots[s].value.phase.done < job.snapPrefix < |job.prompt| && d.nSnaps > 0 then job.snapPrefix else 0
      ensures NoEntries(old(snaps)) ==> snaps == old(snaps) && ops == old(ops)
    {
      hide Shaped, RunTokens, Holds, Outs, Drain, BothHold, Next, Chosen, Choice, Candidates, Complete, Resting,
           Restorable, BestLength, RestoreOps, SameTokens;
      var start := TryRestore(s, job.prompt);
      var snapAt := if job.snapPrefix > start && job.snapPrefix < |job.prompt| && d.nSnaps > 0 then job.snapPrefix
                    else 0;
      var o := Occupant(job, SlotState(0, job.maxGen, false, []), Chan([], [], job.gone),
                        Prefilling(start, start, snapAt, false, None, [], 0));
      AdmittedRests(d, o, start);
      slots := slots[s := Some(o)];
      fed := fed[s := job.prompt[..start]];
    }

    method Dequeue() returns (job: Job)
      requires Valid() && queue != []
      modifies `queue
      ensures Valid() && job == old(queue)[0] && JobOk(d, job) && queue == old(queue)[1..]
    {
      hide Shaped, LinkOk, MachineOk, WorkerMemOk, JobOk, SetupOk, EntryHolds, Complete, Resting, BothHold, Spoken;
      job := queue[0];
      queue := queue[1..];
    }

    /** Queued jobs go into free slots, in order. */
    method AdmitAll()
      requires Valid() && owed == []
      modifies `head, `worker, `inbox, `outbox, `pending, `final, `owed, `ops, `slots, `snaps, `lruClock, `fed, `queue
      ensures Valid() && owed == [] && old(ops) <= ops && |old(slots)| == d.nSlots
      ensures Admitted(old(slots), old(queue), d.nSlots, slots, queue) && Newcomers(old(slots), slots)
      ensures ops == AdmitOps(d, faults, old(snaps), old(slots), old(queue), old(ops), d.nSlots)
      ensures SameTokens(old(snaps), snaps)
    {
      hide *;
      ghost var slots0, q0, snaps0, ops0 := slots, queue, snaps, ops;
      ValidFacts();
      NoneAdmitted(slots, queue);
      AdmitOpsNone(d, faults, snaps, slots, queue, ops);
      for s := 0 to d.nSlots
        invariant Valid() && owed == [] && ops0 <= ops && |slots0| == |slots| == d.nSlots
        invariant forall i :: s <= i < d.nSlots ==> slots[i] == slots0[i]
        invariant Admitted(slots0, q0, s, slots, queue) && Newcomers(slots0, slots)
        invariant ops == AdmitOps(d, faults, snaps0, slots0, q0, ops0, s) && SameTokens(snaps0, snaps)
      {
        ghost var before, waiting, snaps1 := slots, queue, snaps;
        AdmitOpsNext(d, faults, snaps0, snaps, slots0, q0, s, slots, queue, ops0);
        if slots[s].None? {
          if queue == [] {
            AdmittedRest(slots0, q0, s, slots);
            QueueUsedUp(slots0, q0, s, slots);
            AdmitOpsRest(d, faults, snaps0, slots0, q0, ops0, s, d.nSlots);
            break;
          }
          var job := Dequeue();
          AdmitJob(s, job);
          NewcomersNext(slots0, before, slots, s);
          SameTokensOn(snaps0, snaps1, snaps);
        }
        AdmittedNext(slots0, q0, s, before, waiting, slots, queue);
      }
    }

    // ---- the loop ----

    /** Retries delivery for every occupied slot; `active` says whether any of them still needed GPU work. */
    method FlushPhase() returns (active: bool)
      requires Valid()
      modifies `slots, `log
      ensures Valid() && |slots| == |old(slots)|
      ensures active <==> exists i :: Busy(old(slots), i)
      ensures forall i :: 0 <= i < |slots| ==> Flushed(old(slots)[i], slots[i])
      ensures Accounted(old(slots), old(log), slots, log)
    {
      hide Shaped, Drain, Complete, Resting, BothHold, Spoken, Accounted, Flushed;
      active := false;
      ghost var who := 0;
      NothingMoved(slots, log);
      for s := 0 to d.nSlots
        invariant Valid() && Accounted(old(slots), old(log), slots, log)
        invariant if active then Busy(old(slots), who) else forall i :: 0 <= i < s ==> !Busy(old(slots), i)
        invariant forall i :: s <= i < d.nSlots ==> slots[i] == old(slots)[i]
        invariant forall i :: 0 <= i < s ==> Flushed(old(slots)[i], slots[i])
      {
        FlushedNone<Phase>();
        if slots[s].Some? {
          ghost var o, before, log0 := slots[s].value, slots, log;
          if !slots[s].value.st.finished {
            active, who := true, s;
          }
          OccFacts(d, o, fed[s]);
          FlushAt(s);
          AccountedOn(old(slots), old(log), before, log0, slots, log);
          if slots[s].Some? {
            FlushedFacts(o, slots[s].value);
            Delivered(d, o, slots[s].value, fed[s]);
          }
        }
      }
    }

    method CountOccupied() returns (n: nat)
      requires |slots| == d.nSlots
      ensures n == |OccupiedBelow(slots, d.nSlots)|
    {
      n := 0;
      for s := 0 to d.nSlots
        invariant n == |OccupiedBelow(slots, s)|
      {
        assert OccupiedBelow(slots, s + 1) == OccupiedBelow(slots, s) + if slots[s].Some? then {s} else {};
        if slots[s].Some? {
          n := n + 1;
        }
      }
    }

    lemma ValidFacts()
      requires Valid()
      ensures Shape() && Linked() && |slots| == d.nSlots && AllRest(d, Table(slots, head.mem, final, fed))
      ensures Registered(d, snaps, head.snaps, worker.snaps) && Logged(d, log)
    {
    }

    lemma PendingLength()
      requires Valid()
      ensures d.remote ==> |pending| == |owed|
    {
    }

    lemma IsLogged()
      requires LogOk()
      ensures Logged(d, log)
    {
    }

    lemma StillLogged()
      requires Logged(d, log)
      ensures LogOk()
    {
    }

    lemma StillRegistered()
      requires Shape() && Registered(d, snaps, head.snaps, worker.snaps)
      ensures RegistryOk()
    {
    }

    lemma ReadyToReceive(sent: seq<(nat, nat)>, ends: seq<nat>)
      requires Shape() && Linked() && Sending(d, slots, sent, ends, owed)
      requires AllArrive(d, Table(slots, head.mem, final, fed), sent)
      ensures Receiving(sent, ends)
    {
    }

    /** One pass: every busy slot advances, or an operation fails and every busy slot is dropped. `reached` is the
        table before that, `frames` counts the frames sent. The pipe is empty afterwards unless the first
        operation of the send phase to fail is the head's, on a frame after the first, with a remote worker: then the
        replies to the frames sent before it are left behind. */
    method Pass() returns (ok: bool, headFault: bool, frames: nat, shared: bool, ghost reached: seq<Option<Occ>>)
      requires Valid() && owed == []
      modifies `head, `worker, `inbox, `outbox, `pending, `final, `owed, `ops, `fed, `slots, `snaps, `lruClock, `log
      ensures Valid() && old(ops) <= ops && (!ok ==> !Quiet(faults, old(ops), ops))
      ensures shared <==> |OccupiedBelow(old(slots), d.nSlots)| > 1
      ensures frames <= if |OccupiedBelow(old(slots), d.nSlots)| > 2 then |OccupiedBelow(old(slots), d.nSlots)| else 2
      ensures owed != [] <==> LeavesBehind(d, faults, old(ops), old(slots), shared)
      ensures headFault ==> HeadFailsOn(d, faults, old(ops), frames)
      ensures owed != [] ==>
        |owed| == |pending| == frames && !ok && headFault && OrphansOf(d, old(slots), reached, owed)
      ensures Accounted(old(slots), old(log), reached, log) && OthersStill(old(slots), reached)
      ensures ok ==> slots == reached && AllAdvance(old(slots), slots, shared) && WorkDropped(old(slots), slots)
      ensures !ok ==> Dropped(reached, slots) && NoEntries(snaps)
    {
      hide *;
      ghost var before, log0, ops0 := Table(slots, head.mem, final, fed), log, ops;
      ValidFacts();
      var occupied := CountOccupied();
      shared := occupied > 1;
      BusyAreOccupied(slots);
      var sent;
      ghost var ends;
      ok, headFault, sent, ends := SendPhase(shared);
      frames := |sent|;
      LeftBehindIff(d, faults, ops0, ops, frames, before.slots, shared, ok, headFault);
      SentFacts(d, faults, ops0, ops, frames, FramesDue(before.slots, |before.slots|, shared), ok, headFault);
      StillLogged();
      ghost var after, ops1 := Table(slots, head.mem, final, fed), ops;
      StillItself(slots);
      OnlyBusyAccounted(before.slots, after.slots, log);
      NothingMoved(slots, log);
      QuietNone(faults, ops);
      if ok {
        SendingLength(d, slots, sent, ends, owed);
        SentAllArrive(d, before, after, sent, shared);
        ReadyToReceive(sent, ends);
        StillLogged();
        ok := RecvPhase(sent, ends);
        headFault := false;
      } else {
        FinishedBefore(d, before, slots);
        if headFault {
          SendingLength(d, slots, sent, ends, owed);
          AreOrphans(d, before.slots, slots, sent, ends, owed);
        }
      }
      QuietJoin(faults, ops0, ops1, ops);
      AccountedOn(before.slots, log0, after.slots, log0, slots, log);
      BothStill(before.slots, after.slots, slots);
      reached := slots;
      if ok {
        ghost var late, log1 := slots, log;
        StillRegistered();
        BarrierPhase();
        reached := slots;
        AllPhases(d, before.slots, after, sent, late, slots, shared);
        AccountedOn(before.slots, log0, late, log1, slots, log);
        OthersAreStill(before.slots, slots, shared);
        ValidFacts();
        PassWork(d, before, Table(slots, head.mem, final, fed), shared);
      } else {
        FailAll();
        PendingLength();
      }
    }

    method Enqueue(arrivals: seq<Job>)
      requires Valid() && forall i :: 0 <= i < |arrivals| ==> JobOk(d, arrivals[i])
      modifies `queue
      ensures Valid() && queue == old(queue) + arrivals
    {
      hide Shaped, LinkOk, MachineOk, WorkerMemOk, JobOk, SetupOk, EntryHolds, Complete, Resting, BothHold, Spoken;
      queue := queue + arrivals;
    }

    /** One iteration of the driver's loop. `admitted` is the table once queued jobs have gone into free slots,
        `flushed` once delivery has been retried; `reached` is the table at the end, before unfinished requests are
        dropped if an operation failed. */
    method Tick(arrivals: seq<Job>)
      returns (ok: bool, headFault: bool, frames: nat, ghost admitted: seq<Option<Occ>>,
               ghost flushed: seq<Option<Occ>>, ghost reached: seq<Option<Occ>>, ghost shared: bool)
      requires Valid() && owed == [] && forall i :: 0 <= i < |arrivals| ==> JobOk(d, arrivals[i])
      modifies `head, `worker, `inbox, `outbox, `pending, `final, `owed, `ops, `fed, `slots, `snaps, `lruClock, `log,
               `queue
      ensures Valid() && old(ops) <= ops && (!ok ==> !Quiet(faults, old(ops), ops))
      ensures |old(slots)| == |flushed| == |slots| == d.nSlots
      ensures shared <==> (exists i :: Busy(admitted, i)) && |OccupiedBelow(flushed, d.nSlots)| > 1
      ensures var from := AdmitOps(d, faults, old(snaps), old(slots), old(queue) + arrivals, old(ops), d.nSlots);
        && (owed != [] <==> LeavesBehind(d, faults, from, flushed, shared))
        && (owed != [] ==> |owed| == frames && !ok && HeadFailsOn(d, faults, from, frames)
                           && OrphansOf(d, flushed, reached, owed))
      ensures Admitted(old(slots), old(queue) + arrivals, d.nSlots, admitted, queue) && Newcomers(old(slots), admitted)
      ensures forall i :: 0 <= i < d.nSlots ==> Flushed(admitted[i], flushed[i])
      ensures Accounted(admitted, old(log), reached, log)
      ensures forall i :: 0 <= i < d.nSlots ==> Turned(admitted[i], reached[i], ok, shared)
      ensures if ok then slots == reached && WorkDropped(admitted, slots)
              else Dropped(reached, slots) && NoEntries(snaps)
    {
      hide *;
      ok, headFault, frames, shared := true, false, 0, false;
      Enqueue(arrivals);
      AdmitAll();
      admitted := slots;
      ghost var ops1 := ops;
      ValidFacts();
      BusyHaveWork(d, Table(slots, head.mem, final, fed));
      var active := FlushPhase();
      flushed := slots;
      ghost var log1 := log;
      reached := slots;
      if active {
        ok, headFault, frames, shared, reached := Pass();
        QuietJoin(faults, old(ops), ops1, ops);
        AccountedOn(admitted, old(log), flushed, log1, reached, log);
      } else {
        NobodySends(d, faults, ops1, admitted, flushed, shared);
      }
      ValidFacts();
      TurnAll(admitted, flushed, reached, active, ok, shared);
      if ok {
        FlushedWork(admitted, flushed, slots, active);
      }
    }

    /** The consumer of slot `s` reads up to `k` events. */
    method ConsumerTakes(s: nat, k: nat)
      requires Valid() && s < d.nSlots && slots[s].Some? && k <= |slots[s].value.ch.buf|
      modifies `slots
      ensures Valid() && slots == old(slots)[s := slots[s]] && slots[s].Some?
      ensures slots[s].value == old(slots[s]).value.(ch := slots[s].value.ch)
      ensures slots[s].value.ch.closed == old(slots[s]).value.ch.closed
      ensures slots[s].value.ch.taken == old(slots[s]).value.ch.taken + old(slots[s]).value.ch.buf[..k]
      ensures slots[s].value.ch.buf == old(slots[s]).value.ch.buf[k..]
    {
      hide Shaped, LinkOk, MachineOk, WorkerMemOk, JobOk, SetupOk, EntryHolds, Complete, Resting, BothHold, Spoken;
      var o := slots[s].value;
      OccFacts(d, o, fed[s]);
      var b := o.(ch := o.ch.(taken := o.ch.taken + o.ch.buf[..k], buf := o.ch.buf[k..]));
      assert o.ch.buf == o.ch.buf[..k] + o.ch.buf[k..];
      assert b.Produced() == o.Produced();
      Delivered(d, o, b, fed[s]);
      slots := slots[s := Some(b)];
    }

    /** The consumer of slot `s` goes away. */
    method ConsumerCloses(s: nat)
      requires Valid() && s < d.nSlots && slots[s].Some?
      modifies `slots
      ensures Valid() && slots == old(slots)[s := slots[s]]
      ensures slots[s] == Some(old(slots[s]).value.(ch := old(slots[s]).value.ch.(closed := true)))
    {
      hide Shaped, LinkOk, MachineOk, WorkerMemOk, JobOk, SetupOk, EntryHolds, Complete, Resting, BothHold, Spoken;
      var o := slots[s].value;
      OccFacts(d, o, fed[s]);
      var b := o.(ch := o.ch.(closed := true));
      assert b.Produced() == o.Produced();
      Delivered(d, o, b, fed[s]);
      slots := slots[s := Some(b)];
    }

    /** The consumers of the other slots read what they like, or go away. */
    method Bystanders(s: nat)
      requires Valid()
      modifies `slots
      ensures Valid() && |slots| == |old(slots)| && (s < |slots| ==> slots[s] == old(slots)[s])
    {
      hide *;
      ValidFacts();
      for i := 0 to d.nSlots
        invariant Valid() && |slots| == |old(slots)| == d.nSlots && (s < |slots| ==> slots[s] == old(slots)[s])
      {
        if i != s && slots[i].Some? {
          var k: nat := *;
          if k <= |slots[i].value.ch.buf| {
            ConsumerTakes(i, k);
          } else {
            ConsumerCloses(i);
          }
        }
      }
    }

    /** Every consumer reads its whole channel. */
    method EveryoneReads()
      requires Valid()
      modifies `slots
      ensures Valid() && AllReadOut(old(slots), slots) && |slots| == |old(slots)|
    {
      hide *;
      ValidFacts();
      for s := 0 to d.nSlots
        invariant Valid() && |slots| == |old(slots)| == d.nSlots
        invariant forall i :: 0 <= i < s ==> ReadOut(old(slots)[i], slots[i])
        invariant forall i :: s <= i < d.nSlots ==> slots[i] == old(slots)[i]
      {
        if slots[s].Some? {
          ConsumerTakes(s, |slots[s].value.ch.buf|);
        }
        WholeChannel(old(slots)[s], slots[s]);
      }
      AreReadOut(old(slots), slots);
    }

    /** Serves the request in slot `s` to its end. Nothing fails and its consumer reads; jobs may arrive at any
        time, and the other requests' consumers may stall or go away. The loop ends, and the consumer has then
        received the right events. */
    method Serve(s: nat) returns (ghost o: Occ, ghost reason: FinishReason)
      requires Valid() && owed == [] && s < d.nSlots && slots[s].Some? && !slots[s].value.ch.closed
      requires forall k :: k >= ops ==> !faults(k)
      modifies this
      ensures Valid() && owed == [] && old(log) <= log
      ensures Continues(old(slots[s]).value, o) && Handed(s, o) in log[|old(log)|..]
      ensures o.job.prompt != [] && FinishedRight(d, o.job, o.ch.taken + o.ch.buf, reason)
    {
      hide *;
      ValidFacts();
      ghost var first, log0, ops0 := slots[s].value, log, ops;
      ContinuesSelf(first);
      while slots[s].Some?
        invariant Valid() && owed == [] && |slots| == d.nSlots && ops0 <= ops && log0 <= log
        invariant slots[s].Some? ==> Continues(first, slots[s].value)
        invariant slots[s].None? ==> exists k :: |log0| <= k < |log| && ServedAs(first, s, log[k])
        decreases SlotWork(slots[s]), Unread(slots[s])
      {
        ghost var a, log1 := slots[s], log;
        SameChannel(first, a.value);
        Bystanders(s);
        ConsumerTakes(s, |slots[s].value.ch.buf|);
        WholeChannel(a, slots[s]);
        var arrivals: seq<Job> := *;
        if !(forall i :: 0 <= i < |arrivals| ==> JobOk(d, arrivals[i])) {
          arrivals := [];
        }
        ghost var taken, waiting, ops1 := slots, queue, ops;
        var ok, headFault, frames;
        ghost var admitted, flushed, reached, shared;
        ok, headFault, frames, admitted, flushed, reached, shared := Tick(arrivals);
        QuietFrom(faults, ops0, ops1, ops);
        ValidFacts();
        AdmittedKeeps(taken, waiting + arrivals, admitted, queue, s);
        AccountedGrows(admitted, log1, reached, log);
        OneTurn(first, s, a, admitted, reached, log1, log);
        OneTurnWork(s, a, admitted, reached, shared);
      }
      ghost var k :| |log0| <= k < |log| && ServedAs(first, s, log[k]);
      ValidFacts();
      ServedFacts(first, s, log[k]);
      LoggedRight(d, log, k);
      o := log[k].occ;
      reason :| FinishedRight(d, o.job, o.ch.taken + o.ch.buf, reason);
      assert log[|log0|..][k - |log0|] == Handed(s, o);
    }

    /** Serves everything. Nothing fails and every consumer reads: the loop ends with all slots free and the queue
        empty, and the requests handed over are those that were queued or in a slot, each of them once. */
    method RunOut()
      requires Valid() && owed == [] && AllOpen(slots) && NoneGone(queue)
      requires forall k :: k >= ops ==> !faults(k)
      modifies this
      ensures Valid() && owed == [] && queue == [] && forall i :: 0 <= i < d.nSlots ==> slots[i].None?
      ensures old(log) <= log
      ensures JobsOf(log[|old(log)|..]) == JobsIn(old(slots), |old(slots)|) + multiset(old(queue))
    {
      hide *;
      ghost var log0, ops0, all := log, ops, JobsIn(slots, |slots|) + multiset(queue);
      ghost var handed: seq<Handed<Phase>> := [];
      ValidFacts();
      SomeSlot();
      NoneHanded<Phase>();
      while queue != [] || exists i :: 0 <= i < |slots| && slots[i].Some?
        invariant Valid() && owed == [] && |slots| == d.nSlots && ops0 <= ops && AllOpen(slots) && NoneGone(queue)
        invariant log == log0 + handed
        invariant JobsIn(slots, |slots|) + multiset(queue) + JobsOf(handed) == all
        decreases Total(Works(slots), |slots|) + QueueWork(queue), TotalUnread(slots, |slots|)
      {
        ghost var before, log1, q0, ops1 := slots, log, queue, ops;
        EveryoneReads();
        ghost var taken := slots;
        var ok, headFault, frames;
        ghost var admitted, flushed, reached, shared;
        ok, headFault, frames, admitted, flushed, reached, shared := Tick([]);
        assert q0 + [] == q0;
        QuietFrom(faults, ops0, ops1, ops);
        ValidFacts();
        AccountedGrows(admitted, log1, reached, log);
        ghost var more := log[|log1|..];
        TurnedIdle(admitted, reached, shared);
        WorksTaken(before, taken, q0, admitted, queue);
        WorksDone(admitted, slots);
        RunKeeps(before, q0, taken, admitted, queue, slots, log1, more);
        RunProgresses(before, q0, taken, admitted, queue, slots, Works(before), Works(admitted), Works(slots));
        JobsOfAppend(handed, more);
        handed := handed + more;
      }
      NoneLeft(slots, |slots|);
      assert log[|log0|..] == handed;
    }

    /** With a reply left behind, the next request to send a frame is answered with that one, records it, and leaves
        its own behind. */
    method AnswerNext(later: Job)
      requires Valid() && |owed| == 1 && owed[0].ids != [] && NoEntries(snaps) && d.remote && slots[0].None?
      requires JobOk(d, later) && forall k :: k >= ops ==> !faults(k)
      modifies this
      ensures |slots| == d.nSlots && LogOk() && Filling(slots, 0) && Fresh(slots[0].value, later)
      ensures var wrong := old(owed)[0];
        && slots[0].value.phase.lastId == Some(wrong.ids[|wrong.ids| - 1])
        && (later.greedy ==> slots[0].value.phase.cands == wrong.cands)
      ensures 0 < slots[0].value.phase.done <= |later.prompt|
      ensures |owed| == 1 && Matches(d, slots[0].value, slots[0].value.phase.done, owed[0])
    {
      hide *;
      ghost var ops0 := ops;
      ValidFacts();
      SomeSlot();
      AdmitJob(0, later);
      FreshSends(0, later, false);
      ghost var ops1, o := ops, slots[0].value;
      var ok, headFault;
      ghost var reply;
      var n := ChunkLength(slots[0].value, false);
      ok, headFault, reply := SendChunk(0, n);
      QuietFrom(faults, ops0, ops1, ops);
      StillFilling(slots, o, n);
      ghost var b, ops2 := slots[0].value, ops;
      var r;
      ok, r := RecvFrame();
      QuietFrom(faults, ops0, ops2, ops);
      slots := slots[0 := Some(WithReply(slots[0].value, r))];
      StillLogged();
      ReplyTaken(d, slots, o, b, n, r, later, reply);
    }

    /** A request just admitted may be sent for. */
    lemma FreshSends(s: nat, job: Job, shared: bool)
      requires Valid() && s < |slots| && slots[s].Some? && Fresh(slots[s].value, job)
      requires slots[s].value.phase.Prefilling?
      ensures Shape() && Linked() && s < d.nSlots && Busy(slots, s) && Filling(slots, s)
      ensures RestsNow(d, slots[s], head.mem[s], final[s], fed[s])
      ensures Unfinished(d, slots[s].value) && StateHolds(d, slots[s], head.mem[s], final[s], fed[s])
      ensures fed[s] == slots[s].value.job.prompt[..slots[s].value.phase.done]
      ensures slots[s].value.job.greedy ==> slots[s].value.phase.cands == []
      ensures slots[s].value.phase.Prefilling? && slots[s].value.phase.done <= |slots[s].value.job.prompt|
      ensures !slots[s].value.st.finished && slots[s].value.job == job
      ensures slots[s].value.phase.snapAt > 0 && !slots[s].value.phase.snapped ==>
        slots[s].value.phase.done <= slots[s].value.phase.snapAt <= |slots[s].value.job.prompt|
      ensures 0 < ChunkLength(slots[s].value, shared)
      ensures slots[s].value.phase.done + ChunkLength(slots[s].value, shared) <= |slots[s].value.job.prompt|
      ensures slots[s].value.phase.snapAt > 0 && !slots[s].value.phase.snapped ==>
        slots[s].value.phase.done + ChunkLength(slots[s].value, shared) <= slots[s].value.phase.snapAt
    {
      hide Shaped, LinkOk, MachineOk, WorkerMemOk, JobOk, SetupOk, EntryHolds, Complete, Resting, BothHold, Spoken;
      assert RestsNow(d, slots[s], head.mem[s], final[s], fed[s]);
      RestingCanSend(d, slots[s].value, fed[s], shared);
    }

    lemma SomeSlot()
      requires Valid()
      ensures d.nSlots >= 1
    {
    }

    constructor (d0: Setup, faults0: nat -> bool)
      requires SetupOk(d0)
      ensures Valid() && owed == [] && d == d0 && faults == faults0 && ops == 0 && queue == [] && log == []
      ensures forall i :: 0 <= i < d.nSlots ==> slots[i].None?
      ensures NoEntries(snaps)
    {
      hide Shaped, Fits, Zero;
      d, faults, ops := d0, faults0, 0;
      var hl, tl := d0.net.layers[..d0.cut], d0.net.layers[d0.cut..];
      head := Machine(seq(d0.nSlots, _ => Zero(hl, d0.nCtx)), seq(d0.nSnaps, _ => Zero(hl, d0.nCtx)));
      var wm := seq(d0.nSlots, _ => Zero(tl, d0.workerCtx));
      worker := Machine(wm, seq(d0.nSnaps, _ => Zero(tl, d0.workerCtx)));
      inbox, outbox, pending, queue, lruClock := [], [], [], [], 0;
      slots := seq(d0.nSlots, _ => None);
      snaps := seq(d0.nSnaps, _ => None);
      final, owed, fed, log := wm, [], seq(d0.nSlots, _ => []), [];
    }
  }

  /** A local driver has nothing downstream: the rows it computes are the model's outputs. */
  lemma NoTail(d: Setup, wm: seq<LayerMem>, base: nat, rows: seq<Vec>)
    requires SetupOk(d) && !d.remote && Shaped(TailLayers(d), wm, d.workerCtx) && base + |rows| <= d.workerCtx
    ensures RunSlot(TailLayers(d), wm, base, rows, d.workerCtx) == (wm, rows)
  {
    var none: seq<Layer>, empty: seq<LayerMem> := [], [];
    assert TailLayers(d) == none && wm == empty && Zero(none, d.workerCtx) == empty;
    LayerMajorIsTokenMajor(none, empty, base, rows, d.workerCtx);
  }

  /** A snapshot saved on both machines with its own token count is coherent. */
  lemma SavedBoth(d: Setup, h0: Machine, w0: Machine, h1: Machine, w1: Machine, s: nat, idx: nat, h: seq<Token>)
    requires SetupOk(d) && s < d.nSlots && idx < d.nSnaps && h != []
    requires MachineOk(HeadLayers(d), h0, d.nSlots, d.nSnaps, d.nCtx)
    requires MachineOk(TailLayers(d), w0, d.nSlots, d.nSnaps, d.workerCtx)
    requires BothHold(d, h0.mem[s], w0.mem[s], h)
    requires h1 == MovedState(HeadLayers(d), h0, true, s, idx, |h|, d.nCtx)
    requires w1 == if d.remote then MovedState(TailLayers(d), w0, true, s, idx, |h|, d.workerCtx) else w0
    ensures BothHold(d, h1.snaps[idx], w1.snaps[idx], h)
  {
    hide Holds, Outs, CopyLive;
    var xs := Embed(d.net, h);
    HoldsShape(HeadLayers(d), h0.mem[s], xs, d.nCtx);
    LiveCopyHolds(HeadLayers(d), h0.mem[s], h0.snaps[idx], xs, d.nCtx);
    if d.remote {
      LiveCopyHolds(TailLayers(d), w0.mem[s], w0.snaps[idx], Outs(HeadLayers(d), xs), d.workerCtx);
    } else {
      NoTailState(d, w0.snaps[idx], Outs(HeadLayers(d), xs));
    }
  }

  /** A restore with the count the snapshot was saved with brings back both halves. */
  lemma LoadedBoth(d: Setup, h0: Machine, w0: Machine, h1: Machine, w1: Machine, s: nat, idx: nat, h: seq<Token>)
    requires SetupOk(d) && s < d.nSlots && idx < d.nSnaps && h != []
    requires MachineOk(HeadLayers(d), h0, d.nSlots, d.nSnaps, d.nCtx)
    requires MachineOk(TailLayers(d), w0, d.nSlots, d.nSnaps, d.workerCtx)
    requires BothHold(d, h0.snaps[idx], w0.snaps[idx], h)
    requires h1 == MovedState(HeadLayers(d), h0, false, s, idx, |h|, d.nCtx)
    requires w1 == if d.remote then MovedState(TailLayers(d), w0, false, s, idx, |h|, d.workerCtx) else w0
    ensures BothHold(d, h1.mem[s], w1.mem[s], h)
  {
    hide Holds, Outs, CopyLive;
    var xs := Embed(d.net, h);
    HoldsShape(HeadLayers(d), h0.snaps[idx], xs, d.nCtx);
    LiveCopyHolds(HeadLayers(d), h0.snaps[idx], h0.mem[s], xs, d.nCtx);
    if d.remote {
      LiveCopyHolds(TailLayers(d), w0.snaps[idx], w0.mem[s], Outs(HeadLayers(d), xs), d.workerCtx);
    } else {
      NoTailState(d, w0.mem[s], Outs(HeadLayers(d), xs));
    }
  }

  /** Without downstream layers there is no downstream state to get wrong. */
  lemma NoTailState(d: Setup, wm: seq<LayerMem>, xs: seq<Vec>)
    requires SetupOk(d) && !d.remote && Shaped(TailLayers(d), wm, d.workerCtx) && |xs| <= d.workerCtx
    ensures Holds(TailLayers(d), wm, xs, d.workerCtx)
  {
    hide Canon;
    assert TailLayers(d) == [];
  }

  /** What the worker relies on when it serves a frame. */
  lemma ServeReady(d: Setup, w: Machine, f: Frame)
    requires SetupOk(d) && MachineOk(TailLayers(d), w, d.nSlots, d.nSnaps, d.workerCtx) && FrameOk(d, f)
    ensures f.Run? && f.slot < |w.mem| && f.rows != [] && f.base + |f.rows| <= d.workerCtx
    ensures Shaped(TailLayers(d), w.mem[f.slot], d.workerCtx) && d.width > 0 && d.qb > 0
    ensures WorkerMemOk(d, w.mem)
  {
    hide Shaped;
  }

  lemma MemServed(d: Setup, w: Machine, s: nat, m: seq<LayerMem>)
    requires SetupOk(d) && MachineOk(TailLayers(d), w, d.nSlots, d.nSnaps, d.workerCtx) && s < |w.mem|
    requires Shaped(TailLayers(d), m, d.workerCtx)
    ensures MachineOk(TailLayers(d), w.(mem := w.mem[s := m]), d.nSlots, d.nSnaps, d.workerCtx)
  {
    hide Shaped;
  }

  lemma MachineIdle(d: Setup, w: Machine)
    requires SetupOk(d) && MachineOk(TailLayers(d), w, d.nSlots, d.nSnaps, d.workerCtx)
    ensures WorkerMemOk(d, w.mem) && LinkOk(d, w.mem, [], [], [], w.mem, [])
  {
    hide LinkOk;
    LinkEmpty(d, w.mem);
  }

  // ---- what goes wrong when the head fails after sending ----

  /** A one-token model: the pick after token 1 is 1, after anything else 2. */
  function TinySetup(): Setup {
    Setup(Net([], t => [t as real], v => if v == [1.0] then 1 else 2), 0, true, 2, 0, 64, 64, 1, 4096, 16, 3,
          (v: Vec, k: nat) => seq(k, _ => (0, 0.0)), (cs, seed, draws) => 0)
  }

  lemma TinySetupOk()
    ensures SetupOk(TinySetup()) && TinySetup().remote && TinySetup().nSlots == 2 && TinySetup().eos == 3
  {
  }

  lemma TinyJobOk(j: Job)
    requires |j.prompt| == 1 && j.maxGen == 4
    ensures JobOk(TinySetup(), j)
  {
  }

  lemma TinyPicks(t: Token)
    ensures Next(TinySetup().net, [t]) == if t == 1 then 1 else 2
  {
    var xs := Embed(TinySetup().net, [t]);
    Identity(xs, 1);
    assert xs == [[t as real]];
  }

  /** Two requests, prompt [1] each, arrive at a fresh driver with two slots, and the head fails on the second one's
      frame. The third request, prompt [5], is then told 1, the first one's token, where its answer begins with 2. */
  method OrphanReplyMisleads() returns (drv: Driver)
    ensures fresh(drv) && drv.d == TinySetup() && |drv.slots| == 2 && drv.slots[0].Some?
    ensures drv.slots[0].value.job == Job([5], 4, 0, true, 0, false) && drv.slots[0].value.Said() == [1]
    ensures Choice(drv.d, drv.slots[0].value.job, []) == 2
  {
    hide *;
    TinySetupOk();
    TinyPicks(1);
    TinyPicks(5);
    drv := new Driver(TinySetup(), k => k == 2);
    var first, later := Job([1], 4, 0, true, 0, false), Job([5], 4, 0, true, 0, false);
    TinyJobOk(first);
    TinyJobOk(later);
    drv.ValidFacts();
    var ok, headFault, frames;
    ghost var before := drv.slots;
    ghost var admitted, flushed, reached, shared;
    NothingToRestore(drv.d, drv.faults, drv.snaps, drv.slots, [first, first], 0, 2);
    assert [] + [first, first] == [first, first];
    ok, headFault, frames, admitted, flushed, reached, shared := drv.Tick([first, first]);
    TwoFresh(before, first, admitted, drv.queue, flushed);
    SecondFrameFails(drv.d, drv.faults, flushed);
    assert HeadFailsOn(drv.d, drv.faults, 0, frames);
    FailedAfter(drv.faults, drv.ops, 2);
    LeftReply(drv.d, first, admitted, flushed, reached, drv.owed);
    drv.ValidFacts();
    NobodyLeft(flushed, reached, drv.slots);
    drv.AnswerNext(later);
    FirstReady(drv.slots);
    ghost var a := drv.slots[0].value;
    drv.TakeFirst(0);
    FirstSaid(drv.d, a, drv.slots[0].value, later, 1);
    ghost var told := drv.slots[0];
    drv.FlushAt(0);
    StillSaid(told, drv.slots[0]);
    TinyChoice(later);
  }

  lemma TinyChoice(j: Job)
    requires j.prompt == [5] && j.greedy
    ensures Choice(TinySetup(), j, []) == 2
  {
    hide Next, TinySetup;
    TinyPicks(5);
    assert [5] + [] == [5];
  }

  /** Both requests are admitted, and delivery has nothing to do. */
  lemma TwoFresh(before: seq<Option<Occ>>, j: Job, admitted: seq<Option<Occ>>, q: seq<Job>, flushed: seq<Option<Occ>>)
    requires before == [None, None] && Admitted(before, [j, j], 2, admitted, q) && !j.gone
    requires |flushed| == 2 && forall i :: 0 <= i < 2 ==> Flushed(admitted[i], flushed[i])
    ensures forall i :: 0 <= i < 2 ==> Busy(admitted, i) && Fresh(admitted[i].value, j) && flushed[i] == admitted[i]
    ensures Busy(flushed, 0) && Busy(flushed, 1) && flushed[0].value.job == j && flushed[1].value.job == j
    ensures |admitted| == 2 && |OccupiedBelow(flushed, 2)| == 2
  {
    assert FreeBelow(before, 0) == 0 && FreeBelow(before, 1) == 1;
    forall i | 0 <= i < 2 ensures admitted[i].Some? && Fresh(admitted[i].value, j) && flushed[i] == admitted[i] {
      assert AdmittedAt(before, [j, j], i, admitted[i]);
      assert Flushed(admitted[i], flushed[i]);
      assert flushed[i].value.ch.buf == flushed[i].value.Produced();
    }
    assert OccupiedBelow(flushed, 2) == {0, 1};
  }

  lemma SecondFrameFails(d: Setup, faults: nat -> bool, slots: seq<Option<Occ>>)
    requires d.remote && |slots| == 2 && Busy(slots, 0) && Busy(slots, 1) && forall k :: faults(k) <==> k == 2
    ensures LeavesBehind(d, faults, 0, slots, true)
    ensures forall j :: HeadFailsOn(d, faults, 0, j) ==> j == 1
  {
    assert FramesDue(slots, 1, true) == FramesDue(slots, 0, true) + 1;
    assert FramesDue(slots, 2, true) == 2;
    assert HeadFailsOn(d, faults, 0, 1);
  }

  lemma FailedAfter(faults: nat -> bool, ops: nat, at: nat)
    requires !Quiet(faults, 0, ops) && forall k :: faults(k) <==> k == at
    ensures forall k :: k >= ops ==> !faults(k)
  {
  }

  /** The reply left behind is the first token of one of the two requests. */
  lemma LeftReply(d: Setup, j: Job, admitted: seq<Option<Occ>>, slots: seq<Option<Occ>>, reached: seq<Option<Occ>>,
                  owed: seq<Reply>)
    requires OrphansOf(d, slots, reached, owed) && |owed| == 1 && |slots| == 2 == |admitted|
    requires forall i :: 0 <= i < 2 ==> slots[i] == admitted[i] && Busy(slots, i) && slots[i].value.job == j
    requires Newcomers([None, None], admitted) && |j.prompt| == 1 && j.greedy
    ensures owed[0].ids != [] && owed[0].ids[|owed[0].ids| - 1] == Next(d.net, j.prompt) && owed[0].cands == []
    ensures OnlyBusy(slots, reached)
  {
    hide Next, Continues;
    var sent: seq<(nat, nat)>, ends: seq<nat> :| Sending(d, reached, sent, ends, owed);
    var i := sent[0].0;
    assert Busy(reached, i) && Matches(d, reached[i].value, ends[0], owed[0]);
    SameChannel(slots[i].value, reached[i].value);
    assert j.prompt[..1] == j.prompt;
  }

  lemma NobodyLeft(before: seq<Option<Occ>>, reached: seq<Option<Occ>>, slots: seq<Option<Occ>>)
    requires OnlyBusy(before, reached) && Dropped(reached, slots) && Busy(before, 0)
    ensures slots[0].None?
  {
    hide StaysIn;
    assert Busy(reached, 0);
  }

  lemma FirstReady(slots: seq<Option<Occ>>)
    requires Filling(slots, 0)
    ensures 0 < |slots| && slots[0].Some? && slots[0].value.phase.Prefilling? && |slots[0].value.ch.buf| >= 0
  {
  }

  /** The first token of a request is what was recorded for it. */
  lemma FirstSaid(d: Setup, a: Occ, b: Occ, j: Job, t: Token)
    requires a.phase.Prefilling? && a.phase.lastId == Some(t) && a.phase.cands == [] && Fresh(a, j)
    requires FirstTaken(d, a, b) && t != d.eos && j.maxGen > 1
    ensures b.job == j && b.ch == Chan([], [], j.gone) && !b.st.finished && b.Said() == [t]
  {
    assert b.Produced() == [] + [Tokens([t])];
    SpokenToken([], t);
    assert [] + [t] == [t];
  }

  lemma StillSaid(a: Option<Occ>, b: Option<Occ>)
    requires Flushed(a, b) && a.Some? && !a.value.st.finished && !a.value.ch.closed
    ensures b.Some? && b.value.job == a.value.job && b.value.Said() == a.value.Said()
  {
    hide Spoken;
  }

  lemma Identity(xs: seq<Vec>, cap: nat)
    requires |xs| <= cap
    ensures RunTokens([], [], 0, xs, cap) == ([], xs) && Zero([], cap) == []
  {
    LayerMajorIsTokenMajor([], [], 0, xs, cap);
  }
}
