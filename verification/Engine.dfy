/** The single-box slot engine: several requests share one device state. */
module SlotEngine {
  import opened Network
  import opened Greedy
  import opened Prefill
  import opened Slots
  import opened CacheAges
  import opened Ledgers
  import opened Draft

  class Engine {
    const c: Config
    var slots: seq<Slot>
    var dev: seq<seq<LayerMem>>     // one entry per slot, then the scratch stripe
    var pcache: seq<CacheEntry>
    var lruClock: nat
    // The caller's buffers of the current stepChunk call.
    var out: seq<seq<Token>>
    var fin: seq<bool>
    // Per slot: what earlier calls delivered for its current request.
    ghost var delivered: seq<seq<Token>>
    // Every call so far, and what became of the requests.
    ghost var book: Ledger

    ghost predicate Shape()
      reads this
    {
      && ConfigOk(c)
      && |slots| == |out| == |fin| == |delivered| == c.nSlots && |dev| == c.nSlots + 1
      && (forall i :: 0 <= i < |dev| ==> Shaped(c.net.layers, dev[i], c.nCtx))
    }

    ghost predicate CacheOk()
      reads this
    {
      Aged(pcache, lruClock) && forall i :: 0 <= i < |pcache| ==> EntryOk(c, pcache[i])
    }

    /** Holds between calls. */
    ghost predicate Valid()
      reads this
    {
      && Shape() && CacheOk() && Balanced(book, slots)
      && forall s :: 0 <= s < c.nSlots ==> SlotOk(c, slots[s], dev[s], delivered[s])
    }

    constructor (c0: Config, entries: nat)
      requires ConfigOk(c0)
      ensures Valid() && c == c0 && |pcache| == entries && book == Ledger([], multiset{}, [], multiset{})
      ensures forall s :: 0 <= s < c.nSlots ==> !slots[s].active
    {
      c := c0;
      slots := seq(c0.nSlots, _ => Slot(false, [], [], 0, 0, 0, 0, 0, [], 0, false, map[], 0));
      dev := seq(c0.nSlots + 1, _ => Zero(c0.net.layers, c0.nCtx));
      pcache := seq(entries, _ => CacheEntry([], Zero(c0.net.layers, c0.nCtx), 0, false));
      lruClock := 0;
      out := seq(c0.nSlots, _ => []);
      fin := seq(c0.nSlots, _ => false);
      delivered := seq(c0.nSlots, _ => []);
      book := Ledger([], multiset{}, [], multiset{});
      new;
      NobodyAsked(slots, |slots|);
    }

    // ---- device operations ----

    /** prefillBatchLast on the live stripe: `base == 0` starts from a cleared slot. */
    method Feed(s: nat, toks: seq<Token>, base: nat, ghost h: seq<Token>)
      requires Shape() && s < c.nSlots && toks != [] && base + |toks| <= c.nCtx
      requires |h| == base && (base > 0 ==> Fed(c.net, dev[s], h, c.nCtx))
      modifies `dev
      ensures Shape() && Fed(c.net, dev[s], h + toks, c.nCtx)
      ensures forall i :: 0 <= i < |dev| && i != s ==> dev[i] == old(dev[i])
    {
      hide Fed, RunTokens, Zero, Next;
      var live, scratch, outs := PrefillBatch(c.net.layers, dev[s], dev[c.nSlots], false, base,
                                              Embed(c.net, toks), c.nCtx, c.attnBudget, c.qb);
      ghost var start := if base == 0 then Zero(c.net.layers, c.nCtx) else dev[s];
      if base == 0 {
        FedZero(c.net, c.nCtx);
      }
      SeededView(c.net.layers, start, dev[c.nSlots], c.nCtx);
      FeedTokens(c.net, start, h, toks, c.nCtx);
      dev := dev[s := live][c.nSlots := scratch];
    }

    /** verifyRound: seed the scratch stripe, run the draft against it, return the per-position ids. */
    method VerifyRound(s: nat, toks: seq<Token>, base: nat, ghost h: seq<Token>) returns (am: seq<Token>)
      requires Shape() && s < c.nSlots && toks != [] && base + |toks| <= c.nCtx
      requires |h| == base > 0 && Fed(c.net, dev[s], h, c.nCtx)
      modifies `dev
      ensures Shape() && |am| == |toks|
      ensures forall j :: 0 <= j < |toks| ==> am[j] == Next(c.net, h + toks[..j + 1])
      ensures Fed(c.net, dev[s], h, c.nCtx)
      ensures Fed(c.net, CopyDn(c.net.layers, dev[c.nSlots], dev[s], c.nCtx), h + toks, c.nCtx)
      ensures forall i :: 0 <= i < c.nSlots && i != s ==> dev[i] == old(dev[i])
    {
      hide Fed, RunTokens, Next, View, CopyDn;
      ghost var ls, live0 := c.net.layers, dev[s];
      dev := dev[c.nSlots := CopyDn(c.net.layers, dev[s], dev[c.nSlots], c.nCtx)];
      SeededView(ls, live0, old(dev[c.nSlots]), c.nCtx);
      FeedTokens(c.net, live0, h, toks, c.nCtx);
      var xs := Embed(c.net, toks);
      var live, scratch, outs := PrefillBatch(c.net.layers, dev[s], dev[c.nSlots], true, base, xs, c.nCtx,
                                              c.attnBudget, c.qb);
      ghost var m := RunTokens(ls, live0, base, xs, c.nCtx).0;
      PromoteIsCommit(ls, live0, dev[c.nSlots], m, c.nCtx);
      KeptBelowBase(live0, h, xs);
      am := Ids(c.net, outs);
      dev := dev[s := live][c.nSlots := scratch];
    }

    lemma KeptBelowBase(live: seq<LayerMem>, h: seq<Token>, xs: seq<Vec>)
      requires Fed(c.net, live, h, c.nCtx) && Shaped(c.net.layers, live, c.nCtx) && |h| + |xs| <= c.nCtx
      ensures Fed(c.net, CopyDn(c.net.layers, live, RunTokens(c.net.layers, live, |h|, xs, c.nCtx).0, c.nCtx), h,
                  c.nCtx)
    {
      hide RunTokens, BatchLayers, CopyDn, Holds;
      LayerMajorIsTokenMajor(c.net.layers, live, |h|, xs, c.nCtx);
      RowsBelowBaseKept(c.net.layers, live, |h|, xs, c.nCtx);
      HoldsAgree(c.net.layers, live,
                 CopyDn(c.net.layers, live, BatchLayers(c.net.layers, live, |h|, xs, c.nCtx).0, c.nCtx),
                 Embed(c.net, h), c.nCtx);
    }

    /** Zeroes the slot's stripes. */
    method ResetSlot(s: nat)
      requires Shape() && s < c.nSlots
      modifies `dev
      ensures Shape() && Fed(c.net, dev[s], [], c.nCtx)
      ensures forall i :: 0 <= i < |dev| && i != s ==> dev[i] == old(dev[i])
    {
      hide Fed;
      FedZero(c.net, c.nCtx);
      dev := dev[s := Zero(c.net.layers, c.nCtx)];
    }

    // ---- prefix cache ----

    /** Caches the slot's state under exactly the `pos` tokens it has absorbed. */
    method SnapshotSlot(s: nat, ghost h: seq<Token>)
      requires Shape() && CacheOk() && s < c.nSlots
      requires slots[s].pos <= |slots[s].History()| && h == slots[s].History()[..slots[s].pos]
      requires Fed(c.net, dev[s], h, c.nCtx)
      modifies `pcache, `lruClock
      ensures CacheOk() && |pcache| == |old(pcache)|
      ensures if pcache == [] || slots[s].pos < 8 then pcache == old(pcache) && lruClock == old(lruClock)
              else exists idx: nat ::
                && IsVictim(old(pcache), idx) && lruClock == old(lruClock) + 1
                && pcache == old(pcache)[idx := CacheEntry(h, dev[s], lruClock, true)]
      ensures Cached(old(pcache), old(lruClock), pcache, lruClock, h)
    {
      hide Fed, Aged, Kept;
      if pcache == [] {
        return;
      }
      var sl := slots[s];
      var fedGen := if sl.pos > |sl.prompt| then sl.pos - |sl.prompt| else 0;
      if fedGen > |sl.genTokens| {
        fedGen := |sl.genTokens|;
      }
      FedLength(h, dev[s]);
      if sl.pos < 8 || sl.pos > c.nCtx {
        return;
      }
      var idx := 0;
      var i := 0;
      while i < |pcache|
        invariant 0 <= i <= |pcache| && 0 <= idx < |pcache|
        invariant forall j :: 0 <= j < i ==> pcache[j].valid && pcache[idx].lru <= pcache[j].lru
        invariant idx <= i && (i > 0 ==> idx < i)
      {
        if !pcache[i].valid {
          idx := i;
          break;
        }
        if pcache[i].lru < pcache[idx].lru {
          idx := i;
        }
        i := i + 1;
      }
      var pp := if sl.pos < |sl.prompt| then sl.pos else |sl.prompt|;
      var key := sl.prompt[..pp] + sl.genTokens[..fedGen];
      assert key == h;
      assert IsVictim(pcache, idx);
      lruClock := lruClock + 1;
      pcache := pcache[idx := CacheEntry(key, dev[s], lruClock, true)];
      assert Replaced(old(pcache), pcache, idx, h, lruClock);
      CachedKept(old(pcache), old(lruClock), pcache, lruClock, h);
    }

    lemma FedLength(h: seq<Token>, mem: seq<LayerMem>)
      requires Fed(c.net, mem, h, c.nCtx)
      ensures |h| <= c.nCtx
    {
    }

    /** The longest reusable entry, or -1. */
    method MatchPrefix(prompt: seq<Token>) returns (best: int)
      ensures -1 <= best < |pcache|
      ensures best >= 0 ==> Reusable(pcache[best], prompt)
      ensures best < 0 ==> forall i :: 0 <= i < |pcache| ==> !Reusable(pcache[i], prompt)
      ensures best >= 0 ==> forall i :: 0 <= i < |pcache| && Reusable(pcache[i], prompt) ==>
                |pcache[i].tokens| <= |pcache[best].tokens|
    {
      best := -1;
      var bestLen := 8;
      for i := 0 to |pcache|
        invariant -1 <= best < i
        invariant bestLen == if best < 0 then 8 else |pcache[best].tokens|
        invariant best >= 0 ==> Reusable(pcache[best], prompt)
        invariant best < 0 ==> forall j :: 0 <= j < i ==> !Reusable(pcache[j], prompt)
        invariant forall j :: 0 <= j < i && Reusable(pcache[j], prompt) ==> |pcache[j].tokens| <= bestLen
      {
        var tk := pcache[i].tokens;
        if !pcache[i].valid || |tk| >= |prompt| || |tk| <= bestLen {
          continue;
        }
        var ok := true;
        var j := 0;
        while j < |tk| && ok
          invariant 0 <= j <= |tk|
          invariant ok ==> tk[..j] == prompt[..j]
          invariant !ok ==> !(tk <= prompt)
          decreases |tk| - j, ok
        {
          if tk[j] != prompt[j] {
            ok := false;
          } else {
            j := j + 1;
          }
        }
        if ok {
          best, bestLen := i, |tk|;
        }
      }
    }

    // ---- request start and cancel ----

    /** Batches prompt tokens up to `limit` while at least sixteen remain. */
    method BatchTo(s: nat, prompt: seq<Token>, start: nat, limit: nat) returns (done: nat)
      requires Shape() && s < c.nSlots && start <= |prompt| <= c.nCtx && limit <= |prompt|
      requires Fed(c.net, dev[s], prompt[..start], c.nCtx)
      modifies `dev
      ensures Shape() && start <= done <= |prompt| && (done == start || done <= limit)
      ensures done + 16 > limit && (done > start <==> start + 16 <= limit)
      ensures Fed(c.net, dev[s], prompt[..done], c.nCtx)
      ensures forall i :: 0 <= i < |dev| && i != s ==> dev[i] == old(dev[i])
    {
      hide Fed;
      done := start;
      while limit > done && limit - done >= 16
        invariant Shape() && start <= done <= |prompt| && (done == start || done <= limit)
        invariant done > start ==> start + 16 <= limit
        invariant Fed(c.net, dev[s], prompt[..done], c.nCtx)
        invariant forall i :: 0 <= i < |dev| && i != s ==> dev[i] == old(dev[i])
        decreases limit - done
      {
        var chunk := if c.maxB < limit - done then c.maxB else limit - done;
        Feed(s, prompt[done..done + chunk], done, prompt[..done]);
        assert prompt[..done] + prompt[done..done + chunk] == prompt[..done + chunk];
        done := done + chunk;
      }
    }

    /** Restores the longest cached prefix, or clears the slot. */
    method Resume(s: nat, prompt: seq<Token>) returns (start: nat)
      requires Shape() && CacheOk() && s < c.nSlots && prompt != []
      modifies `dev, `pcache, `lruClock
      ensures Shape() && CacheOk() && |pcache| == |old(pcache)|
      ensures Kept(old(pcache), old(lruClock), pcache, lruClock)
      ensures start < |prompt| && Fed(c.net, dev[s], prompt[..start], c.nCtx)
      ensures IsReuse(old(pcache), prompt, start)
      ensures forall i :: 0 <= i < |pcache| ==> pcache[i] == old(pcache)[i].(lru := pcache[i].lru)
      ensures forall i :: 0 <= i < |dev| && i != s ==> dev[i] == old(dev[i])
    {
      hide Fed, Aged, Kept;
      KeptSelf(pcache, lruClock);
      var cidx := MatchPrefix(prompt);
      if cidx >= 0 {
        start := |pcache[cidx].tokens|;
        TouchedKept(pcache, lruClock, cidx);
        lruClock := lruClock + 1;
        pcache := pcache[cidx := pcache[cidx].(lru := lruClock)];
        dev := dev[s := pcache[cidx].snap];
        assert prompt[..start] == pcache[cidx].tokens;
      } else {
        start := 0;
        ResetSlot(s);
        assert prompt[..0] == [];
      }
    }

    /** Batched part of the prompt, with the history-boundary snapshot on the way. */
    method WarmUp(s: nat, prompt: seq<Token>, start: nat, snapPrefix: nat) returns (done: nat, snapPos: nat)
      requires Shape() && CacheOk() && s < c.nSlots && start < |prompt| <= c.nCtx && !slots[s].active
      requires Fed(c.net, dev[s], prompt[..start], c.nCtx)
      modifies `slots, `dev, `pcache, `lruClock
      ensures Shape() && CacheOk() && |pcache| == |old(pcache)|
      ensures Kept(old(pcache), old(lruClock), pcache, lruClock)
      ensures start <= done < |prompt| && (!c.noBatch ==> done + 17 > |prompt|)
      ensures Fed(c.net, dev[s], prompt[..done], c.nCtx)
      ensures slots == old(slots)[s := slots[s]] && !slots[s].active
      ensures forall i :: 0 <= i < |dev| && i != s ==> dev[i] == old(dev[i])
      ensures if BoundaryDue(c, start, snapPrefix, |prompt|)
              then snapPrefix - 16 < snapPos <= snapPrefix && snapPos <= |prompt|
                   && Cached(old(pcache), old(lruClock), pcache, lruClock, prompt[..snapPos])
              else snapPos == 0 && pcache == old(pcache) && lruClock == old(lruClock)
    {
      hide Fed, Aged, Kept, Cached;
      KeptSelf(pcache, lruClock);
      var target := |prompt| - 1;
      done := start;
      var snapAt := if snapPrefix > start && snapPrefix < target then snapPrefix else 0;
      snapPos := 0;
      if !c.noBatch {
        if snapAt > 0 {
          done := BatchTo(s, prompt, done, snapAt);
          if c.shareFork && done > start {
            slots := slots[s := slots[s].(pos := done, prompt := prompt)];
            assert slots[s].History()[..done] == prompt[..done];
            SnapshotSlot(s, prompt[..done]);
            CachedKept(old(pcache), old(lruClock), pcache, lruClock, prompt[..done]);
            snapPos := done;
          }
        }
        done := BatchTo(s, prompt, done, target);
      }
    }

    /** The slot takes the request, its state holding the first `done` tokens of the prompt. */
    method Seat(s: nat, prompt: seq<Token>, maxGen: nat, snapPrefix: nat, done: nat, ghost before: seq<Slot>)
      requires Shape() && CacheOk() && s < c.nSlots && done < |prompt| <= c.nCtx
      requires Fed(c.net, dev[s], prompt[..done], c.nCtx)
      requires |before| == |slots| && slots == before[s := slots[s]] && !before[s].active && Balanced(book, before)
      requires forall i :: 0 <= i < c.nSlots && i != s ==> SlotOk(c, slots[i], dev[i], delivered[i])
      modifies `slots, `delivered, `book
      ensures Valid() && book == AfterStart(old(book), s, prompt, maxGen, snapPrefix, true)
      ensures slots == old(slots)[s := slots[s]] && delivered == old(delivered)[s := []]
      ensures slots[s].active && slots[s].prompt == prompt && slots[s].maxGen == maxGen && !slots[s].finPending
      ensures slots[s].genTokens == [] && slots[s].cursor == slots[s].pos == done
    {
      hide Fed, Next, Stream, EntryOk, Balanced, AfterStart, Aged;
      slots := slots[s := slots[s].(cursor := done, pos := done, active := true, prompt := prompt, genTokens := [],
                                    gen := 0, maxGen := maxGen, last := 0).ResetSpec()];
      delivered := delivered[s := []];
      assert slots == before[s := slots[s]];
      StartBalance(book, before, s, slots[s], snapPrefix);
      book := AfterStart(book, s, prompt, maxGen, snapPrefix, true);
    }

    /** An admitted request: restore or clear, batch what can be batched, and cache the boundary or the lot. */
    method Begin(s: nat, prompt: seq<Token>, maxGen: nat, snapPrefix: nat) returns (ghost start: nat, ghost kept: nat)
      requires Valid() && s < c.nSlots && !slots[s].active && prompt != [] && |prompt| <= c.nCtx
      modifies `slots, `dev, `pcache, `lruClock, `delivered, `book
      ensures Valid() && book == AfterStart(old(book), s, prompt, maxGen, snapPrefix, true)
      ensures Kept(old(pcache), old(lruClock), pcache, lruClock)
      ensures
        && slots[s].active && slots[s].prompt == prompt && slots[s].maxGen == maxGen && !slots[s].finPending
        && slots[s].genTokens == [] && delivered[s] == []
        && slots[s].cursor < |prompt| && (!c.noBatch ==> slots[s].cursor + 17 > |prompt|)
        && IsReuse(old(pcache), prompt, start) && start <= slots[s].cursor
      ensures
        && kept <= |prompt|
        && (if BoundaryDue(c, start, snapPrefix, |prompt|) then snapPrefix - 16 < kept <= snapPrefix
            else kept == if c.shareFork && slots[s].cursor > start then slots[s].cursor else 0)
        && (kept >= 8 && old(pcache) != [] ==> Newest(pcache, lruClock, prompt[..kept]))
      ensures forall i :: 0 <= i < c.nSlots && i != s ==>
                slots[i] == old(slots[i]) && dev[i] == old(dev[i]) && delivered[i] == old(delivered[i])
    {
      hide Fed, Next, Stream, Cached, IsReuse, Newest, IsVictim, EntryOk, Balanced, AfterStart, SlotOk,
           Aged, Kept;
      var resumed := Resume(s, prompt);
      start := resumed;
      ghost var touched, clock := pcache, lruClock;
      var done, snapPos := WarmUp(s, prompt, resumed, snapPrefix);
      kept := snapPos;
      KeptOn(old(pcache), old(lruClock), touched, clock, pcache, lruClock);
      ghost var warm, warmClock := pcache, lruClock;
      Seat(s, prompt, maxGen, snapPrefix, done, old(slots));
      if c.shareFork && snapPos == 0 && done > resumed {
        assert slots[s].History()[..done] == prompt[..done];
        SnapshotSlot(s, prompt[..done]);
        kept := done;
        CachedKept(warm, warmClock, pcache, lruClock, prompt[..done]);
        KeptOn(old(pcache), old(lruClock), warm, warmClock, pcache, lruClock);
      }
      if kept >= 8 && touched != [] {
        CachedNewest(touched, clock, pcache, lruClock, prompt[..kept]);
      }
    }

    /** qk_slot_start. `snapPrefix` is the caller's history boundary, 0 for none. */
    method Start(s: nat, prompt: seq<Token>, maxGen: nat, snapPrefix: nat)
      returns (rc: int, ghost start: nat, ghost kept: nat)
      requires Valid() && Startable(c, prompt, maxGen)
      modifies `slots, `dev, `pcache, `lruClock, `delivered, `book
      ensures Valid() && book == AfterStart(old(book), s, prompt, maxGen, snapPrefix, rc == 0)
      ensures Kept(old(pcache), old(lruClock), pcache, lruClock)
      ensures rc == StartCode(c, s, s < c.nSlots && old(slots[s].active), prompt, maxGen)
      ensures rc != 0 ==> slots == old(slots) && dev == old(dev) && pcache == old(pcache) && delivered == old(delivered)
      ensures rc == 0 ==>
        && slots[s].active && slots[s].prompt == prompt && slots[s].maxGen == maxGen && !slots[s].finPending
        && slots[s].genTokens == [] && delivered[s] == []
        && slots[s].cursor < |prompt| && (!c.noBatch ==> slots[s].cursor + 17 > |prompt|)
        && IsReuse(old(pcache), prompt, start) && start <= slots[s].cursor
      ensures rc == 0 ==>
        && kept <= |prompt|
        && (if c.shareFork && !c.noBatch && start + 16 <= snapPrefix && snapPrefix + 1 < |prompt| then
              snapPrefix - 16 < kept <= snapPrefix
            else kept == if c.shareFork && slots[s].cursor > start then slots[s].cursor else 0)
        && (kept >= 8 && old(pcache) != [] ==> Newest(pcache, lruClock, prompt[..kept]))
      ensures rc == 0 ==> forall i :: 0 <= i < c.nSlots && i != s ==>
                slots[i] == old(slots[i]) && dev[i] == old(dev[i]) && delivered[i] == old(delivered[i])
    {
      hide Fed, Next, Stream, SlotOk, IsReuse, Newest, EntryOk, Balanced, AfterStart, Aged, Kept;
      KeptSelf(pcache, lruClock);
      start, kept := 0, 0;
      ghost var refused := AfterStart(book, s, prompt, maxGen, snapPrefix, false);
      RefusedBook(book, s, prompt, maxGen, snapPrefix, slots);
      if s >= c.nSlots {
        rc := -1;
        book := refused;
        return;
      }
      if slots[s].active {
        rc := -2;
        book := refused;
        return;
      }
      if prompt == [] || (|prompt| + maxGen) % U32 > c.nCtx {
        rc := -3;
        book := refused;
        return;
      }
      for i := 0 to |prompt|
        invariant forall j :: 0 <= j < i ==> (prompt[j] as int) < c.vocab
      {
        if prompt[i] as int >= c.vocab {
          rc := -4;
          book := refused;
          return;
        }
      }
      rc := 0;
      start, kept := Begin(s, prompt, maxGen, snapPrefix);
    }

    /** qk_slot_cancel: safe on a free slot. */
    method Cancel(s: nat)
      requires Valid()
      modifies `slots, `book
      ensures Valid() && book == AfterCancel(old(book), s, old(slots))
      ensures s < c.nSlots ==> !slots[s].active && slots == old(slots)[s := slots[s]]
      ensures s >= c.nSlots ==> slots == old(slots)
    {
      hide Fed, Next, Balanced;
      ghost var after := AfterCancel(book, s, slots);
      if s < c.nSlots {
        slots := slots[s := slots[s].(active := false, prompt := []).ResetSpec()];
        CancelBalance(book, old(slots), s, slots[s]);
      } else {
        SameBalance(book, after, slots);
      }
      book := after;
    }

    // ---- stepChunk ----

    /** Holds throughout a call, after the queues have been drained. */
    ghost predicate Mid()
      reads this
    {
      && Shape() && CacheOk()
      && forall s :: 0 <= s < c.nSlots ==> MidOk(c, slots[s], dev[s], delivered[s], out[s], fin[s])
    }

    /** The `finish` closure: frees a finished slot once its queue has drained. */
    method Finish(s: nat)
      requires Shape() && s < c.nSlots
      requires slots[s].active && SlotOk(c, slots[s], dev[s], delivered[s] + out[s]) && |out[s]| <= c.chunkN && !fin[s]
      requires slots[s].outQHead < |slots[s].outQ| ==> |out[s]| == c.chunkN
      modifies `slots, `fin
      ensures Shape() && MidOk(c, slots[s], dev[s], delivered[s], out[s], fin[s])
      ensures if old(slots[s]).finPending && old(slots[s]).outQHead >= |old(slots[s]).outQ|
              then fin == old(fin)[s := true] && slots == old(slots)[s := old(slots[s]).ResetSpec().(active := false)]
              else fin == old(fin) && slots == old(slots)
    {
      hide Fed, Next, Stream;
      var sl := slots[s];
      if sl.finPending && sl.outQHead >= |sl.outQ| {
        DrainedIsAnswer(c, sl, delivered[s] + out[s]);
        slots := slots[s := sl.ResetSpec().(active := false)];
        fin := fin[s := true];
      }
    }

    /** The `emitTok` closure: beyond the per-call cap a token waits in the queue. */
    method EmitTok(s: nat, t: Token)
      requires Shape() && s < c.nSlots && |out[s]| <= c.chunkN && slots[s].outQHead <= |slots[s].outQ|
      requires slots[s].outQHead < |slots[s].outQ| ==> |out[s]| == c.chunkN
      modifies `slots, `out
      ensures Shape() && |out[s]| <= c.chunkN
      ensures slots == old(slots)[s := old(slots[s]).(outQ := slots[s].outQ)] && out == old(out)[s := out[s]]
      ensures slots[s].outQHead <= |slots[s].outQ|
      ensures slots[s].outQHead < |slots[s].outQ| ==> |out[s]| == c.chunkN
      ensures out[s] + slots[s].outQ[slots[s].outQHead..]
           == old(out[s]) + old(slots[s]).outQ[old(slots[s]).outQHead..] + [t]
    {
      var sl := slots[s];
      if |out[s]| < c.chunkN {
        out := out[s := out[s] + [t]];
        assert sl.outQ[sl.outQHead..] == [];
      } else {
        slots := slots[s := sl.(outQ := sl.outQ + [t])];
        assert (sl.outQ + [t])[sl.outQHead..] == sl.outQ[sl.outQHead..] + [t];
      }
    }

    /** One recorded step: every slot below `maxZ` runs its input at its position, idle ones included. */
    method Submit(maxZ: nat, inMap: seq<Token>, posMap: seq<nat>) returns (samp: seq<Token>)
      requires Shape() && maxZ <= c.nSlots == |inMap| == |posMap|
      requires forall i :: 0 <= i < maxZ ==> posMap[i] < c.nCtx
      modifies `dev
      ensures Shape() && |samp| == maxZ
      ensures forall i :: 0 <= i < maxZ ==>
        && Shaped(c.net.layers, old(dev[i]), c.nCtx)
        && (dev[i], samp[i])
           == (var (m, y) := StepLayers(c.net.layers, old(dev[i]), posMap[i], c.net.embed(inMap[i]), c.nCtx);
                                 (m, c.net.argmax(y)))
      ensures forall i :: maxZ <= i < |dev| ==> dev[i] == old(dev[i])
    {
      hide StepLayers;
      samp := [];
      for i := 0 to maxZ
        invariant Shape() && |samp| == i
        invariant forall j :: 0 <= j < i ==>
          && Shaped(c.net.layers, old(dev[j]), c.nCtx)
          && (dev[j], samp[j])
             == (var (m, y) := StepLayers(c.net.layers, old(dev[j]), posMap[j], c.net.embed(inMap[j]), c.nCtx);
                                   (m, c.net.argmax(y)))
        invariant forall j :: i <= j < |dev| ==> dev[j] == old(dev[j])
      {
        var (m, y) := StepLayers(c.net.layers, dev[i], posMap[i], c.net.embed(inMap[i]), c.nCtx);
        dev := dev[i := m];
        samp := samp + [c.net.argmax(y)];
      }
    }

    /** A running slot whose pending token has just been stepped. */
    ghost predicate Stepped(s: nat, sampled: Token)
      requires Shape() && s < c.nSlots
      reads this
    {
      && slots[s].active && !slots[s].finPending && Running(slots[s]) && Within(c, slots[s])
      && Fed(c.net, dev[s], FedTokens(slots[s]) + [Pending(slots[s])], c.nCtx)
      && sampled == Next(c.net, FedTokens(slots[s]) + [Pending(slots[s])])
    }

    lemma QueueAppend(del: seq<Token>, o0: seq<Token>, q0: seq<Token>, o: seq<Token>, q: seq<Token>, t: Token)
      requires o + q == o0 + q0 + [t]
      ensures del + o + q == del + o0 + q0 + [t]
    {
      assert del + o + q == del + (o + q);
    }

    /** What stepChunk does with one slot's sample. */
    method Consume(s: nat, sampled: Token)
      requires Shape() && CacheOk() && s < c.nSlots && Stepped(s, sampled) && !fin[s]
      requires BooksOk(c, slots[s], delivered[s] + out[s]) && |out[s]| <= c.chunkN
      requires slots[s].outQHead < |slots[s].outQ| ==> |out[s]| == c.chunkN
      modifies `slots, `out, `fin, `pcache, `lruClock
      ensures Shape() && CacheOk() && |pcache| == |old(pcache)|
      ensures MidOk(c, slots[s], dev[s], delivered[s], out[s], fin[s])
      ensures AdvancedOne(old(slots[s]), slots[s]) && (slots[s].active || fin[s])
      ensures EndCached(old(pcache), old(lruClock), pcache, lruClock, slots[s])
      ensures slots == old(slots)[s := slots[s]] && out == old(out)[s := out[s]] && fin == old(fin)[s := fin[s]]
    {
      hide Fed, Next, Stream, EntryOk, Cached, IsGreedy, Answer, IndexOk;
      var sl := slots[s];
      ghost var sent := delivered[s] + out[s];
      PendingExtends(c, sl, sent);
      var prefilling := sl.cursor < |sl.prompt|;
      if prefilling && sl.cursor + 1 < |sl.prompt| {
        slots := slots[s := sl.(cursor := sl.cursor + 1)];
        return;
      }
      ghost var h := sl.prompt + sl.genTokens;
      assert FedTokens(sl) + [Pending(sl)] == h;
      if prefilling {
        sl := sl.(cursor := |sl.prompt|, pos := |sl.prompt|);
      }
      slots := slots[s := sl];
      if sampled == c.eos {
        CommitEos(s, prefilling);
      } else {
        CommitToken(s, sampled, prefilling);
      }
    }

    /** Generation is over: the slot is cached under the tokens it was fed, and freed once its queue is empty. */
    method EndSlot(s: nat, ghost h: seq<Token>)
      requires Shape() && CacheOk() && s < c.nSlots && |out[s]| <= c.chunkN && !fin[s]
      requires Live(slots[s]) && BooksOk(c, slots[s], delivered[s] + out[s]) && slots[s].cursor == |slots[s].prompt|
      requires slots[s].outQHead < |slots[s].outQ| ==> |out[s]| == c.chunkN
      requires Ended(c.net, c.eos, slots[s].prompt, slots[s].genTokens, LimitIn(c, slots[s].prompt, slots[s].maxGen))
      requires Fed(c.net, dev[s], h, c.nCtx)
      requires slots[s].pos <= |slots[s].History()| && slots[s].History()[..slots[s].pos] == h
      modifies `slots, `fin, `pcache, `lruClock
      ensures Shape() && CacheOk() && |pcache| == |old(pcache)|
      ensures MidOk(c, slots[s], dev[s], delivered[s], out[s], fin[s]) && !Live(slots[s]) && (slots[s].active || fin[s])
      ensures EndCached(old(pcache), old(lruClock), pcache, lruClock, slots[s])
      ensures slots == old(slots)[s := slots[s]] && fin == old(fin)[s := fin[s]]
      ensures SameRequest(old(slots[s]), slots[s]) && slots[s].cursor == old(slots[s].cursor)
      ensures slots[s].gen == old(slots[s].gen)
    {
      hide Fed, Next, Stream, IsGreedy, IndexOk, Running, Ended, FedTokens, Cached, LimitIn;
      SnapshotSlot(s, h);
      slots := slots[s := slots[s].(finPending := true)];
      Finish(s);
    }

    /** The end-of-stream branch of a step: a decode-step end token has still been fed. */
    method CommitEos(s: nat, prefilling: bool)
      requires Shape() && CacheOk() && s < c.nSlots && |out[s]| <= c.chunkN && !fin[s]
      requires Live(slots[s]) && BooksOk(c, slots[s], delivered[s] + out[s]) && slots[s].cursor == |slots[s].prompt|
      requires slots[s].pos == |slots[s].History()| - (if prefilling then 0 else 1)
      requires Fed(c.net, dev[s], slots[s].History(), c.nCtx) && Next(c.net, slots[s].History()) == c.eos
      requires slots[s].outQHead < |slots[s].outQ| ==> |out[s]| == c.chunkN
      modifies `slots, `fin, `pcache, `lruClock
      ensures Shape() && CacheOk() && |pcache| == |old(pcache)|
      ensures MidOk(c, slots[s], dev[s], delivered[s], out[s], fin[s])
      ensures SameRequest(old(slots[s]), slots[s]) && (slots[s].active || fin[s]) && !Live(slots[s])
      ensures slots[s].gen == old(slots[s]).gen
      ensures EndCached(old(pcache), old(lruClock), pcache, lruClock, slots[s])
      ensures slots == old(slots)[s := slots[s]] && fin == old(fin)[s := fin[s]]
    {
      hide Fed, Next, Stream, IsGreedy, IndexOk;
      if !prefilling {
        slots := slots[s := slots[s].(pos := slots[s].pos + 1)];
      }
      assert slots[s].History()[..slots[s].pos] == slots[s].History();
      EndSlot(s, slots[s].History());
    }

    /** The token branch of a step: emit, record, and finish at the limit. */
    method CommitToken(s: nat, t: Token, prefilling: bool)
      requires Shape() && CacheOk() && s < c.nSlots && |out[s]| <= c.chunkN && !fin[s]
      requires slots[s].active && !slots[s].finPending && Within(c, slots[s])
      requires slots[s].gen == |slots[s].genTokens| && slots[s].prompt != [] && slots[s].outQHead <= |slots[s].outQ|
      requires BooksOk(c, slots[s], delivered[s] + out[s])
      requires slots[s].cursor == |slots[s].prompt|
      requires slots[s].pos == |slots[s].prompt| + slots[s].gen - (if prefilling then 0 else 1)
      requires prefilling <==> slots[s].gen == 0
      requires Fed(c.net, dev[s], slots[s].History(), c.nCtx)
      requires t == Next(c.net, slots[s].History()) && t != c.eos
      requires slots[s].outQHead < |slots[s].outQ| ==> |out[s]| == c.chunkN
      modifies `slots, `out, `fin, `pcache, `lruClock
      ensures Shape() && CacheOk() && |pcache| == |old(pcache)|
      ensures MidOk(c, slots[s], dev[s], delivered[s], out[s], fin[s])
      ensures SameRequest(old(slots[s]), slots[s]) && (slots[s].active || fin[s])
      ensures slots[s].gen == old(slots[s]).gen + 1 && slots[s].cursor == |slots[s].prompt|
      ensures EndCached(old(pcache), old(lruClock), pcache, lruClock, slots[s])
      ensures slots == old(slots)[s := slots[s]] && out == old(out)[s := out[s]] && fin == old(fin)[s := fin[s]]
    {
      hide Fed, Next, Stream, IsGreedy, IndexOk, Running, Ended, FedTokens, Cached, LimitIn, EntryOk;
      ghost var a, h := slots[s], slots[s].History();
      EmitTok(s, t);
      var sl := slots[s].(genTokens := slots[s].genTokens + [t], last := t, gen := slots[s].gen + 1,
                          pos := if prefilling then slots[s].pos else slots[s].pos + 1);
      QueueAppend(delivered[s], old(out[s]), a.outQ[a.outQHead..], out[s], sl.outQ[sl.outQHead..], t);
      TokenBooked(c, a, delivered[s] + old(out[s]), sl, delivered[s] + out[s], t);
      TokenPlaced(c, a, sl, prefilling);
      slots := slots[s := sl];
      if sl.pos >= c.nCtx || sl.gen >= sl.maxGen {
        EndSlot(s, h);
      }
    }

    /** Fills the step inputs: prompt token at its cursor, last token at `pos`, token 0 at position 0
        for idle and draining slots. `maxZ` is one past the highest live slot. */
    method PlanStep() returns (maxZ: nat, need: bool, inMap: seq<Token>, posMap: seq<nat>)
      requires Mid()
      ensures maxZ <= c.nSlots && |inMap| == |posMap| == c.nSlots
      ensures forall i :: maxZ <= i < c.nSlots ==> !Live(slots[i])
      ensures maxZ > 0 ==> Live(slots[maxZ - 1])
      ensures forall i :: 0 <= i < c.nSlots ==> InputOk(c, slots[i], inMap[i], posMap[i])
      ensures need <==> exists i :: 0 <= i < c.nSlots && Needs(i)
    {
      hide *;
      MidSize();
      maxZ, need, inMap, posMap := 0, false, [], [];
      ghost var who: nat := 0;
      for i := 0 to c.nSlots
        invariant maxZ <= i && |inMap| == |posMap| == i
        invariant forall j :: maxZ <= j < i ==> !Live(slots[j])
        invariant maxZ > 0 ==> Live(slots[maxZ - 1])
        invariant forall j :: 0 <= j < i ==> InputOk(c, slots[j], inMap[j], posMap[j])
        invariant need ==> who < i && Needs(who)
        invariant !need ==> forall j :: 0 <= j < i ==> !Needs(j)
      {
        var live, owes, t, pos := PlanOne(i);
        if live {
          maxZ := i + 1;
        }
        if owes {
          need, who := true, i;
        }
        inMap, posMap := inMap + [t], posMap + [pos];
      }
    }

    lemma MidSize()
      requires Mid()
      ensures Shape() && |slots| == c.nSlots
    {
    }

    /** The input of one slot, and whether it owes prefill progress or tokens. */
    method PlanOne(i: nat) returns (live: bool, owes: bool, t: Token, pos: nat)
      requires Mid() && i < c.nSlots
      ensures InputOk(c, slots[i], t, pos)
      ensures live <==> Live(slots[i])
      ensures owes <==> Needs(i)
    {
      hide MidOk, Running, FedTokens, Pending;
      live, owes, t, pos := false, false, 0, 0;
      if slots[i].active && !slots[i].finPending {
        LiveFacts(c, slots[i], dev[i], delivered[i], out[i], fin[i]);
        live := true;
        t, pos := PlanSlot(slots[i]);
        owes := slots[i].cursor < |slots[i].prompt| || |out[i]| < c.chunkN;
      }
    }

    method PlanSlot(sl: Slot) returns (t: Token, pos: nat)
      requires Running(sl)
      ensures t == Pending(sl) && pos == if sl.cursor < |sl.prompt| then sl.cursor else sl.pos
    {
      if sl.cursor < |sl.prompt| {
        return sl.prompt[sl.cursor], sl.cursor;
      }
      return sl.last, sl.pos;
    }

    /** The slot still owes prefill progress or tokens to this call. */
    ghost predicate Needs(s: nat)
      requires Shape() && s < c.nSlots
      reads this
    {
      Live(slots[s]) && (slots[s].cursor < |slots[s].prompt| || |out[s]| < c.chunkN)
    }

    /** One pass of the serial loop; `ran` is false when nobody needs a step. */
    method SerialStep() returns (ran: bool)
      requires Mid()
      modifies `slots, `dev, `out, `fin, `pcache, `lruClock
      ensures Mid() && Kept(old(pcache), old(lruClock), pcache, lruClock)
      ensures !ran ==> slots == old(slots) && dev == old(dev) && out == old(out) && fin == old(fin)
      ensures !ran ==> forall s :: 0 <= s < c.nSlots ==> !Needs(s)
      ensures forall s :: 0 <= s < c.nSlots && !Live(old(slots)[s]) ==>
                slots[s] == old(slots)[s] && out[s] == old(out)[s] && fin[s] == old(fin)[s]
      ensures ran ==> forall s :: 0 <= s < c.nSlots && Live(old(slots)[s]) ==>
                AdvancedOne(old(slots)[s], slots[s]) && (slots[s].active || fin[s])
    {
      hide Fed, Next, Stream, IsGreedy, IndexOk, StepLayers, MidOk, BooksOk, Running, Pending, AdvancedOne, Kept;
      KeptSelf(pcache, lruClock);
      var maxZ, need, inMap, posMap := PlanStep();
      if maxZ == 0 || !need {
        return false;
      }
      ran := true;
      label planned:
      var samp := Submit(maxZ, inMap, posMap);
      forall s | 0 <= s < c.nSlots && Live(slots[s])
        ensures s < maxZ && Stepped(s, samp[s]) && !fin[s] && BooksOk(c, slots[s], delivered[s] + out[s])
        ensures |out[s]| <= c.chunkN && (slots[s].outQHead < |slots[s].outQ| ==> |out[s]| == c.chunkN)
      {
        assert InputOk(c, slots[s], inMap[s], posMap[s]);
        LiveFacts(c, slots[s], old@planned(dev[s]), delivered[s], out[s], fin[s]);
        FeedOne(c.net, old@planned(dev[s]), FedTokens(slots[s]), Pending(slots[s]), c.nCtx);
      }
      forall s | 0 <= s < c.nSlots && !Live(slots[s])
        ensures MidOk(c, slots[s], dev[s], delivered[s], out[s], fin[s])
      {
        IdleUnaffected(c, slots[s], old@planned(dev[s]), dev[s], delivered[s], out[s], fin[s]);
      }
      ConsumeAll(samp, maxZ);
    }

    /** Hands every live slot its sample. */
    method ConsumeAll(samp: seq<Token>, maxZ: nat)
      requires Shape() && CacheOk() && |samp| == maxZ <= c.nSlots
      requires forall s :: 0 <= s < c.nSlots && Live(slots[s]) ==>
        && s < maxZ && Stepped(s, samp[s]) && !fin[s] && BooksOk(c, slots[s], delivered[s] + out[s])
        && |out[s]| <= c.chunkN && (slots[s].outQHead < |slots[s].outQ| ==> |out[s]| == c.chunkN)
      requires forall s :: 0 <= s < c.nSlots && !Live(slots[s]) ==>
        MidOk(c, slots[s], dev[s], delivered[s], out[s], fin[s])
      modifies `slots, `out, `fin, `pcache, `lruClock
      ensures Mid() && Kept(old(pcache), old(lruClock), pcache, lruClock)
      ensures forall s :: 0 <= s < c.nSlots && !Live(old(slots)[s]) ==>
                slots[s] == old(slots)[s] && out[s] == old(out)[s] && fin[s] == old(fin)[s]
      ensures forall s :: 0 <= s < c.nSlots && Live(old(slots)[s]) ==>
                AdvancedOne(old(slots)[s], slots[s]) && (slots[s].active || fin[s])
    {
      hide Fed, Next, FedTokens, Pending, Running, MidOk, BooksOk, AdvancedOne, Aged, Kept, EndCached, EntryOk;
      KeptSelf(pcache, lruClock);
      for s := 0 to c.nSlots
        invariant Shape() && CacheOk() && Kept(old(pcache), old(lruClock), pcache, lruClock)
        invariant forall i :: s <= i < c.nSlots ==>
          slots[i] == old(slots)[i] && out[i] == old(out)[i] && fin[i] == old(fin)[i]
        invariant forall i :: 0 <= i < s ==> MidOk(c, slots[i], dev[i], delivered[i], out[i], fin[i])
        invariant forall i :: 0 <= i < s && !Live(old(slots)[i]) ==>
          slots[i] == old(slots)[i] && out[i] == old(out)[i] && fin[i] == old(fin)[i]
        invariant forall i :: 0 <= i < s && Live(old(slots)[i]) ==>
          AdvancedOne(old(slots)[i], slots[i]) && (slots[i].active || fin[i])
      {
        if slots[s].active && !slots[s].finPending {
          assert old(Stepped(s, samp[s]));
          ghost var before, clock := pcache, lruClock;
          Consume(s, samp[s]);
          EndKept(before, clock, pcache, lruClock, slots[s]);
          KeptOn(old(pcache), old(lruClock), before, clock, pcache, lruClock);
        }
      }
    }

    /** Phase 3: at most `chunkN` serial steps. */
    method SerialPhase()
      requires Mid()
      modifies `slots, `dev, `out, `fin, `pcache, `lruClock
      ensures Mid() && Kept(old(pcache), old(lruClock), pcache, lruClock)
      ensures forall s :: 0 <= s < c.nSlots && !Live(old(slots)[s]) ==>
                slots[s] == old(slots)[s] && out[s] == old(out)[s] && fin[s] == old(fin)[s]
      ensures forall s :: 0 <= s < c.nSlots && Live(old(slots)[s]) ==>
                && SameRequest(old(slots)[s], slots[s]) && (slots[s].active || fin[s])
                && (slots[s].active ==> |out[s]| == Quota(c.chunkN, PromptLeft(old(slots)[s]))
                                        && PromptLeft(slots[s]) == LeftAfter(c.chunkN, PromptLeft(old(slots)[s])))
    {
      hide Fed, Next, Stream, IsGreedy, IndexOk, Kept;
      KeptSelf(pcache, lruClock);
      ghost var slots0, out0 := slots, out;
      forall s | 0 <= s < c.nSlots && Live(slots[s])
        ensures BooksOk(c, slots[s], delivered[s] + out[s]) && Running(slots[s]) && StepsTaken(slots[s], slots[s], 0)
      {
        assert MidOk(c, slots[s], dev[s], delivered[s], out[s], fin[s]);
      }
      var step := 0;
      var more := true;
      while step < c.chunkN && more
        invariant step <= c.chunkN && Mid() && Kept(old(pcache), old(lruClock), pcache, lruClock)
        invariant forall s :: 0 <= s < c.nSlots && !Live(slots0[s]) ==>
          slots[s] == slots0[s] && out[s] == out0[s] && fin[s] == old(fin)[s]
        invariant forall s :: 0 <= s < c.nSlots && Live(slots0[s]) ==>
          StepsTaken(slots0[s], slots[s], step) && (slots[s].active || fin[s])
        invariant !more ==> step < c.chunkN
        invariant !more ==> forall s :: 0 <= s < c.nSlots ==> !Needs(s)
        decreases c.chunkN - step, more
      {
        label before:
        more := SerialStep();
        KeptOn(old(pcache), old(lruClock), old@before(pcache), old@before(lruClock), pcache, lruClock);
        if more {
          forall s | 0 <= s < c.nSlots && Live(slots0[s])
            ensures StepsTaken(slots0[s], slots[s], step + 1) && (slots[s].active || fin[s])
          {
            assert old@before(MidOk(c, slots[s], dev[s], delivered[s], out[s], fin[s]));
            if Live(old@before(slots)[s]) {
              StepsTakenOne(slots0[s], old@before(slots)[s], slots[s], step);
            }
          }
          step := step + 1;
        }
      }
      forall s | 0 <= s < c.nSlots && Live(slots0[s]) && slots[s].active
        ensures |out[s]| == Quota(c.chunkN, PromptLeft(slots0[s]))
        ensures PromptLeft(slots[s]) == LeftAfter(c.chunkN, PromptLeft(slots0[s]))
      {
        assert MidOk(c, slots[s], dev[s], delivered[s], out[s], fin[s]);
        assert !more ==> !Needs(s);
        QuotaMet(c, slots0[s], delivered[s], out0[s], slots[s], out[s], step);
      }
    }

    // ---- phase 2: speculative rounds ----

    method Accept(toks: seq<Token>, am: seq<Token>) returns (k: nat, emitN: nat, eosHit: bool)
      requires |am| == |toks| && |toks| >= 1
      ensures Accepted(c.eos, toks, am, k, emitN, eosHit)
      ensures eosHit || k == |toks| || toks[k] != am[k - 1]
    {
      var n := |toks|;
      k := 1;
      while k < n && toks[k] == am[k - 1]
        invariant 1 <= k <= n && toks[1..k] == am[..k - 1]
      {
        DraftAgrees(toks, am, k);
        k := k + 1;
      }
      emitN, eosHit := k, false;
      var i := 0;
      while i < k
        invariant 0 <= i <= k && !eosHit && emitN == k
        invariant forall j :: 0 <= j < i ==> am[j] != c.eos
        invariant toks[1..k] == am[..k - 1] && k <= n && (k == n || toks[k] != am[k - 1])
      {
        if am[i] == c.eos {
          DraftCut(toks, am, k, i);
          eosHit, emitN, k := true, i, i + 1;
          return;
        }
        i := i + 1;
      }
    }

    /** Emits accepted picks one by one. */
    method EmitAccepted(s: nat, am: seq<Token>, emitN: nat)
      requires Shape() && s < c.nSlots && emitN <= |am| && |out[s]| <= c.chunkN && !fin[s]
      requires Live(slots[s]) && BooksOk(c, slots[s], delivered[s] + out[s])
      requires slots[s].gen + emitN <= LimitIn(c, slots[s].prompt, slots[s].maxGen)
      requires slots[s].outQHead < |slots[s].outQ| ==> |out[s]| == c.chunkN
      requires forall i :: 0 <= i < emitN ==> am[i] != c.eos && am[i] == Next(c.net, slots[s].History() + am[..i])
      modifies `slots, `out
      ensures Shape() && |out[s]| <= c.chunkN && Live(slots[s])
      ensures BooksOk(c, slots[s], delivered[s] + out[s])
      ensures slots[s].outQHead < |slots[s].outQ| ==> |out[s]| == c.chunkN
      ensures slots[s] == old(slots[s]).(outQ := slots[s].outQ, genTokens := old(slots[s]).genTokens + am[..emitN],
                                         gen := old(slots[s]).gen + emitN,
                                         last := if emitN == 0 then old(slots[s]).last else am[emitN - 1])
      ensures slots == old(slots)[s := slots[s]] && out == old(out)[s := out[s]]
    {
      hide Next, IsGreedy, IndexOk, LimitIn, BooksOk, ConfigOk, Shaped;
      ghost var a := slots[s];
      assert a.genTokens + am[..0] == a.genTokens;
      for i := 0 to emitN
        invariant Shape() && |out[s]| <= c.chunkN
        invariant slots[s] == a.(outQ := slots[s].outQ, genTokens := a.genTokens + am[..i], gen := a.gen + i,
                                 last := if i == 0 then a.last else am[i - 1])
        invariant BooksOk(c, slots[s], delivered[s] + out[s])
        invariant slots[s].outQHead < |slots[s].outQ| ==> |out[s]| == c.chunkN
        invariant slots == old(slots)[s := slots[s]] && out == old(out)[s := out[s]]
      {
        ghost var b, o := slots[s], out[s];
        BooksQueue(c, b, delivered[s] + o);
        EmitTok(s, am[i]);
        var sl := slots[s].(genTokens := slots[s].genTokens + [am[i]], last := am[i], gen := slots[s].gen + 1);
        QueueAppend(delivered[s], o, b.outQ[b.outQHead..], out[s], sl.outQ[sl.outQHead..], am[i]);
        assert a.prompt + (a.genTokens + am[..i]) == a.prompt + a.genTokens + am[..i];
        TokenBooked(c, b, delivered[s] + o, sl, delivered[s] + out[s], am[i]);
        assert a.genTokens + am[..i] + [am[i]] == a.genTokens + am[..i + 1];
        slots := slots[s := sl];
      }
    }

    /** Brings the slot's state to the `k` accepted tokens: promote the scratch state, or re-run them live. */
    method CommitFed(s: nat, toks: seq<Token>, k: nat, base: nat, ghost h: seq<Token>)
      requires Shape() && s < c.nSlots && 1 <= k <= |toks| && base + |toks| <= c.nCtx && |h| == base > 0
      requires Fed(c.net, dev[s], h, c.nCtx)
      requires Fed(c.net, CopyDn(c.net.layers, dev[c.nSlots], dev[s], c.nCtx), h + toks, c.nCtx)
      modifies `dev
      ensures Shape() && Fed(c.net, dev[s], h + toks[..k], c.nCtx)
      ensures forall i :: 0 <= i < c.nSlots && i != s ==> dev[i] == old(dev[i])
    {
      hide Fed, CopyDn;
      if k == |toks| {
        dev := dev[s := CopyDn(c.net.layers, dev[c.nSlots], dev[s], c.nCtx)];
        assert toks[..k] == toks;
      } else {
        Feed(s, toks[..k], base, h);
      }
    }

    /** The end of a round: cache and finish the slot, or leave it running. */
    method FinishRound(s: nat, eosHit: bool, ghost h: seq<Token>) returns (again: bool)
      requires Shape() && CacheOk() && s < c.nSlots && |out[s]| <= c.chunkN && !fin[s]
      requires Live(slots[s]) && slots[s].cursor == |slots[s].prompt| && BooksOk(c, slots[s], delivered[s] + out[s])
      requires slots[s].outQHead < |slots[s].outQ| ==> |out[s]| == c.chunkN
      requires Fed(c.net, dev[s], h, c.nCtx)
      requires slots[s].pos <= |slots[s].History()| && slots[s].History()[..slots[s].pos] == h
      requires RoundOver(c, slots[s], eosHit) ==>
        Ended(c.net, c.eos, slots[s].prompt, slots[s].genTokens, LimitIn(c, slots[s].prompt, slots[s].maxGen))
      requires !RoundOver(c, slots[s], eosHit) ==> Running(slots[s]) && Within(c, slots[s]) && FedTokens(slots[s]) == h
      modifies `slots, `fin, `pcache, `lruClock
      ensures Shape() && CacheOk() && |pcache| == |old(pcache)|
      ensures MidOk(c, slots[s], dev[s], delivered[s], out[s], fin[s])
      ensures slots == old(slots)[s := slots[s]] && fin == old(fin)[s := fin[s]]
      ensures SameRequest(old(slots[s]), slots[s]) && slots[s].cursor == old(slots[s].cursor)
      ensures slots[s].gen == old(slots[s].gen) && (slots[s].active || fin[s])
      ensures (again ==> !eosHit) && (again <==> Live(slots[s]))
      ensures EndCached(old(pcache), old(lruClock), pcache, lruClock, slots[s])
    {
      hide Fed, Next, Stream, IsGreedy, IndexOk, Running, Ended, FedTokens;
      again := true;
      if eosHit || slots[s].gen >= slots[s].maxGen || slots[s].pos >= c.nCtx {
        EndSlot(s, h);
        again := false;
      }
    }

    /** The accepted tokens are in the slot's state: book the picks and close the round. */
    method SettleRound(s: nat, toks: seq<Token>, am: seq<Token>, k: nat, emitN: nat, eosHit: bool, ghost h: seq<Token>)
      returns (again: bool)
      requires Shape() && CacheOk() && s < c.nSlots && |out[s]| <= c.chunkN && !fin[s]
      requires Live(slots[s]) && BooksOk(c, slots[s], delivered[s] + out[s]) && Running(slots[s])
      requires slots[s].cursor >= |slots[s].prompt| && h == FedTokens(slots[s]) && |h| == slots[s].pos
      requires slots[s].outQHead < |slots[s].outQ| ==> |out[s]| == c.chunkN
      requires 2 <= |toks| && slots[s].pos + |toks| <= c.nCtx && slots[s].gen + |toks| <= slots[s].maxGen
      requires Accepted(c.eos, toks, am, k, emitN, eosHit) && slots[s].History() == h + [toks[0]]
      requires forall j :: 0 <= j < |toks| ==> am[j] == Next(c.net, h + toks[..j + 1])
      requires Fed(c.net, dev[s], h + toks[..k], c.nCtx)
      modifies `slots, `out, `fin, `pcache, `lruClock
      ensures Shape() && CacheOk() && |pcache| == |old(pcache)|
      ensures MidOk(c, slots[s], dev[s], delivered[s], out[s], fin[s])
      ensures slots == old(slots)[s := slots[s]] && out == old(out)[s := out[s]] && fin == old(fin)[s := fin[s]]
      ensures SameRequest(old(slots[s]), slots[s]) && slots[s].cursor == old(slots[s].cursor)
      ensures slots[s].active || fin[s]
      ensures slots[s].gen <= LimitIn(c, slots[s].prompt, slots[s].maxGen)
      ensures again ==> Live(slots[s]) && slots[s].gen > old(slots[s].gen)
      ensures EndCached(old(pcache), old(lruClock), pcache, lruClock, slots[s])
    {
      hide Fed, Next, Stream, IsGreedy, IndexOk, MidOk;
      ghost var a := slots[s];
      RoundIsSerial(c, a, toks, am, k, emitN, eosHit);
      slots := slots[s := slots[s].(pos := slots[s].pos + k)];
      EmitAccepted(s, am, emitN);
      RoundPlaced(c, a, slots[s], am, k, emitN, eosHit);
      again := FinishRound(s, eosHit, h + toks[..k]);
    }

    /** A round with a draft in hand: verify, accept, commit, emit, finish. */
    method RunRound(s: nat, toks: seq<Token>) returns (again: bool)
      requires Mid() && s < c.nSlots && Live(slots[s]) && slots[s].cursor >= |slots[s].prompt|
      requires 2 <= |toks| && slots[s].pos + |toks| <= c.nCtx && slots[s].gen + |toks| <= slots[s].maxGen
      requires slots[s].gen > 0 && toks[0] == slots[s].last && |toks| <= c.specK
      modifies `slots, `dev, `out, `fin, `pcache, `lruClock
      ensures Mid() && |pcache| == |old(pcache)|
      ensures slots == old(slots)[s := slots[s]] && out == old(out)[s := out[s]] && fin == old(fin)[s := fin[s]]
      ensures SameRequest(old(slots[s]), slots[s]) && slots[s].cursor == old(slots[s].cursor)
      ensures slots[s].active || fin[s]
      ensures slots[s].gen <= LimitIn(c, slots[s].prompt, slots[s].maxGen)
      ensures again ==> Live(slots[s]) && slots[s].gen > old(slots[s].gen)
      ensures EndCached(old(pcache), old(lruClock), pcache, lruClock, slots[s])
    {
      hide Fed, Next, Stream, IsGreedy, IndexOk, MidOk;
      LiveFacts(c, slots[s], dev[s], delivered[s], out[s], fin[s]);
      PendingExtends(c, slots[s], delivered[s] + out[s]);
      ghost var a, h := slots[s], FedTokens(slots[s]);
      var base := slots[s].pos;
      var am := VerifyRound(s, toks, base, h);
      var k, emitN, eosHit := Accept(toks, am);
      CommitFed(s, toks, k, base, h);
      again := SettleRound(s, toks, am, k, emitN, eosHit, h);
    }

    /** One speculative round for the only live slot; `again` says the loop may go on. */
    method SpecRound(s: nat) returns (again: bool)
      requires Mid() && s < c.nSlots && Live(slots[s]) && slots[s].cursor >= |slots[s].prompt|
      modifies `slots, `dev, `out, `fin, `pcache, `lruClock
      ensures Mid() && |pcache| == |old(pcache)|
      ensures slots == old(slots)[s := slots[s]] && out == old(out)[s := out[s]] && fin == old(fin)[s := fin[s]]
      ensures SameRequest(old(slots[s]), slots[s]) && slots[s].cursor == old(slots[s].cursor)
      ensures slots[s].active || fin[s]
      ensures slots[s].gen <= LimitIn(c, slots[s].prompt, slots[s].maxGen)
      ensures again ==> Live(slots[s]) && slots[s].gen > old(slots[s].gen)
      ensures EndCached(old(pcache), old(lruClock), pcache, lruClock, slots[s])
    {
      hide Fed, Next, Stream, IsGreedy, IndexOk, MidOk, IsDraft;
      LiveFacts(c, slots[s], dev[s], delivered[s], out[s], fin[s]);
      ghost var a, h := slots[s], FedTokens(slots[s]);
      var sl, toks := SpecDraft(c, slots[s]);
      IndexUpdated(c, a, sl, dev[s], delivered[s], out[s], fin[s]);
      slots := slots[s := sl];
      if |toks| < 2 {
        return false;
      }
      DraftHead(c, a, toks);
      again := RunRound(s, toks);
    }

    /** The number of live slots, and the last of them. */
    method CountLive() returns (only: nat, nAct: nat)
      requires Shape()
      ensures nAct == |LiveBelow(slots, |slots|)| && (nAct > 0 ==> only < c.nSlots && Live(slots[only]))
    {
      hide Live, LiveBelow;
      only, nAct := 0, 0;
      NoneLive(slots);
      for s := 0 to c.nSlots
        invariant nAct > 0 ==> only < c.nSlots && Live(slots[only])
        invariant nAct == |LiveBelow(slots, s)|
      {
        LiveCount(slots, s);
        LiveIs(slots[s]);
        if slots[s].active && !slots[s].finPending {
          nAct, only := nAct + 1, s;
        }
      }
    }

    /** Phase 2: rounds run only while exactly one slot is live and decoding. */
    method SpecPhase()
      requires Mid()
      modifies `slots, `dev, `out, `fin, `pcache, `lruClock
      ensures Mid() && Kept(old(pcache), old(lruClock), pcache, lruClock)
      ensures forall s :: 0 <= s < c.nSlots ==> PhaseKeeps(old(slots)[s], slots[s], fin[s])
      ensures forall s :: 0 <= s < c.nSlots && !Live(old(slots)[s]) ==>
                slots[s] == old(slots)[s] && out[s] == old(out)[s] && fin[s] == old(fin)[s]
      ensures !c.specOn || |LiveBelow(old(slots), |old(slots)|)| != 1 ==>
        slots == old(slots) && dev == old(dev) && out == old(out) && fin == old(fin) && pcache == old(pcache)
    {
      hide Fed, Next, Stream, MidOk, Running, Kept, EndCached;
      KeptSelf(pcache, lruClock);
      if !c.specOn {
        return;
      }
      var only, nAct := CountLive();
      if nAct != 1 {
        return;
      }
      var again := true;
      LiveFacts(c, slots[only], dev[only], delivered[only], out[only], fin[only]);
      while again && slots[only].active && !slots[only].finPending
            && slots[only].cursor >= |slots[only].prompt| && |out[only]| < c.chunkN
        invariant Mid() && Kept(old(pcache), old(lruClock), pcache, lruClock)
        invariant slots == old(slots)[only := slots[only]] && out == old(out)[only := out[only]]
        invariant fin == old(fin)[only := fin[only]]
        invariant PhaseKeeps(old(slots)[only], slots[only], fin[only])
        invariant slots[only].gen <= LimitIn(c, slots[only].prompt, slots[only].maxGen)
        decreases again, LimitIn(c, slots[only].prompt, slots[only].maxGen) - slots[only].gen
      {
        ghost var before, clock := pcache, lruClock;
        again := SpecRound(only);
        EndKept(before, clock, pcache, lruClock, slots[only]);
        KeptOn(old(pcache), old(lruClock), before, clock, pcache, lruClock);
      }
    }

    /** Takes queued tokens, oldest first, up to the per-call cap. */
    method PopQueue(sl: Slot) returns (o: seq<Token>, after: Slot)
      requires sl.outQHead <= |sl.outQ|
      ensures after == sl.(outQ := after.outQ, outQHead := after.outQHead) && after.outQHead <= |after.outQ|
      ensures |o| <= c.chunkN && o + after.outQ[after.outQHead..] == sl.outQ[sl.outQHead..]
      ensures after.outQHead < |after.outQ| ==> |o| == c.chunkN
    {
      o := [];
      var head := sl.outQHead;
      while head < |sl.outQ| && |o| < c.chunkN
        invariant |o| <= c.chunkN && sl.outQHead <= head <= |sl.outQ| && o == sl.outQ[sl.outQHead..head]
        decreases |sl.outQ| - head
      {
        o := o + [sl.outQ[head]];
        head := head + 1;
      }
      assert o + sl.outQ[head..] == sl.outQ[sl.outQHead..];
      after := sl.(outQHead := head);
      if head >= |sl.outQ| {
        after := sl.(outQ := [], outQHead := 0);
      }
    }

    /** Phase 1 for one slot: queued tokens first, without GPU work. */
    method DrainSlot(s: nat)
      requires Shape() && s < c.nSlots && slots[s].active && out[s] == [] && !fin[s]
      requires SlotOk(c, slots[s], dev[s], delivered[s])
      modifies `slots, `out, `fin
      ensures Shape() && DrainDone(c, old(slots[s]), slots[s], dev[s], delivered[s], out[s], fin[s])
      ensures slots == old(slots)[s := slots[s]] && out == old(out)[s := out[s]] && fin == old(fin)[s := fin[s]]
    {
      hide Fed, Next, Stream, IsGreedy, IndexOk, Ended, Running, SlotOk;
      DrainingFacts(c, slots[s], dev[s], delivered[s]);
      var o, sl := PopQueue(slots[s]);
      QueueMoved(c, slots[s], delivered[s], sl, delivered[s] + o, dev[s]);
      slots := slots[s := sl];
      out := out[s := o];
      Finish(s);
    }

    /** Phase 1: every active slot drains its queue. */
    method DrainPhase()
      requires Valid()
      requires forall s :: 0 <= s < c.nSlots ==> out[s] == [] && !fin[s]
      modifies `slots, `out, `fin
      ensures Mid()
      ensures forall s :: 0 <= s < c.nSlots ==> PhaseKeeps(old(slots)[s], slots[s], fin[s])
      ensures forall s :: 0 <= s < c.nSlots && !old(slots)[s].active ==> out[s] == [] && !fin[s]
      ensures forall s :: 0 <= s < c.nSlots && Live(old(slots)[s]) ==> Live(slots[s])
      ensures forall s :: 0 <= s < c.nSlots && old(slots)[s].active && !Live(old(slots)[s]) && slots[s].active ==>
                !Live(slots[s]) && |out[s]| == c.chunkN
    {
      hide Fed, Next, Stream, MidOk;
      DrainSlots();
    }

    method DrainSlots()
      requires Valid()
      requires forall s :: 0 <= s < c.nSlots ==> out[s] == [] && !fin[s]
      modifies `slots, `out, `fin
      ensures Shape()
      ensures forall i :: 0 <= i < c.nSlots ==>
        DrainDone(c, old(slots)[i], slots[i], dev[i], delivered[i], out[i], fin[i])
    {
      hide Fed, Next, Stream, MidOk, SlotOk, PhaseKeeps, DrainDone, Live;
      for s := 0 to c.nSlots
        invariant Shape()
        invariant forall i :: s <= i < c.nSlots ==> slots[i] == old(slots)[i] && out[i] == [] && !fin[i]
        invariant forall i :: 0 <= i < s ==> DrainDone(c, old(slots)[i], slots[i], dev[i], delivered[i], out[i], fin[i])
      {
        if slots[s].active {
          DrainSlot(s);
        } else {
          FreeIsMid(c, slots[s], dev[s], delivered[s]);
        }
      }
    }

    method CountActive() returns (count: nat)
      requires Shape()
      ensures count == |ActiveBelow(slots, |slots|)|
    {
      count := 0;
      for s := 0 to c.nSlots
        invariant count == |ActiveBelow(slots, s)|
      {
        assert ActiveBelow(slots, s + 1) == ActiveBelow(slots, s) + (if slots[s].active then {s} else {});
        if slots[s].active {
          count := count + 1;
        }
      }
    }

    /** The three phases of a call. */
    method RunPhases()
      requires Valid()
      requires forall s :: 0 <= s < c.nSlots ==> out[s] == [] && !fin[s]
      modifies `slots, `dev, `out, `fin, `pcache, `lruClock
      ensures Shape() && CacheOk() && Kept(old(pcache), old(lruClock), pcache, lruClock)
      ensures forall s :: 0 <= s < c.nSlots && old(slots)[s].active ==>
                && SameRequest(old(slots)[s], slots[s])
                && Piece(c, old(slots)[s], slots[s], delivered[s] + out[s], out[s], fin[s])
                && SlotOk(c, slots[s], dev[s], delivered[s] + out[s])
      ensures forall s :: 0 <= s < c.nSlots && !old(slots)[s].active ==>
                out[s] == [] && !fin[s] && slots[s] == old(slots)[s]
    {
      hide Fed, Next, Stream, MidOk, Piece, SlotOk, Quota, LeftAfter, PromptLeft, Kept;
      DrainPhase();
      ghost var slots1, fin1 := slots, fin;
      SpecPhase();
      ghost var slots2, fin2, cache, clock := slots, fin, pcache, lruClock;
      SerialPhase();
      KeptOn(old(pcache), old(lruClock), cache, clock, pcache, lruClock);
      forall s | 0 <= s < c.nSlots && old(slots)[s].active
        ensures SameRequest(old(slots)[s], slots[s])
        ensures Piece(c, old(slots)[s], slots[s], delivered[s] + out[s], out[s], fin[s])
        ensures SlotOk(c, slots[s], dev[s], delivered[s] + out[s])
      {
        DrainingFacts(c, old(slots)[s], old(dev[s]), old(delivered)[s]);
        MidIsPiece(c, old(slots)[s], slots1[s], fin1[s], slots2[s], fin2[s], slots[s], fin[s], dev[s], delivered[s],
                   out[s]);
      }
      forall s | 0 <= s < c.nSlots && !old(slots)[s].active
        ensures out[s] == [] && !fin[s] && slots[s] == old(slots)[s]
      {
        assert !Live(slots1[s]) && !Live(slots2[s]);
      }
    }

    /** qk_step_chunk. `count` is the number of slots active at entry.

        Each active slot receives the next piece of its answer, at most `chunkN` tokens. The piece is
        exactly its quota unless the request ends, and the finished bit comes with the last piece. */
    method StepChunk() returns (count: nat)
      requires Valid()
      modifies `slots, `dev, `out, `fin, `pcache, `lruClock, `delivered, `book
      ensures Valid() && Kept(old(pcache), old(lruClock), pcache, lruClock) && |slots| == |delivered| == |fin|
      ensures book == AfterStep(old(book), slots, delivered, fin)
      ensures count == |ActiveBelow(old(slots), c.nSlots)|
      ensures forall s :: 0 <= s < c.nSlots && !old(slots)[s].active ==>
                out[s] == [] && !fin[s] && slots[s] == old(slots)[s] && delivered[s] == old(delivered)[s]
      ensures forall s :: 0 <= s < c.nSlots && old(slots)[s].active ==>
                && SameRequest(old(slots)[s], slots[s]) && delivered[s] == old(delivered)[s] + out[s]
                && Piece(c, old(slots)[s], slots[s], delivered[s], out[s], fin[s])
    {
      hide Fed, Next, Stream, Piece, SlotOk, Balanced, AfterStep, Kept, Aged, EntryOk, SameRequest;
      KeptSelf(pcache, lruClock);
      out := seq(c.nSlots, _ => []);
      fin := seq(c.nSlots, _ => false);
      count := CountActive();
      if count == 0 {
        forall s | 0 <= s < c.nSlots ensures !slots[s].active {
          assert s !in ActiveBelow(slots, c.nSlots);
        }
        StepBalance(c, book, old(slots), slots, delivered, out, fin);
        book := AfterStep(book, slots, delivered, fin);
        return;
      }
      RunPhases();
      KeepBooks(old(slots));
    }

    /** Closes the books of a call. */
    ghost method KeepBooks(before: seq<Slot>)
      requires Shape() && CacheOk() && |before| == c.nSlots && Balanced(book, before)
      requires forall s :: 0 <= s < c.nSlots && before[s].active ==>
        && SameRequest(before[s], slots[s]) && Piece(c, before[s], slots[s], delivered[s] + out[s], out[s], fin[s])
        && SlotOk(c, slots[s], dev[s], delivered[s] + out[s])
      requires forall s :: 0 <= s < c.nSlots && !before[s].active ==>
        out[s] == [] && !fin[s] && slots[s] == before[s]
      modifies `delivered, `book
      ensures Valid() && |slots| == |delivered| == |fin| && book == AfterStep(old(book), slots, delivered, fin)
      ensures forall s :: 0 <= s < c.nSlots ==>
        delivered[s] == if before[s].active then old(delivered)[s] + out[s] else old(delivered)[s]
    {
      hide Fed, Next, Stream, Piece, SlotOk, Balanced, AfterStep, Aged, EntryOk, SameRequest;
      forall s | 0 <= s < c.nSlots && !before[s].active ensures SlotOk(c, slots[s], dev[s], delivered[s]) {
        FreeIsOk(c, slots[s], dev[s], delivered[s]);
      }
      delivered := Booked(before);
      StepBalance(c, book, before, slots, delivered, out, fin);
      book := AfterStep(book, slots, delivered, fin);
    }

    /** Adds this call's pieces to what each request has received. */
    ghost function Booked(before: seq<Slot>): seq<seq<Token>>
      requires Shape() && |before| == c.nSlots
      reads this
    {
      seq(c.nSlots, s requires 0 <= s < c.nSlots reads this requires Shape() && |before| == c.nSlots =>
        if before[s].active then delivered[s] + out[s] else delivered[s])
    }
  }
}
