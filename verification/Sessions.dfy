/** Whole runs of the slot engine, as a client sees them. */
module Sessions {
  import opened Network
  import opened Greedy
  import opened Slots
  import opened Ledgers
  import opened CacheAges
  import opened SlotEngine

  /** Drives one request to its end, whatever the other slots are doing: the pieces add up to
      the greedy answer, and the loop ends. */
  method Generate(e: Engine, s: nat, prompt: seq<Token>, maxGen: nat, snapPrefix: nat)
    returns (rc: int, tokens: seq<Token>)
    requires e.Valid() && Startable(e.c, prompt, maxGen)
    modifies e
    ensures e.Valid()
    ensures rc == 0 ==> prompt != [] && tokens == Answer(e.c, prompt, maxGen)
  {
    hide Answer, Fed, SlotOk;
    tokens := [];
    ghost var start, kept;
    rc, start, kept := e.Start(s, prompt, maxGen, snapPrefix);
    if rc != 0 {
      return;
    }
    AnswerLength(e.c, prompt, maxGen);
    var going := true;
    while going
      invariant e.Valid() && tokens == e.delivered[s]
      invariant going ==> e.slots[s].active && e.slots[s].prompt == prompt && e.slots[s].maxGen == maxGen
      invariant !going ==> tokens == Answer(e.c, prompt, maxGen)
      invariant |tokens| <= LimitIn(e.c, prompt, maxGen)
      decreases going, PromptLeft(e.slots[s]) + LimitIn(e.c, prompt, maxGen) - |tokens|
    {
      ghost var a := e.slots[s];
      var _ := e.StepChunk();
      assert Piece(e.c, a, e.slots[s], e.delivered[s], e.out[s], e.fin[s]);
      tokens := tokens + e.out[s];
      going := !e.fin[s];
    }
  }

  lemma AnswerLength(c: Config, prompt: seq<Token>, maxGen: nat)
    requires prompt != []
    ensures |Answer(c, prompt, maxGen)| <= LimitIn(c, prompt, maxGen)
  {
    StreamIsGreedy(c.net, c.eos, prompt, LimitIn(c, prompt, maxGen));
  }

  /** Any interleaving of starts, cancels and steps over any slots: exactly these calls are made; the reports are the
      requests whose finished bit was raised, each once, in that order; each was delivered exactly its greedy answer;
      every request accepted was reported, or cancelled, or is still in its slot; and a cache entry goes only after as
      many uses of others as there are entries. */
  method Run(e: Engine, ops: seq<Call>) returns (done: seq<Finished>)
    requires e.Valid() && forall s :: 0 <= s < e.c.nSlots ==> !e.slots[s].active
    requires forall i :: 0 <= i < |ops| && ops[i].StartReq? ==>
      Startable(e.c, ops[i].prompt, ops[i].maxGen)
    modifies e
    ensures e.Valid()
    ensures forall i :: 0 <= i < |done| ==>
              done[i].prompt != [] && done[i].tokens == Answer(e.c, done[i].prompt, done[i].maxGen)
    ensures Kept(old(e.pcache), old(e.lruClock), e.pcache, e.lruClock)
    ensures e.book.calls == old(e.book.calls) + ops && e.book.ended == old(e.book.ended) + done
    ensures e.book.begun + old(e.book.dropped)
         == old(e.book.begun) + AskedOf(done) + e.book.dropped + AskedIn(e.slots, |e.slots|)
  {
    hide Answer, Fed, SlotOk, Balanced, AskedOf, AskedIn, Reports, Kept, Aged;
    done := [];
    var n := e.c.nSlots;
    var reqs := seq(n, _ => Finished([], 0, []));
    ghost var book0, slots0, cache0, clock0 := e.book, e.slots, e.pcache, e.lruClock;
    KeptSelf(e.pcache, e.lruClock);
    for i := 0 to |ops|
      invariant e.Valid() && |reqs| == n
      invariant forall s :: 0 <= s < n && e.slots[s].active ==>
        reqs[s] == Finished(e.slots[s].prompt, e.slots[s].maxGen, e.delivered[s])
      invariant forall j :: 0 <= j < |done| ==>
        done[j].prompt != [] && done[j].tokens == Answer(e.c, done[j].prompt, done[j].maxGen)
      invariant Kept(cache0, clock0, e.pcache, e.lruClock)
      invariant e.book.calls == book0.calls + ops[..i] && e.book.ended == book0.ended + done
    {
      assert ops[..i + 1] == ops[..i] + [ops[i]];
      ghost var cache, clock := e.pcache, e.lruClock;
      KeptSelf(cache, clock);
      match ops[i] {
      case StartReq(s, prompt, maxGen, snapPrefix) =>
        var rc;
        ghost var start, kept;
        rc, start, kept := e.Start(s, prompt, maxGen, snapPrefix);
        if rc == 0 {
          reqs := reqs[s := Finished(prompt, maxGen, [])];
        }
      case CancelReq(s) =>
        e.Cancel(s);
      case StepReq =>
        reqs, done := RunStep(e, reqs, done);
      }
      KeptOn(cache0, clock0, cache, clock, e.pcache, e.lruClock);
    }
    assert ops[..|ops|] == ops;
    RunBalance(book0, slots0, e.book, e.slots, done);
  }

  /** The books of a run that began with all slots free. */
  lemma RunBalance(book0: Ledger, slots0: seq<Slot>, book: Ledger, slots: seq<Slot>, done: seq<Finished>)
    requires Balanced(book0, slots0) && (forall s :: 0 <= s < |slots0| ==> !slots0[s].active)
    requires Balanced(book, slots) && book.ended == book0.ended + done
    ensures book.begun + book0.dropped == book0.begun + AskedOf(done) + book.dropped + AskedIn(slots, |slots|)
  {
    hide AskedOf, AskedIn;
    NobodyAsked(slots0, |slots0|);
    AskedOfAppend(book0.ended, done);
    assert AskedOf(book0.ended) + book0.dropped + multiset{} == AskedOf(book0.ended) + book0.dropped;
    var (a, b, x, y, z) := (AskedOf(book0.ended), AskedOf(done), book.dropped, AskedIn(slots, |slots|), book0.dropped);
    assert (a + b + x + y) + z == (a + z) + b + x + y;
  }

  /** One step of a run: pieces are appended to their requests, and each request whose finished bit went up is
      reported, once, in slot order, with everything it was delivered. */
  method RunStep(e: Engine, reqs0: seq<Finished>, done0: seq<Finished>) returns (reqs: seq<Finished>,
                 done: seq<Finished>)
    requires e.Valid() && |reqs0| == e.c.nSlots
    requires forall s :: 0 <= s < e.c.nSlots && e.slots[s].active ==>
      reqs0[s] == Finished(e.slots[s].prompt, e.slots[s].maxGen, e.delivered[s])
    requires forall j :: 0 <= j < |done0| ==>
      done0[j].prompt != [] && done0[j].tokens == Answer(e.c, done0[j].prompt, done0[j].maxGen)
    modifies e
    ensures e.Valid() && |reqs| == e.c.nSlots
    ensures forall s :: 0 <= s < e.c.nSlots && e.slots[s].active ==>
      reqs[s] == Finished(e.slots[s].prompt, e.slots[s].maxGen, e.delivered[s])
    ensures forall j :: 0 <= j < |done| ==>
      done[j].prompt != [] && done[j].tokens == Answer(e.c, done[j].prompt, done[j].maxGen)
    ensures |e.fin| == |e.slots| == |e.delivered| == e.c.nSlots
    ensures done == done0 + Reports(e.slots, e.delivered, e.fin, e.c.nSlots)
    ensures Kept(old(e.pcache), old(e.lruClock), e.pcache, e.lruClock)
    ensures e.book == AfterStep(old(e.book), e.slots, e.delivered, e.fin)
  {
    hide Answer, Fed, SlotOk, Piece, Reports, Kept, Aged;
    ghost var before, was := e.slots, e.delivered;
    var _ := e.StepChunk();
    reqs, done := Record(e.c, reqs0, done0, e.out, e.fin, before, was, e.slots, e.delivered);
  }

  /** The client's side of a call. */
  method Record(c: Config, reqs0: seq<Finished>, done0: seq<Finished>, out: seq<seq<Token>>, fin: seq<bool>,
                ghost before: seq<Slot>, ghost was: seq<seq<Token>>, ghost slots: seq<Slot>,
                ghost delivered: seq<seq<Token>>)
    returns (reqs: seq<Finished>, done: seq<Finished>)
    requires |before| == |was| == |slots| == |delivered| == |out| == |fin| == |reqs0| == c.nSlots
    requires forall s :: 0 <= s < c.nSlots ==> Called(c, before[s], was[s], slots[s], delivered[s], out[s], fin[s])
    requires forall s :: 0 <= s < c.nSlots && before[s].active ==>
      reqs0[s] == Finished(before[s].prompt, before[s].maxGen, was[s])
    requires forall j :: 0 <= j < |done0| ==>
      done0[j].prompt != [] && done0[j].tokens == Answer(c, done0[j].prompt, done0[j].maxGen)
    ensures |reqs| == c.nSlots && done == done0 + Reports(slots, delivered, fin, c.nSlots)
    ensures forall s :: 0 <= s < c.nSlots && slots[s].active ==>
      reqs[s] == Finished(slots[s].prompt, slots[s].maxGen, delivered[s])
    ensures forall j :: 0 <= j < |done| ==>
      done[j].prompt != [] && done[j].tokens == Answer(c, done[j].prompt, done[j].maxGen)
  {
    hide Answer, Piece, Reports, Called;
    reqs, done := reqs0, done0;
    NoReports(slots, delivered, fin);
    for s := 0 to c.nSlots
      invariant |reqs| == c.nSlots && done == done0 + Reports(slots, delivered, fin, s)
      invariant forall i :: s <= i < c.nSlots ==> reqs[i] == reqs0[i]
      invariant forall i :: 0 <= i < s && slots[i].active ==>
        reqs[i] == Finished(slots[i].prompt, slots[i].maxGen, delivered[i])
      invariant forall j :: 0 <= j < |done| ==>
        done[j].prompt != [] && done[j].tokens == Answer(c, done[j].prompt, done[j].maxGen)
    {
      SlotReport(c, before[s], slots[s], was[s], delivered[s], out[s], fin[s], reqs[s]);
      NextReport(slots, delivered, fin, s);
      reqs := reqs[s := reqs[s].(tokens := reqs[s].tokens + out[s])];
      if fin[s] {
        done := done + [reqs[s]];
      }
    }
  }

  /** What a call makes of the record of one slot's request. */
  lemma SlotReport(c: Config, a: Slot, b: Slot, was: seq<Token>, now: seq<Token>, o: seq<Token>, f: bool, req: Finished)
    requires Called(c, a, was, b, now, o, f) && (a.active ==> req == Finished(a.prompt, a.maxGen, was))
    ensures b.active || f ==> req.(tokens := req.tokens + o) == Finished(b.prompt, b.maxGen, now)
    ensures f ==> b.prompt != [] && now == Answer(c, b.prompt, b.maxGen)
  {
    hide Answer;
  }
}
