/** Slots of the split driver, and what a request must hold at each point of a pass. */
module SplitSlots {
  import opened Common
  import opened Network
  import opened Greedy
  import opened Deliveries
  import opened Events
  import opened Wire
  import opened Pipeline
  import opened Requests

  const TOPK: nat := 64

  /** What prepare_generation guarantees of every submitted job. */
  predicate JobOk(d: Setup, j: Job) {
    1 <= |j.prompt| < d.nCtx && 1 <= j.maxGen && |j.prompt| + j.maxGen <= d.nCtx
  }

  /** Whatever prepare_generation accepts can be queued here: every frame of it stays inside the context. */
  lemma PreparedJobOk(d: Setup, prompt: seq<Token>, nVocab: nat, requested: Option<nat>, snapPrefix: nat,
                      greedy: bool, seed: nat)
    ensures var p := PrepareGeneration(prompt, nVocab, d.nCtx, requested);
      p.Ready? ==> JobOk(d, Job(p.prompt, p.maxGen, snapPrefix, greedy, seed, false))
  {
  }

  /** `draws` counts the sampler draws made for the request. */
  datatype Phase =
    | Prefilling(done: nat, reuse: nat, snapAt: nat, snapped: bool, lastId: Option<Token>, cands: seq<Cand>, draws: nat)
    | Decoding(pos: nat, next: Token, draws: nat)

  type Occ = Occupant<Phase>

  // ---- the answer ----

  /** The candidates the model offers after `h`. */
  function Candidates(d: Setup, h: seq<Token>): seq<Cand>
    requires h != []
  {
    d.topk(LastRow(d.net, h), TOPK)
  }

  /** The token that must follow `said`: the model's pick, or what the request's sampler makes of the candidates in
      its next draw. */
  function Choice(d: Setup, j: Job, said: seq<Token>): Token
    requires j.prompt != []
  {
    if j.greedy then Next(d.net, j.prompt + said)
    else d.pick(Candidates(d, j.prompt + said), j.seed, |said|)
  }

  /** Every token said is the one that had to follow. */
  ghost predicate Chosen(d: Setup, j: Job, said: seq<Token>)
    requires j.prompt != []
  {
    forall i :: 0 <= i < |said| ==> said[i] == Choice(d, j, said[..i]) && said[i] != d.eos
  }

  /** The rest of an answer: up to the end token, or to the limit. */
  function AnswerFrom(d: Setup, j: Job, said: seq<Token>): seq<Token>
    requires j.prompt != []
    decreases if |said| < j.maxGen then j.maxGen - |said| else 0
  {
    if |said| >= j.maxGen || Choice(d, j, said) == d.eos then said
    else AnswerFrom(d, j, said + [Choice(d, j, said)])
  }

  /** The answer a request must get, whatever else is served. */
  function SerialAnswer(d: Setup, j: Job): seq<Token>
    requires j.prompt != []
  {
    AnswerFrom(d, j, [])
  }

  lemma ChosenExtend(d: Setup, j: Job, said: seq<Token>, t: Token)
    requires j.prompt != [] && Chosen(d, j, said) && t == Choice(d, j, said) && t != d.eos
    ensures Chosen(d, j, said + [t])
  {
    hide Choice;
    var more := said + [t];
    forall i | 0 <= i < |more| ensures more[i] == Choice(d, j, more[..i]) && more[i] != d.eos {
      assert more[..i] == said[..i];
      assert i == |said| ==> said[..i] == said;
    }
  }

  /** From anything rightly said, the same answer is reached. */
  lemma {:induction false} ChosenReaches(d: Setup, j: Job, said: seq<Token>)
    requires j.prompt != [] && Chosen(d, j, said) && |said| <= j.maxGen
    ensures AnswerFrom(d, j, said) == SerialAnswer(d, j)
    decreases |said|
  {
    hide Choice;
    if said != [] {
      var n := |said| - 1;
      var was := said[..n];
      assert said == was + [said[n]];
      forall i | 0 <= i < n ensures was[i] == Choice(d, j, was[..i]) && was[i] != d.eos {
        assert was[..i] == said[..i] && was[i] == said[i];
      }
      ChosenReaches(d, j, was);
    }
  }

  /** What is rightly said is a prefix of the answer, and all of it exactly when the end token or the limit is next. */
  lemma {:induction false} AnswerGrows(d: Setup, j: Job, said: seq<Token>)
    requires j.prompt != [] && Chosen(d, j, said) && |said| <= j.maxGen
    ensures said <= AnswerFrom(d, j, said) && |AnswerFrom(d, j, said)| <= j.maxGen
    ensures AnswerFrom(d, j, said) == said <==> |said| == j.maxGen || Choice(d, j, said) == d.eos
    ensures Chosen(d, j, AnswerFrom(d, j, said))
    ensures var g := AnswerFrom(d, j, said); |g| == j.maxGen || Choice(d, j, g) == d.eos
    decreases j.maxGen - |said|
  {
    hide Choice, Chosen;
    if |said| < j.maxGen && Choice(d, j, said) != d.eos {
      ChosenExtend(d, j, said, Choice(d, j, said));
      AnswerGrows(d, j, said + [Choice(d, j, said)]);
    }
  }

  lemma NothingChosen(d: Setup, j: Job)
    requires j.prompt != []
    ensures Chosen(d, j, [])
  {
  }

  /** For a sampled request every token of the answer is drawn from the sixty-four candidates the model offers after
      what precedes it, the i-th token in the i-th draw, until the end token is drawn or the limit is reached. */
  lemma SampledAnswer(d: Setup, j: Job, i: nat)
    requires j.prompt != [] && !j.greedy && i <= |SerialAnswer(d, j)|
    ensures var g := SerialAnswer(d, j);
      var h := j.prompt + g[..i];
      var drawn := d.pick(d.topk(Outs(d.net.layers, Embed(d.net, h))[|h| - 1], 64), j.seed, i);
      && |g| <= j.maxGen
      && (if i < |g| then g[i] == drawn && drawn != d.eos else |g| == j.maxGen || drawn == d.eos)
  {
    hide AnswerFrom, Outs, Embed;
    NothingChosen(d, j);
    AnswerGrows(d, j, []);
    var g := SerialAnswer(d, j);
    assert g[..|g|] == g;
    assert i < |g| ==> g[i] == Choice(d, j, g[..i]) && g[i] != d.eos;
  }

  /** For a greedy request the answer is the greedy stream of its prompt. */
  lemma GreedyAnswer(d: Setup, j: Job)
    requires j.prompt != [] && j.greedy
    ensures SerialAnswer(d, j) == Stream(d.net, d.eos, j.prompt, j.maxGen)
  {
    hide Next, Stream;
    NothingChosen(d, j);
    AnswerGrows(d, j, []);
    GreedyIsStream(d.net, d.eos, j.prompt, SerialAnswer(d, j), j.maxGen);
  }

  // ---- an unfinished request ----

  ghost predicate Unfinished(d: Setup, o: Occ) {
    && JobOk(d, o.job) && |o.ch.buf| <= CHANNEL_CAP && !o.st.finished
    && AllTokens(o.Produced()) && o.st.maxGen == o.job.maxGen && o.st.emitted == |o.Said()|
    && Chosen(d, o.job, o.Said())
    && match o.phase
       case Prefilling(done, reuse, snapAt, snapped, _, _, draws) =>
         && draws == 0 && o.Said() == [] && reuse <= done <= |o.job.prompt|
         && (snapAt > 0 ==> d.nSnaps > 0 && reuse < snapAt < |o.job.prompt| && (!snapped ==> done <= snapAt))
       case Decoding(pos, next, draws) =>
         && (!o.job.greedy ==> draws == |o.Said()|) && 1 <= |o.Said()| < o.job.maxGen
         && pos == |o.job.prompt| + |o.Said()| - 1
         && next == o.Said()[|o.Said()| - 1]
  }

  /** The last reply of a prefilling slot has been recorded. */
  ghost predicate Recorded(d: Setup, o: Occ) {
    o.phase.Prefilling? && 0 < o.phase.done <= |o.job.prompt| ==>
      && o.phase.lastId == Some(Next(d.net, o.job.prompt[..o.phase.done]))
      && (o.phase.done == |o.job.prompt| ==>
            o.phase.cands == if o.job.greedy then [] else Candidates(d, o.job.prompt))
  }

  /** Between passes: `h` is what both machines have been fed. */
  ghost predicate Resting(d: Setup, o: Occ, h: seq<Token>) {
    && Unfinished(d, o)
    && match o.phase
       case Prefilling(done, _, snapAt, snapped, _, cands, _) =>
         done < |o.job.prompt| && h == o.job.prompt[..done] && (o.job.greedy ==> cands == [])
         && (snapAt > 0 && !snapped ==> done < snapAt)
       case Decoding(_, _, _) => h == o.job.prompt + o.Said()[..|o.Said()| - 1]
  }

  /** Once its frames of this pass are sent. */
  ghost predicate Flying(d: Setup, o: Occ, h: seq<Token>) {
    && Unfinished(d, o)
    && match o.phase
       case Prefilling(done, reuse, _, _, _, cands, _) =>
         h == o.job.prompt[..done] && reuse < done && (o.job.greedy ==> cands == [])
       case Decoding(_, _, _) => h == o.job.prompt + o.Said()
  }

  /** Once its replies of this pass are in: a decoding slot rests, a prefilling one waits for the barrier. */
  ghost predicate Landed(d: Setup, o: Occ, h: seq<Token>) {
    match o.phase
    case Prefilling(_, _, _, _, _, _, _) => Flying(d, o, h) && Recorded(d, o)
    case Decoding(_, _, _) => Resting(d, o, h)
  }

  /** The reply `r` answers a frame of this slot that ended at prompt position `end` (or fed its next token). */
  ghost predicate Matches(d: Setup, o: Occ, end: nat, r: Reply) {
    match o.phase
    case Prefilling(done, reuse, _, _, _, _, _) =>
      && reuse < end <= done <= |o.job.prompt| && r.ids != []
      && r.ids[|r.ids| - 1] == Next(d.net, o.job.prompt[..end])
      && (o.job.greedy ==> r.cands == [])
      && (end == |o.job.prompt| && !o.job.greedy ==> r.cands == Candidates(d, o.job.prompt))
    case Decoding(_, _, _) =>
      && o.job.prompt != [] && r.ids == [Next(d.net, o.job.prompt + o.Said())]
      && r.cands == if o.job.greedy then [] else Candidates(d, o.job.prompt + o.Said())
  }

  // ---- a finished request ----

  /** All that is left is delivery: tokens, then one Done with the true reason. */
  ghost predicate Complete(d: Setup, o: Occ) {
    && JobOk(d, o.job) && |o.ch.buf| <= CHANNEL_CAP && o.st.finished && o.phase.Decoding?
    && exists reason :: FinishedRight(d, o.job, o.Produced(), reason)
  }

  ghost predicate FinishedRight(d: Setup, j: Job, evs: seq<SlotEvent>, reason: FinishReason)
    requires j.prompt != []
  {
    && Says(evs, Spoken(evs), true, reason) && |Spoken(evs)| <= j.maxGen
    && Spoken(evs) == SerialAnswer(d, j)
    && (reason == Limit <==> |SerialAnswer(d, j)| == j.maxGen)
    && (reason == Eos <==> |SerialAnswer(d, j)| < j.maxGen)
  }

  ghost predicate OccOk(d: Setup, o: Occ, h: seq<Token>) {
    if o.st.finished then Complete(d, o) else Resting(d, o, h)
  }

  /** A registered prefix, and what both machines hold at its index. */
  datatype Entry = Entry(tokens: seq<Token>, lru: nat)

  ghost predicate EntryHolds(d: Setup, e: Option<Entry>, hs: seq<LayerMem>, ws: seq<LayerMem>) {
    e.Some? ==> e.value.tokens != [] && BothHold(d, hs, ws, e.value.tokens)
  }

  ghost predicate StateHolds(d: Setup, so: Option<Occ>, hm: seq<LayerMem>, wm: seq<LayerMem>, h: seq<Token>) {
    so.Some? && !so.value.st.finished ==> BothHold(d, hm, wm, h)
  }

  /** A slot between passes. */
  ghost predicate RestsNow(d: Setup, so: Option<Occ>, hm: seq<LayerMem>, wm: seq<LayerMem>, h: seq<Token>) {
    so.Some? ==> OccOk(d, so.value, h) && StateHolds(d, so, hm, wm, h)
  }

  /** A slot whose frames are sent. */
  ghost predicate FliesNow(d: Setup, so: Option<Occ>, hm: seq<LayerMem>, wm: seq<LayerMem>, h: seq<Token>) {
    so.Some? ==>
      (if so.value.st.finished then Complete(d, so.value) else Flying(d, so.value, h)) && StateHolds(d, so, hm, wm, h)
  }

  /** A slot whose replies are in. */
  ghost predicate AtBarrier(d: Setup, so: Option<Occ>, hm: seq<LayerMem>, wm: seq<LayerMem>, h: seq<Token>) {
    so.Some? ==> Arriving(d, so.value, h, false) && StateHolds(d, so, hm, wm, h)
  }

  // ---- applying one sampled id ----

  /** The end token ends the request; the last token allowed is said first; else one more token is said. */
  predicate Sampled(st: SlotState, id: Token, eos: Token, st1: SlotState, live: bool) {
    && (id == eos ==> st1 == st.(pending := st.pending + [Done(Eos)], finished := true) && !live)
    && (id != eos && st.emitted + 1 >= st.maxGen ==>
          !live && st1 == st.(emitted := st.emitted + 1, finished := true,
                              pending := st.pending + [Tokens([id]), Done(Limit)]))
    && (id != eos && st.emitted + 1 < st.maxGen ==>
          live && st1 == st.(emitted := st.emitted + 1, pending := st.pending + [Tokens([id])]))
  }

  method ApplySample(st: SlotState, id: Token, eos: Token) returns (st1: SlotState, live: bool)
    ensures Sampled(st, id, eos, st1, live)
  {
    if id == eos {
      return st.(pending := st.pending + [Done(Eos)], finished := true), false;
    }
    st1 := st.(emitted := st.emitted + 1, pending := st.pending + [Tokens([id])]);
    if st1.emitted >= st1.maxGen {
      assert st.pending + [Tokens([id])] + [Done(Limit)] == st.pending + [Tokens([id]), Done(Limit)];
      return st1.(pending := st1.pending + [Done(Limit)], finished := true), false;
    }
    return st1, true;
  }

  lemma SpokenDone(evs: seq<SlotEvent>, r: FinishReason)
    ensures Spoken(evs + [Done(r)]) == Spoken(evs)
  {
    SpokenAppend(evs, [Done(r)]);
    assert Spoken([Done(r)]) == [];
  }

  lemma SpokenToken(evs: seq<SlotEvent>, t: Token)
    ensures Spoken(evs + [Tokens([t])]) == Spoken(evs) + [t]
  {
    SpokenAppend(evs, [Tokens([t])]);
    assert Spoken([Tokens([t])]) == [t];
  }

  /** A request ended by its end token. */
  lemma EndedByEos(d: Setup, j: Job, evs: seq<SlotEvent>)
    requires j.prompt != [] && AllTokens(evs) && |Spoken(evs)| < j.maxGen
    requires Chosen(d, j, Spoken(evs)) && Choice(d, j, Spoken(evs)) == d.eos
    ensures FinishedRight(d, j, evs + [Done(Eos)], Eos)
  {
    hide Choice, Chosen, AnswerFrom;
    SpokenDone(evs, Eos);
    SayDone(evs, Spoken(evs), Eos);
    ChosenReaches(d, j, Spoken(evs));
    AnswerGrows(d, j, Spoken(evs));
  }

  /** A request ended by its limit. */
  lemma EndedByLimit(d: Setup, j: Job, evs: seq<SlotEvent>, t: Token)
    requires j.prompt != [] && AllTokens(evs) && |Spoken(evs)| + 1 == j.maxGen
    requires Chosen(d, j, Spoken(evs)) && t == Choice(d, j, Spoken(evs)) && t != d.eos
    ensures FinishedRight(d, j, evs + [Tokens([t]), Done(Limit)], Limit)
  {
    hide Choice, Chosen, AnswerFrom;
    var evs1 := evs + [Tokens([t])];
    assert evs + [Tokens([t]), Done(Limit)] == evs1 + [Done(Limit)];
    SpokenToken(evs, t);
    SpokenDone(evs1, Limit);
    SayDone(evs1, Spoken(evs1), Limit);
    ChosenExtend(d, j, Spoken(evs), t);
    ChosenReaches(d, j, Spoken(evs1));
    AnswerGrows(d, j, Spoken(evs1));
  }

  /** What a sample makes of an unfinished request whose state has absorbed everything said so far. */
  lemma SampleApplied(d: Setup, o: Occ, id: Token, b: Occ, live: bool, h: seq<Token>)
    requires Unfinished(d, o) && |o.Said()| < o.job.maxGen && h == o.job.prompt + o.Said()
    requires id == Choice(d, o.job, o.Said())
    requires b.job == o.job && b.ch == o.ch && b.phase.Decoding? && Sampled(o.st, id, d.eos, b.st, live)
    requires live ==>
      b.phase.pos == |o.job.prompt| + |o.Said()| && b.phase.next == id
      && (!o.job.greedy ==> b.phase.draws == |o.Said()| + 1)
    ensures OccOk(d, b, h) && (live <==> !b.st.finished)
    ensures live ==> b.Said() == o.Said() + [id]
  {
    hide Choice, Chosen, FinishedRight;
    var evs := o.Produced();
    if id == d.eos {
      EndedByEos(d, o.job, evs);
      assert b.Produced() == evs + [Done(Eos)];
    } else if o.st.emitted + 1 >= o.st.maxGen {
      EndedByLimit(d, o.job, evs, id);
      assert b.Produced() == evs + [Tokens([id]), Done(Limit)];
    } else {
      assert b.Produced() == evs + [Tokens([id])];
      SpokenToken(evs, id);
      ChosenExtend(d, o.job, o.Said(), id);
      assert b.Said()[..|b.Said()| - 1] == o.Said();
    }
  }

  /** Delivery moves events between queue, channel and consumer; it neither loses nor reorders any. */
  lemma Delivered(d: Setup, o: Occ, b: Occ, h: seq<Token>)
    requires OccOk(d, o, h) && b == o.(st := b.st, ch := b.ch) && b.st == o.st.(pending := b.st.pending)
    requires b.Produced() == o.Produced() && |b.ch.buf| <= CHANNEL_CAP
    ensures OccOk(d, b, h)
  {
    hide Next, Chosen, Choice, Candidates, FinishedRight;
  }

  // ---- progress ----

  function ChunkCap(shared: bool): nat { if shared then 32 else 128 }

  function Bursts(shared: bool): nat { if shared then 1 else 2 }

  /** What a failure-free pass does to a request that was unfinished before it. */
  ghost predicate PassAdvance(a: Occ, b: Occ, shared: bool) {
    && Continues(a, b)
    && match a.phase
       case Decoding(pos, _, _) =>
         b.st.finished || (b.phase.Decoding? && b.phase.pos == pos + 1 && b.Said() == a.Said() + [b.phase.next])
       case Prefilling(done, _, _, _, _, _, _) =>
         var most := done + if shared then 32 else 256;
         if b.phase.Prefilling? then done < b.phase.done <= most && b.phase.done < |a.job.prompt|
         else |a.job.prompt| <= most && (b.st.finished || (b.phase.pos == |a.job.prompt| && b.Said() == [b.phase.next]))
  }

  /** Prompt left plus generation left. */
  function WorkLeft(o: Occ): nat {
    if o.st.finished then 0
    else
      (if o.phase.Prefilling? && o.phase.done <= |o.job.prompt| then |o.job.prompt| - o.phase.done else 0)
      + (if |o.Said()| <= o.job.maxGen then o.job.maxGen - |o.Said()| else 0)
  }

  /** The progress measure strictly decreases. */
  lemma WorkDecreases(d: Setup, a: Occ, b: Occ, h: seq<Token>, h2: seq<Token>, shared: bool)
    requires Resting(d, a, h) && OccOk(d, b, h2) && PassAdvance(a, b, shared)
    ensures WorkLeft(b) < WorkLeft(a)
  {
    hide Chosen, Choice, Candidates, Complete, Spoken, Continues;
    assert b.job == a.job by {
      SameChannel(a, b);
    }
  }

  lemma WorkRemains(d: Setup, o: Occ, h: seq<Token>)
    requires Resting(d, o, h)
    ensures WorkLeft(o) > 0
  {
    hide Chosen, Choice, Candidates, Complete, Spoken;
  }

  // ---- frames ----

  /** The cursor past a chunk of `n` tokens. */
  function Cut(o: Occ, n: nat): Occ
    requires o.phase.Prefilling?
  {
    o.(phase := o.phase.(done := o.phase.done + n))
  }

  /** The next prefill chunk: up to the boundary while its snapshot is due, else up to the end. */
  function ChunkLength(o: Occ, shared: bool): nat
    requires o.phase.Prefilling? && o.phase.done <= |o.job.prompt|
    requires o.phase.snapAt > 0 && !o.phase.snapped ==> o.phase.done <= o.phase.snapAt <= |o.job.prompt|
  {
    var stop := if o.phase.snapAt > 0 && !o.phase.snapped then o.phase.snapAt else |o.job.prompt|;
    Min(ChunkCap(shared), stop - o.phase.done)
  }

  /** A prefill frame has been sent. */
  lemma ChunkSent(d: Setup, o: Occ, n: nat, r: Reply, b: Occ, h: seq<Token>)
    requires Unfinished(d, o) && o.phase.Prefilling? && 0 < n && o.phase.done + n <= |o.job.prompt|
    requires o.phase.snapAt > 0 && !o.phase.snapped ==> o.phase.done + n <= o.phase.snapAt
    requires o.job.greedy ==> o.phase.cands == []
    requires h == o.job.prompt[..o.phase.done]
    requires b == o.(phase := o.phase.(done := o.phase.done + n))
    requires |r.ids| == n && r.ids[n - 1] == Next(d.net, h + o.job.prompt[o.phase.done..o.phase.done + n][..n])
    requires r.cands == if o.phase.done + n == |o.job.prompt| && !o.job.greedy then Candidates(d, o.job.prompt) else []
    ensures Flying(d, b, h + o.job.prompt[o.phase.done..o.phase.done + n])
    ensures Matches(d, b, b.phase.done, r)
  {
    hide Next, Chosen, Choice, Candidates, Spoken;
    var toks := o.job.prompt[o.phase.done..o.phase.done + n];
    assert toks[..n] == toks;
    assert h + toks == o.job.prompt[..o.phase.done + n];
    assert b.Produced() == o.Produced();
  }

  /** A later chunk of the same slot leaves earlier expectations in place. */
  lemma MatchesKept(d: Setup, o: Occ, b: Occ, end: nat, r: Reply)
    requires Matches(d, o, end, r) && o.phase.Prefilling? && b.phase.Prefilling?
    requires b.job == o.job && b.phase.reuse == o.phase.reuse && o.phase.done <= b.phase.done <= |o.job.prompt|
    ensures Matches(d, b, end, r)
  {
  }

  /** A decode frame has been sent. */
  lemma TokenSent(d: Setup, o: Occ, r: Reply, h: seq<Token>)
    requires Resting(d, o, h) && o.phase.Decoding?
    requires r.ids == [Next(d.net, h + [o.phase.next][..1])]
    requires r.cands == if o.job.greedy then [] else Candidates(d, h + [o.phase.next])
    ensures Flying(d, o, h + [o.phase.next]) && Matches(d, o, 0, r)
  {
    hide Next, Chosen, Choice, Candidates, Spoken;
    assert [o.phase.next][..1] == [o.phase.next];
    var g := o.Said();
    assert g == g[..|g| - 1] + [o.phase.next];
    assert h + [o.phase.next] == o.job.prompt + g;
  }

  /** A prefilling slot keeps the last id, and the candidates if there are any. */
  function WithReply(o: Occ, r: Reply): Occ
    requires o.phase.Prefilling? && r.ids != []
  {
    o.(phase := o.phase.(lastId := Some(r.ids[|r.ids| - 1]),
                         cands := if r.cands != [] then r.cands else o.phase.cands))
  }

  /** A reply to a prefilling slot is recorded. */
  lemma ReplyRecorded(d: Setup, o: Occ, end: nat, r: Reply, b: Occ, h: seq<Token>)
    requires SetupOk(d) && Flying(d, o, h) && o.phase.Prefilling? && Matches(d, o, end, r)
    requires b == WithReply(o, r)
    ensures Flying(d, b, h) && (end == o.phase.done ==> Landed(d, b, h))
  {
    hide Next, Chosen, Choice, Candidates, Spoken;
    CandidatesMany(d, o.job.prompt);
    assert b.Produced() == o.Produced();
  }

  /** What the send phase does to a slot: a prefilling one moves its cursor, never past a boundary
      whose snapshot is still due. */
  ghost predicate SendAdvance(a: Occ, b: Occ, shared: bool) {
    match a.phase
    case Decoding(_, _, _) => b == a
    case Prefilling(done, _, snapAt, snapped, _, _, _) =>
      && b.phase.Prefilling? && b == a.(phase := a.phase.(done := b.phase.done))
      && done < b.phase.done <= done + (if shared then 32 else 256) && b.phase.done <= |a.job.prompt|
      && (snapAt > 0 && !snapped ==> b.phase.done <= snapAt)
  }

  // ---- frames sent and not yet answered ----

  predicate Filling(slots: seq<Option<Occ>>, i: nat) {
    Busy(slots, i) && slots[i].value.phase.Prefilling?
  }

  /** Slot `i` has a frame at or after index `from`. */
  predicate Noted(sent: seq<(nat, nat)>, from: nat, i: nat) {
    exists j :: from <= j < |sent| && sent[j].0 == i
  }

  /** `sent` lists slot and chunk length of each frame, `ends` the prompt position it reached. Frames are in
      slot order; each is answered by the reply at the same index of `rs`; only a prefilling slot has more
      than one, and its last one reached its cursor. */
  ghost predicate Sending(d: Setup, slots: seq<Option<Occ>>, sent: seq<(nat, nat)>, ends: seq<nat>, rs: seq<Reply>) {
    && |sent| == |ends| == |rs|
    && (forall j :: 0 <= j < |sent| ==> Busy(slots, sent[j].0) && Matches(d, slots[sent[j].0].value, ends[j], rs[j]))
    && (forall j, k :: 0 <= j < k < |sent| ==>
          sent[j].0 <= sent[k].0 && (sent[j].0 == sent[k].0 ==> Filling(slots, sent[j].0)))
    && (forall j :: 0 <= j < |sent| && Filling(slots, sent[j].0) && !Noted(sent, j + 1, sent[j].0) ==>
          ends[j] == slots[sent[j].0].value.phase.done)
  }

  lemma BusyIs(slots: seq<Option<Occ>>, s: nat)
    requires Busy(slots, s)
    ensures s < |slots| && slots[s].Some? && !slots[s].value.st.finished
  {
  }

  lemma NothingSent(d: Setup, slots: seq<Option<Occ>>)
    ensures Sending(d, slots, [], [], [])
  {
  }

  lemma SendingLength(d: Setup, slots: seq<Option<Occ>>, sent: seq<(nat, nat)>, ends: seq<nat>, rs: seq<Reply>)
    requires Sending(d, slots, sent, ends, rs)
    ensures |sent| == |ends| == |rs|
  {
  }

  lemma SendingToken(d: Setup, slots: seq<Option<Occ>>, s: nat, sent: seq<(nat, nat)>, ends: seq<nat>, rs: seq<Reply>,
                     r: Reply)
    requires Sending(d, slots, sent, ends, rs) && Busy(slots, s) && slots[s].value.phase.Decoding?
    requires Matches(d, slots[s].value, 0, r) && forall j :: 0 <= j < |sent| ==> sent[j].0 < s
    ensures Sending(d, slots, sent + [(s, 0)], ends + [0], rs + [r])
  {
    hide Matches;
    var sent2 := sent + [(s, 0)];
    forall j | 0 <= j < |sent2| && Filling(slots, sent2[j].0) && !Noted(sent2, j + 1, sent2[j].0)
      ensures (ends + [0])[j] == slots[sent2[j].0].value.phase.done
    {
      NotedKept(sent, (s, 0), j + 1, sent2[j].0);
    }
  }

  lemma NotedKept(sent: seq<(nat, nat)>, x: (nat, nat), from: nat, i: nat)
    ensures Noted(sent, from, i) ==> Noted(sent + [x], from, i)
    ensures Noted(sent + [x], from, i) && x.0 != i ==> Noted(sent, from, i)
    ensures from <= |sent| && x.0 == i ==> Noted(sent + [x], from, i)
  {
    var sent2 := sent + [x];
    if Noted(sent, from, i) {
      var j :| from <= j < |sent| && sent[j].0 == i;
      assert sent2[j].0 == i;
    }
    if from <= |sent| && x.0 == i {
      assert sent2[|sent|].0 == i;
    }
  }

  lemma SendingExtended(d: Setup, before: seq<Option<Occ>>, s: nat, sent: seq<(nat, nat)>, ends: seq<nat>,
                        rs: seq<Reply>,
                        after: seq<Option<Occ>>, n: nat, r: Reply)
    requires Sending(d, before, sent, ends, rs) && Filling(before, s) && forall j :: 0 <= j < |sent| ==> sent[j].0 <= s
    requires before[s].value.phase.done + n <= |before[s].value.job.prompt|
    requires after == before[s := Some(Cut(before[s].value, n))]
    requires Matches(d, after[s].value, after[s].value.phase.done, r)
    ensures Sending(d, after, sent + [(s, n)], ends + [after[s].value.phase.done], rs + [r])
  {
    hide Matches;
    var sent2, ends2, rs2 := sent + [(s, n)], ends + [after[s].value.phase.done], rs + [r];
    forall j | 0 <= j < |sent2|
      ensures Busy(after, sent2[j].0) && Matches(d, after[sent2[j].0].value, ends2[j], rs2[j])
    {
      if j < |sent| && sent[j].0 == s {
        MatchesKept(d, before[s].value, after[s].value, ends[j], rs[j]);
      }
    }
    forall j | 0 <= j < |sent2| && Filling(after, sent2[j].0) && !Noted(sent2, j + 1, sent2[j].0)
      ensures ends2[j] == after[sent2[j].0].value.phase.done
    {
      NotedKept(sent, (s, n), j + 1, sent2[j].0);
    }
  }

  lemma CanSendBounds(d: Setup, o: Occ)
    requires Unfinished(d, o) && o.phase.Prefilling?
    ensures o.phase.reuse <= o.phase.done <= |o.job.prompt|
    ensures o.phase.snapAt > 0 && !o.phase.snapped ==> o.phase.done <= o.phase.snapAt < |o.job.prompt|
  {
  }

  lemma RestingCanSend(d: Setup, o: Occ, h: seq<Token>, shared: bool)
    requires Resting(d, o, h) && o.phase.Prefilling?
    ensures Unfinished(d, o) && h == o.job.prompt[..o.phase.done] && (o.job.greedy ==> o.phase.cands == [])
    ensures o.phase.done <= |o.job.prompt|
    ensures o.phase.snapAt > 0 && !o.phase.snapped ==> o.phase.done <= o.phase.snapAt <= |o.job.prompt|
    ensures ChunkLength(o, shared) > 0
  {
  }

  // ---- the receive phase ----

  /** Slot by slot while replies come in: `rest` lists the frames still unanswered. */
  ghost predicate Arriving(d: Setup, o: Occ, h: seq<Token>, noted: bool) {
    if o.st.finished then Complete(d, o)
    else if noted then Flying(d, o, h)
    else Landed(d, o, h)
  }

  lemma NotedTail(rest: seq<(nat, nat)>, i: nat)
    requires rest != []
    ensures Noted(rest, 0, i) <==> rest[0].0 == i || Noted(rest[1..], 0, i)
  {
    NotedShift(rest, 0, i);
    if Noted(rest, 0, i) && rest[0].0 != i {
      assert Noted(rest, 1, i);
    }
  }

  lemma NotedShift(rest: seq<(nat, nat)>, from: nat, i: nat)
    requires rest != []
    ensures Noted(rest, from + 1, i) <==> Noted(rest[1..], from, i)
  {
    if Noted(rest, from + 1, i) {
      var j :| from + 1 <= j < |rest| && rest[j].0 == i;
      assert rest[1..][j - 1].0 == i;
    }
    if Noted(rest[1..], from, i) {
      var j :| from <= j < |rest[1..]| && rest[1..][j].0 == i;
      assert rest[j + 1].0 == i;
    }
  }

  /** The oldest frame has been answered and its slot updated: a prefilling slot keeps everything the
      remaining frames rely on, and a decoding slot has none left. */
  lemma SendingTail(d: Setup, before: seq<Option<Occ>>, rest: seq<(nat, nat)>, ends: seq<nat>, rs: seq<Reply>,
                    after: seq<Option<Occ>>)
    requires Sending(d, before, rest, ends, rs) && rest != [] && |after| == |before| && rest[0].0 < |before|
    requires after == before[rest[0].0 := after[rest[0].0]]
    requires Filling(before, rest[0].0) ==>
      && Filling(after, rest[0].0) && after[rest[0].0].value.job == before[rest[0].0].value.job
      && after[rest[0].0].value.phase.reuse == before[rest[0].0].value.phase.reuse
      && after[rest[0].0].value.phase.done == before[rest[0].0].value.phase.done <= |before[rest[0].0].value.job.prompt|
    ensures Sending(d, after, rest[1..], ends[1..], rs[1..])
    ensures !Filling(before, rest[0].0) ==> !Noted(rest[1..], 0, rest[0].0)
  {
    hide Matches;
    var s := rest[0].0;
    var tail := rest[1..];
    forall j | 0 <= j < |tail|
      ensures Busy(after, tail[j].0) && Matches(d, after[tail[j].0].value, ends[1..][j], rs[1..][j])
    {
      assert rest[j + 1] == tail[j] && Matches(d, before[tail[j].0].value, ends[j + 1], rs[j + 1]);
      if tail[j].0 == s {
        MatchesKept(d, before[s].value, after[s].value, ends[j + 1], rs[j + 1]);
      }
    }
    forall j | 0 <= j < |tail| && Filling(after, tail[j].0) && !Noted(tail, j + 1, tail[j].0)
      ensures ends[1..][j] == after[tail[j].0].value.phase.done
    {
      assert rest[j + 1] == tail[j];
      NotedShift(rest, j + 1, tail[j].0);
    }
  }

  /** Which slots the receive phase may change, and how. */
  ghost predicate RecvAdvance(a: Occ, b: Occ) {
    && Continues(a, b)
    && match a.phase
       case Decoding(pos, _, _) =>
         b.phase.Decoding? && (b.st.finished || (b.phase.pos == pos + 1 && b.Said() == a.Said() + [b.phase.next]))
       case Prefilling(_, _, _, _, _, _, _) =>
         && b.phase.Prefilling? && !b.st.finished
         && b == a.(phase := a.phase.(lastId := b.phase.lastId, cands := b.phase.cands))
  }

  /** The id a decoding slot takes from its reply. */
  function PickId(d: Setup, o: Occ, cands: seq<Cand>, id: Token): Token {
    if cands == [] then id else d.pick(cands, o.job.seed, o.phase.draws)
  }

  /** What is picked from a right reply is the token that must follow. */
  lemma PickIsChoice(d: Setup, o: Occ, cands: seq<Cand>, id: Token)
    requires SetupOk(d) && o.job.prompt != [] && (!o.job.greedy ==> o.phase.draws == |o.Said()|)
    requires id == Next(d.net, o.job.prompt + o.Said())
    requires cands == if o.job.greedy then [] else Candidates(d, o.job.prompt + o.Said())
    ensures PickId(d, o, cands, id) == Choice(d, o.job, o.Said())
  {
    hide Next, LastRow, Spoken;
  }

  lemma SendingHead(d: Setup, slots: seq<Option<Occ>>, rest: seq<(nat, nat)>, ends: seq<nat>, rs: seq<Reply>)
    requires Sending(d, slots, rest, ends, rs) && rest != []
    ensures Busy(slots, rest[0].0) && |ends| == |rest| == |rs|
  {
  }

  lemma LandFacts(d: Setup, slots: seq<Option<Occ>>, rest: seq<(nat, nat)>, ends: seq<nat>, rs: seq<Reply>,
                  h: seq<Token>)
    requires Sending(d, slots, rest, ends, rs) && rest != []
    requires slots[rest[0].0].Some? ==> Arriving(d, slots[rest[0].0].value, h, Noted(rest, 0, rest[0].0))
    ensures Busy(slots, rest[0].0) && Flying(d, slots[rest[0].0].value, h)
    ensures Matches(d, slots[rest[0].0].value, ends[0], rs[0]) && rs[0].ids != []
    ensures Filling(slots, rest[0].0) && !Noted(rest[1..], 0, rest[0].0) ==>
      ends[0] == slots[rest[0].0].value.phase.done
    ensures Filling(slots, rest[0].0) ==> slots[rest[0].0].value.phase.done <= |slots[rest[0].0].value.job.prompt|
    ensures |slots[rest[0].0].value.ch.buf| <= CHANNEL_CAP
    ensures slots[rest[0].0].value.phase.Decoding? ==> Matches(d, slots[rest[0].0].value, 0, rs[0])
  {
    hide Chosen, Choice, Candidates, Spoken, Next;
    NotedTail(rest, rest[0].0);
  }

  /** A decode reply applied: exactly one token further, or finished. */
  lemma LandToken(d: Setup, o: Occ, r: Reply, id: Token, b: Occ, live: bool, h: seq<Token>)
    requires SetupOk(d) && Flying(d, o, h) && o.phase.Decoding? && Matches(d, o, 0, r)
    requires id == PickId(d, o, r.cands, r.ids[0])
    requires b == o.(st := b.st, phase := Decoding(o.phase.pos + 1, if live then id else o.phase.next,
                                                   if r.cands == [] then o.phase.draws else o.phase.draws + 1))
    requires Sampled(o.st, id, d.eos, b.st, live)
    ensures OccOk(d, b, h) && (live <==> !b.st.finished) && (live ==> b.Said() == o.Said() + [id])
  {
    hide Chosen, Choice, Candidates, Spoken, Next, Resting, Complete, Sampled;
    PickIsChoice(d, o, r.cands, r.ids[0]);
    CandidatesMany(d, o.job.prompt + o.Said());
    SampleApplied(d, o, id, b, live, h);
  }

  lemma CandidatesAre(d: Setup, h: seq<Token>)
    requires h != []
    ensures Candidates(d, h) == d.topk(LastRow(d.net, h), TOPK)
  {
  }

  lemma CandidatesMany(d: Setup, h: seq<Token>)
    requires SetupOk(d) && h != []
    ensures |Candidates(d, h)| == TOPK && Candidates(d, h) != []
  {
    hide LastRow;
  }

  /** After delivery a decoded slot rests, and it has advanced by the sampled token. */
  lemma LandedRest(d: Setup, o: Occ, b: Occ, c: Occ, h: seq<Token>, live: bool)
    requires OccOk(d, c, h) && o.phase.Decoding? && b.phase.Decoding? && b.phase.pos == o.phase.pos + 1
    requires b.job == o.job
    requires Flushed(Some(b), Some(c)) && Continues(o, b)
    requires live <==> !b.st.finished
    requires live ==> b.Said() == o.Said() + [b.phase.next]
    ensures Arriving(d, c, h, false) && RecvAdvance(o, c)
  {
    hide Chosen, Choice, Candidates, Spoken, Next, Complete, Resting;
  }

  lemma NothingNoted(i: nat)
    ensures !Noted([], 0, i)
  {
  }

  // ---- the barrier ----

  /** A fully prefilled slot takes its first token and starts decoding. */
  lemma FirstToken(d: Setup, o: Occ, h: seq<Token>, b: Occ)
    requires SetupOk(d) && Landed(d, o, h) && o.phase.Prefilling? && o.phase.done == |o.job.prompt|
    requires o.phase.lastId.Some? ==> FirstTaken(d, o, b)
    ensures o.phase.lastId.Some? && OccOk(d, b, h)
    ensures !b.st.finished ==> b.Said() == [b.phase.next] && b.phase.pos == |o.job.prompt|
  {
    hide Chosen, Choice, Candidates, Spoken, Next, Resting, Complete, Sampled;
    assert o.job.prompt[..|o.job.prompt|] == o.job.prompt;
    assert o.job.prompt + o.Said() == o.job.prompt;
    var id := PickId(d, o, o.phase.cands, o.phase.lastId.value);
    PickIsChoice(d, o, o.phase.cands, o.phase.lastId.value);
    CandidatesMany(d, o.job.prompt);
    var live :| FirstTakenAs(d, o, b, id, live);
    SampleApplied(d, o, id, b, live, h);
    assert live ==> b.Said() == [] + [id];
  }

  predicate FirstTakenAs(d: Setup, a: Occ, b: Occ, id: Token, live: bool)
    requires a.phase.Prefilling?
  {
    && Sampled(a.st, id, d.eos, b.st, live)
    && b == a.(st := b.st, phase := Decoding(|a.job.prompt|, if live then id else 0,
                                             if a.phase.cands == [] then a.phase.draws else a.phase.draws + 1))
  }

  /** A prefilling slot's last reply has been turned into its first token. */
  ghost predicate FirstTaken(d: Setup, a: Occ, b: Occ)
    requires a.phase.Prefilling? && a.phase.lastId.Some?
  {
    exists live :: FirstTakenAs(d, a, b, PickId(d, a, a.phase.cands, a.phase.lastId.value), live)
  }

  lemma FirstTakenOn(d: Setup, a: Occ, b: Occ)
    requires a.phase.Prefilling? && a.phase.lastId.Some? && FirstTaken(d, a, b)
    ensures Continues(a, b) && b.phase.Decoding?
  {
    hide PickId;
    SampledOn(a, b);
  }

  lemma LandedFacts(d: Setup, o: Occ, h: seq<Token>)
    requires Landed(d, o, h) && o.phase.Prefilling?
    ensures h == o.job.prompt[..o.phase.done] && 0 < o.phase.done <= |o.job.prompt| && h != []
    ensures o.phase.snapAt > 0 && !o.phase.snapped ==> o.phase.done <= o.phase.snapAt < |o.job.prompt| && d.nSnaps > 0
    ensures |o.ch.buf| <= CHANNEL_CAP && !o.st.finished
    ensures o.phase.done == |o.job.prompt| ==> o.phase.lastId.Some?
  {
    hide Chosen, Choice, Candidates, Spoken, Next;
  }

  /** Boundary bookkeeping does not disturb a landed slot; below the end of the prompt it rests again. */
  lemma BoundaryPassed(d: Setup, o: Occ, b: Occ, h: seq<Token>)
    requires Landed(d, o, h) && o.phase.Prefilling?
    requires b.phase.Prefilling? && b == o.(phase := o.phase.(snapped := true, snapAt := b.phase.snapAt))
    requires b.phase.snapAt == o.phase.snapAt || b.phase.snapAt == 0
    ensures Landed(d, b, h)
  {
    hide Chosen, Choice, Candidates, Spoken, Next;
    assert b.Produced() == o.Produced();
  }

  lemma LandedRests(d: Setup, o: Occ, h: seq<Token>)
    requires Landed(d, o, h) && o.phase.Prefilling? && o.phase.done < |o.job.prompt|
    requires o.phase.snapAt > 0 && !o.phase.snapped ==> o.phase.done < o.phase.snapAt
    ensures Resting(d, o, h)
  {
    hide Chosen, Choice, Candidates, Spoken, Next;
  }

  /** A slot part-way through the receive phase: a decoding slot is untouched until its frame is
      answered, and has advanced after that. */
  ghost predicate RecvStep(a: Occ, b: Occ, noted: bool) {
    if a.phase.Decoding? && noted then b == a else RecvAdvance(a, b)
  }

  lemma RecvStepNext(d: Setup, before: seq<Option<Occ>>, rest: seq<(nat, nat)>, ends: seq<nat>, rs: seq<Reply>,
                     i: nat, a: Occ, after: seq<Option<Occ>>)
    requires Sending(d, before, rest, ends, rs) && rest != [] && rest[0].0 < |before| == |after| && i < |after|
    requires after == before[rest[0].0 := after[rest[0].0]] && after[i].Some?
    requires before[i].Some? ==> RecvStep(a, before[i].value, Noted(rest, 0, i))
    requires i == rest[0].0 ==> RecvAdvance(before[i].value, after[i].value)
    ensures RecvStep(a, after[i].value, Noted(rest[1..], 0, i))
  {
    hide Matches, Spoken;
    NotedTail(rest, i);
  }

  lemma OccFacts(d: Setup, o: Occ, h: seq<Token>)
    requires OccOk(d, o, h)
    ensures |o.ch.buf| <= CHANNEL_CAP && JobOk(d, o.job)
  {
    hide Chosen, Choice, Candidates, Spoken, Next;
  }

  predicate SnapshotDue(o: Occ) {
    o.phase.Prefilling? && o.phase.snapAt > 0 && !o.phase.snapped && o.phase.done == o.phase.snapAt
  }

  /** What the barrier does to a slot. */
  ghost predicate BarrierAdvance(a: Occ, b: Occ) {
    && Continues(a, b)
    && match a.phase
       case Decoding(_, _, _) => b == a
       case Prefilling(done, _, _, _, _, _, _) =>
         if b.phase.Prefilling? then b.phase.done == done < |a.job.prompt| && !b.st.finished
         else done == |a.job.prompt| && (b.st.finished || (b.phase.pos == |a.job.prompt| && b.Said() == [b.phase.next]))
  }

  /** A slot whose replies are all in either waits at the barrier or already rests. */
  lemma ArrivedCases(d: Setup, o: Occ, h: seq<Token>)
    requires Arriving(d, o, h, false)
    ensures o.phase.Decoding? ==> OccOk(d, o, h) && BarrierAdvance(o, o)
    ensures o.phase.Prefilling? ==> !o.st.finished && Landed(d, o, h)
  {
    hide Chosen, Choice, Candidates, Spoken, Next, FinishedRight;
  }

  lemma RestingArrived(d: Setup, o: Occ, h: seq<Token>)
    requires OccOk(d, o, h) && o.phase.Decoding?
    ensures Arriving(d, o, h, false)
  {
    hide Chosen, Choice, Candidates, Spoken, Next, Complete, Resting;
  }
}
