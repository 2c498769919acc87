/** Slots of the single-box engine and what their fields must mean. */
module Slots {
  import opened Network
  import opened Greedy

  /** Engine parameters fixed at open. `gramHash` stands for the 64-bit FNV-1a of a token list:
      nothing below relies on which hash it is. `attnBudget` and `qb` only shape query tiles. */
  datatype Config = Config(
    net: Net, nSlots: nat, nCtx: nat, chunkN: nat, maxB: nat, vocab: nat, eos: Token,
    specOn: bool, specL: nat, specK: nat, shareFork: bool, noBatch: bool,
    attnBudget: nat, qb: nat, gramHash: seq<Token> -> nat)

  predicate ConfigOk(c: Config) {
    && 1 <= c.nSlots <= 16 && 64 <= c.nCtx <= 65536 && 1 <= c.chunkN <= 32
    && 2 <= c.specL <= 64 && 2 <= c.specK <= c.maxB && c.qb > 0
  }

  datatype Slot = Slot(
    active: bool, prompt: seq<Token>, genTokens: seq<Token>,
    cursor: nat, pos: nat, gen: nat, maxGen: nat, last: Token,
    outQ: seq<Token>, outQHead: nat, finPending: bool,
    ngram: map<nat, nat>, ngramBuilt: nat)
  {
    function History(): seq<Token> { prompt + genTokens }

    function ResetSpec(): Slot {
      this.(outQ := [], outQHead := 0, finPending := false, ngram := map[], ngramBuilt := 0)
    }
  }

  datatype CacheEntry = CacheEntry(tokens: seq<Token>, snap: seq<LayerMem>, lru: nat, valid: bool)

  /** The engine checks max_gen only after emitting, so a request for zero tokens yields one. */
  function Limit(maxGen: nat): nat { if maxGen == 0 then 1 else maxGen }

  /** A token fed at the last position of the context still yields one more. */
  function Room(c: Config, prompt: seq<Token>): nat {
    if |prompt| <= c.nCtx then c.nCtx - |prompt| + 1 else 1
  }

  /** Generation ends at the request's limit, or when the context is full. */
  function LimitIn(c: Config, prompt: seq<Token>, maxGen: nat): nat {
    if Limit(maxGen) <= Room(c, prompt) then Limit(maxGen) else Room(c, prompt)
  }

  /** A request that fits into the context never meets its end before its own limit. */
  lemma LimitFits(c: Config, prompt: seq<Token>, maxGen: nat)
    requires |prompt| + maxGen <= c.nCtx
    ensures LimitIn(c, prompt, maxGen) == Limit(maxGen)
  {
  }

  /** What a request must deliver. */
  function Answer(c: Config, prompt: seq<Token>, maxGen: nat): seq<Token>
    requires prompt != []
  {
    Stream(c.net, c.eos, prompt, LimitIn(c, prompt, maxGen))
  }

  // ---- the guard of qk_slot_start ----

  const U32: nat := 0x1_0000_0000

  /** What qk_slot_start returns. Its sum of prompt length and max_gen is taken in 32 bits. */
  function StartCode(c: Config, s: nat, busy: bool, prompt: seq<Token>, maxGen: nat): int {
    if s >= c.nSlots then -1
    else if busy then -2
    else if prompt == [] || (|prompt| + maxGen) % U32 > c.nCtx then -3
    else if exists i :: 0 <= i < |prompt| && prompt[i] as int >= c.vocab then -4
    else 0
  }

  /** 32-bit arguments, and not a prompt longer than the context that the wrapped sum would let through: that one
      does not fit into the device buffers. */
  predicate Startable(c: Config, prompt: seq<Token>, maxGen: nat) {
    |prompt| < U32 && maxGen < U32 && (|prompt| <= c.nCtx || (|prompt| + maxGen) % U32 > c.nCtx)
  }

  /** A request is let through if and only if the slot exists and is idle, the prompt is not empty and all its ids are
      in the vocabulary, and prompt and max_gen fit into the context or their sum wraps around to one that does. */
  lemma GuardWraps(c: Config, s: nat, busy: bool, prompt: seq<Token>, maxGen: nat)
    requires ConfigOk(c) && |prompt| < U32 && maxGen < U32
    ensures StartCode(c, s, busy, prompt, maxGen) == 0 <==>
      && s < c.nSlots && !busy && prompt != [] && (forall i :: 0 <= i < |prompt| ==> (prompt[i] as int) < c.vocab)
      && (|prompt| + maxGen <= c.nCtx || 0x1_0000_0000 <= |prompt| + maxGen <= 0x1_0000_0000 + c.nCtx)
  {
    if |prompt| + maxGen >= U32 {
      assert (|prompt| + maxGen) % U32 == |prompt| + maxGen - U32;
    }
  }

  /** Ten tokens and the largest max_gen pass, and are answered up to the end of the context. */
  lemma WrapAccepted(c: Config, prompt: seq<Token>)
    requires ConfigOk(c) && |prompt| == 10 && forall i :: 0 <= i < |prompt| ==> (prompt[i] as int) < c.vocab
    ensures StartCode(c, 0, false, prompt, U32 - 1) == 0 && |prompt| + (U32 - 1) > c.nCtx
    ensures LimitIn(c, prompt, U32 - 1) == c.nCtx - 9
  {
    GuardWraps(c, 0, false, prompt, U32 - 1);
  }

  // ---- the n-gram index ----

  /** The `L` tokens that end just before index `end`. */
  function Gram(hist: seq<Token>, L: nat, end: nat): seq<Token>
    requires L <= end <= |hist|
  {
    hist[end - L..end]
  }

  /** For each hash: present iff some indexed gram has it, and then the greatest such end. */
  predicate IndexOk(hash: seq<Token> -> nat, L: nat, hist: seq<Token>, built: nat, table: map<nat, nat>) {
    && built <= |hist|
    && (forall h <- table :: L <= table[h] < built && hash(Gram(hist, L, table[h])) == h)
    && (forall end :: L <= end < built ==>
          hash(Gram(hist, L, end)) in table && end <= table[hash(Gram(hist, L, end))])
  }

  lemma IndexGrow(hash: seq<Token> -> nat, L: nat, hist: seq<Token>, more: seq<Token>, built: nat, table: map<nat, nat>)
    requires IndexOk(hash, L, hist, built, table)
    ensures IndexOk(hash, L, hist + more, built, table)
  {
    forall end | L <= end <= |hist| ensures Gram(hist + more, L, end) == Gram(hist, L, end) {
    }
  }

  /** The table agrees with a search that scans every indexed position. */
  lemma IndexIsNaiveSearch(hash: seq<Token> -> nat, L: nat, hist: seq<Token>, built: nat, table: map<nat, nat>, h: nat)
    requires IndexOk(hash, L, hist, built, table)
    ensures h in table <==> exists end :: L <= end < built && hash(Gram(hist, L, end)) == h
    ensures h in table ==>
      && L <= table[h] < built && hash(Gram(hist, L, table[h])) == h
      && forall end :: table[h] < end < built ==> hash(Gram(hist, L, end)) != h
  {
    if h in table {
      assert L <= table[h] < built && hash(Gram(hist, L, table[h])) == h;
    }
  }

  /** The boundary lies at least sixteen tokens past what was restored, and before the prompt's last token. */
  predicate BoundaryDue(c: Config, start: nat, snapPrefix: nat, n: nat) {
    c.shareFork && !c.noBatch && start + 16 <= snapPrefix && snapPrefix + 1 < n
  }

  // ---- slot invariants ----

  /** Bookkeeping that does not mention device state. `sent` is everything delivered so far. */
  predicate BooksOk(c: Config, sl: Slot, sent: seq<Token>) {
    && sl.prompt != [] && |sl.prompt| <= c.nCtx
    && sl.gen == |sl.genTokens| <= LimitIn(c, sl.prompt, sl.maxGen)
    && sl.outQHead <= |sl.outQ| && sent + sl.outQ[sl.outQHead..] == sl.genTokens
    && IsGreedy(c.net, c.eos, sl.prompt, sl.genTokens)
    && IndexOk(c.gramHash, c.specL, sl.History(), sl.ngramBuilt, sl.ngram)
  }

  lemma BooksQueue(c: Config, sl: Slot, sent: seq<Token>)
    requires BooksOk(c, sl, sent)
    ensures sl.outQHead <= |sl.outQ|
  {
  }

  /** Cursors of a slot that still needs GPU work. */
  predicate Running(sl: Slot) {
    if sl.cursor < |sl.prompt| then sl.genTokens == [] && sl.gen == 0
    else
      && sl.cursor == |sl.prompt| && 1 <= sl.gen == |sl.genTokens|
      && sl.last == sl.genTokens[sl.gen - 1] && sl.pos == |sl.prompt| + sl.gen - 1
  }

  /** Generation may go on. */
  predicate Within(c: Config, sl: Slot) {
    sl.gen < LimitIn(c, sl.prompt, sl.maxGen)
  }

  /** The tokens the slot's state has absorbed. */
  function FedTokens(sl: Slot): seq<Token>
    requires Running(sl)
  {
    if sl.cursor < |sl.prompt| then sl.prompt[..sl.cursor]
    else sl.prompt + sl.genTokens[..sl.gen - 1]
  }

  /** The token the next step feeds. */
  function Pending(sl: Slot): Token
    requires Running(sl)
  {
    if sl.cursor < |sl.prompt| then sl.prompt[sl.cursor] else sl.last
  }

  /** The invariant of an active slot: KV rows past the fed tokens are unconstrained, and a
      draining slot's device state is not constrained at all. */
  predicate SlotOk(c: Config, sl: Slot, mem: seq<LayerMem>, sent: seq<Token>) {
    sl.active ==>
      && BooksOk(c, sl, sent)
      && (if sl.finPending then
            && sl.cursor == |sl.prompt|
            && Ended(c.net, c.eos, sl.prompt, sl.genTokens, LimitIn(c, sl.prompt, sl.maxGen))
          else Running(sl) && Within(c, sl) && Fed(c.net, mem, FedTokens(sl), c.nCtx))
  }

  /** An entry's snapshot is the state after exactly its key. */
  predicate EntryOk(c: Config, e: CacheEntry) {
    Shaped(c.net.layers, e.snap, c.nCtx) && (e.valid ==> Fed(c.net, e.snap, e.tokens, c.nCtx))
  }

  lemma PendingExtends(c: Config, sl: Slot, sent: seq<Token>)
    requires BooksOk(c, sl, sent) && Running(sl) && Within(c, sl)
    ensures |FedTokens(sl)| < c.nCtx
    ensures |FedTokens(sl)| == if sl.cursor < |sl.prompt| then sl.cursor else sl.pos
    ensures FedTokens(sl) + [Pending(sl)] ==
      if sl.cursor < |sl.prompt| then sl.prompt[..sl.cursor + 1] else sl.prompt + sl.genTokens
  {
    hide Stream, Next, IsGreedy, IndexOk;
    if sl.cursor >= |sl.prompt| {
      assert sl.genTokens[..sl.gen - 1] + [sl.last] == sl.genTokens;
      AppendLast(sl.prompt, sl.genTokens[..sl.gen - 1], sl.last);
    } else {
      assert sl.prompt[..sl.cursor] + [sl.prompt[sl.cursor]] == sl.prompt[..sl.cursor + 1];
    }
  }

  lemma AppendLast(a: seq<Token>, b: seq<Token>, t: Token)
    ensures a + b + [t] == a + (b + [t])
  {
  }

  /** A finished slot whose queue has drained delivered exactly its answer. */
  lemma DrainedIsAnswer(c: Config, sl: Slot, sent: seq<Token>)
    requires BooksOk(c, sl, sent) && sl.outQHead >= |sl.outQ|
    requires Ended(c.net, c.eos, sl.prompt, sl.genTokens, LimitIn(c, sl.prompt, sl.maxGen))
    ensures sent == Answer(c, sl.prompt, sl.maxGen)
  {
    hide Next, Stream;
    assert sl.outQ[sl.outQHead..] == [];
    GreedyIsStream(c.net, c.eos, sl.prompt, sl.genTokens, LimitIn(c, sl.prompt, sl.maxGen));
  }

  /** Everything delivered so far is a prefix of the answer. */
  lemma SentIsPrefix(c: Config, sl: Slot, sent: seq<Token>)
    requires BooksOk(c, sl, sent)
    ensures sent <= Answer(c, sl.prompt, sl.maxGen)
  {
    hide Next, Stream;
    GreedyIsStream(c.net, c.eos, sl.prompt, sl.genTokens, LimitIn(c, sl.prompt, sl.maxGen));
    assert sent <= sl.genTokens;
  }

  /** The LRU choice: the first empty entry, else one used least recently. */
  predicate IsVictim(es: seq<CacheEntry>, idx: nat) {
    && idx < |es|
    && if es[idx].valid then (forall j :: 0 <= j < |es| ==> es[j].valid && es[idx].lru <= es[j].lru)
       else forall j :: 0 <= j < idx ==> es[j].valid
  }

  /** Entry `idx` has been replaced by one for `key`, the newest. */
  predicate Replaced(before: seq<CacheEntry>, after: seq<CacheEntry>, idx: nat, key: seq<Token>, clock: nat) {
    idx < |before| == |after| && after == before[idx := CacheEntry(key, after[idx].snap, clock, true)]
  }

  /** A snapshot has been taken under `key`, unless that is too short or there are no entries. */
  ghost predicate Cached(before: seq<CacheEntry>, clock0: nat, after: seq<CacheEntry>, clock1: nat, key: seq<Token>) {
    if before == [] || |key| < 8 then after == before && clock1 == clock0
    else clock1 == clock0 + 1 && exists idx: nat :: IsVictim(before, idx) && Replaced(before, after, idx, key, clock1)
  }

  /** A slot that has just stopped generating is cached under the tokens it was fed; while it goes on the cache
      stays as it is. */
  ghost predicate EndCached(before: seq<CacheEntry>, clock0: nat, after: seq<CacheEntry>, clock1: nat, sl: Slot) {
    if Live(sl) then after == before && clock1 == clock0
    else sl.pos <= |sl.History()| && Cached(before, clock0, after, clock1, sl.History()[..sl.pos])
  }

  /** The newest entry is one for `key`. */
  ghost predicate Newest(es: seq<CacheEntry>, clock: nat, key: seq<Token>) {
    exists idx :: 0 <= idx < |es| && es[idx].valid && es[idx].tokens == key && es[idx].lru == clock
  }

  lemma CachedNewest(before: seq<CacheEntry>, clock0: nat, after: seq<CacheEntry>, clock1: nat, key: seq<Token>)
    requires Cached(before, clock0, after, clock1, key) && before != [] && |key| >= 8
    ensures Newest(after, clock1, key)
  {
    var idx: nat :| IsVictim(before, idx) && Replaced(before, after, idx, key, clock1);
    assert after[idx].tokens == key;
  }

  /** The longest prefix that may be restored, or nothing. */
  ghost predicate IsReuse(es: seq<CacheEntry>, prompt: seq<Token>, len: nat) {
    && (len == 0 || exists i :: 0 <= i < |es| && Reusable(es[i], prompt) && |es[i].tokens| == len)
    && forall i :: 0 <= i < |es| && Reusable(es[i], prompt) ==> |es[i].tokens| <= len
  }

  /** An entry a prompt may restore: at least nine tokens and a strict prefix. */
  predicate Reusable(e: CacheEntry, prompt: seq<Token>) {
    e.valid && 8 < |e.tokens| < |prompt| && e.tokens <= prompt
  }

  // ---- inside one stepChunk call ----

  /** A slot in the middle of a call: `o` is what this call has emitted for it, `f` its finished bit.
      Tokens wait in the queue only while the call's share is full, so order is kept. */
  predicate MidOk(c: Config, sl: Slot, mem: seq<LayerMem>, del: seq<Token>, o: seq<Token>, f: bool) {
    && |o| <= c.chunkN
    && SlotOk(c, sl, mem, del + o)
    && (sl.active && sl.outQHead < |sl.outQ| ==> |o| == c.chunkN)
    && (sl.active && sl.finPending ==> sl.outQHead < |sl.outQ|)
    && (f ==> !sl.active && sl.prompt != [] && del + o == Answer(c, sl.prompt, sl.maxGen))
  }

  predicate SameRequest(a: Slot, b: Slot) {
    a.prompt == b.prompt && a.maxGen == b.maxGen
  }

  /** One serial step of a running slot: one prompt token consumed, or one position decoded. */
  predicate AdvancedOne(a: Slot, b: Slot) {
    && SameRequest(a, b)
    && (if a.cursor + 1 < |a.prompt| then b == a.(cursor := a.cursor + 1)
        else b.gen <= a.gen + 1 && (b.active && !b.finPending ==> b.cursor == |a.prompt| && b.gen == a.gen + 1))
  }

  function PromptLeft(sl: Slot): nat {
    if sl.cursor < |sl.prompt| then |sl.prompt| - sl.cursor else 0
  }

  /** What `k` serial steps make of a running slot `a`. */
  predicate StepsTaken(a: Slot, b: Slot, k: nat) {
    && SameRequest(a, b)
    && (a.cursor < |a.prompt| ==> b.gen <= k)
    && (b.active && !b.finPending ==>
          if k < PromptLeft(a) then b.cursor == a.cursor + k && b.gen == a.gen
          else b.cursor == |a.prompt| && b.gen == a.gen + k - (if PromptLeft(a) > 0 then PromptLeft(a) - 1 else 0))
  }

  /** Tokens a call must emit for a slot with `left` prompt tokens to go, unless the request ends first:
      the step that consumes the last prompt token already samples. */
  function Quota(chunk: nat, left: nat): nat {
    if left == 0 then chunk else if left > chunk then 0 else chunk + 1 - left
  }

  function LeftAfter(chunk: nat, left: nat): nat {
    if left > chunk then left - chunk else 0
  }

  /** A call takes exactly `chunk` steps: each of them consumes a prompt token or emits one, and the step that consumes
      the last prompt token does both. */
  lemma QuotaSteps(chunk: nat, left: nat)
    requires chunk > 0
    ensures var read := left - LeftAfter(chunk, left);
      && 0 <= read <= left && (Quota(chunk, left) > 0 ==> read == left)
      && read + Quota(chunk, left) == chunk + (if left > 0 && read == left then 1 else 0)
  {
  }

  lemma StepsTakenOne(a: Slot, b: Slot, d: Slot, k: nat)
    requires Running(a) && Running(b) && b.active && !b.finPending && StepsTaken(a, b, k) && AdvancedOne(b, d)
    ensures StepsTaken(a, d, k + 1)
  {
  }

  /** After a full call, or one that stopped because nobody needed more, the quota is met. */
  lemma QuotaMet(c: Config, a: Slot, del: seq<Token>, o0: seq<Token>, b: Slot, o: seq<Token>, k: nat)
    requires BooksOk(c, a, del + o0) && Running(a) && BooksOk(c, b, del + o) && b.active
    requires StepsTaken(a, b, k) && |o| <= c.chunkN
    requires b.outQHead < |b.outQ| ==> |o| == c.chunkN
    requires b.finPending ==> b.outQHead < |b.outQ| && b.cursor == |b.prompt|
    requires k == c.chunkN > 0 || (k < c.chunkN && (b.finPending || (b.cursor >= |b.prompt| && |o| == c.chunkN)))
    ensures |o| == Quota(c.chunkN, PromptLeft(a)) && PromptLeft(b) == LeftAfter(c.chunkN, PromptLeft(a))
  {
    hide IsGreedy, IndexOk;
    assert |del| + |o0| + (|a.outQ| - a.outQHead) == a.gen;
    assert |del| + |o| + (|b.outQ| - b.outQHead) == b.gen;
  }

  /** Committing one sampled token, wherever it went (caller's buffer or queue), keeps the books. */
  lemma TokenBooked(c: Config, a: Slot, sent: seq<Token>, b: Slot, sent2: seq<Token>, t: Token)
    requires BooksOk(c, a, sent) && Within(c, a)
    requires t == Next(c.net, a.prompt + a.genTokens) && t != c.eos
    requires b == a.(cursor := b.cursor, pos := b.pos, last := b.last, outQ := b.outQ,
                     gen := a.gen + 1, genTokens := a.genTokens + [t])
    requires b.outQHead <= |b.outQ|
    requires sent2 + b.outQ[b.outQHead..] == sent + a.outQ[a.outQHead..] + [t]
    ensures BooksOk(c, b, sent2)
  {
    hide Next;
    GreedyExtend(c.net, c.eos, a.prompt, a.genTokens, t);
    IndexGrow(c.gramHash, c.specL, a.History(), [t], a.ngramBuilt, a.ngram);
    assert b.History() == a.History() + [t];
  }

  /** The slot must be stepped: it is active and generation is not over. */
  predicate Live(sl: Slot) {
    sl.active && !sl.finPending
  }

  lemma LiveIs(sl: Slot)
    ensures Live(sl) <==> sl.active && !sl.finPending
  {
  }

  lemma LiveFacts(c: Config, sl: Slot, mem: seq<LayerMem>, del: seq<Token>, o: seq<Token>, f: bool)
    requires MidOk(c, sl, mem, del, o, f) && Live(sl)
    ensures BooksOk(c, sl, del + o) && Running(sl) && Within(c, sl) && |FedTokens(sl)| < c.nCtx && !f
    ensures Fed(c.net, mem, FedTokens(sl), c.nCtx)
    ensures |FedTokens(sl)| == if sl.cursor < |sl.prompt| then sl.cursor else sl.pos
    ensures |o| <= c.chunkN && (sl.outQHead < |sl.outQ| ==> |o| == c.chunkN)
  {
    hide Fed, IsGreedy, IndexOk, Stream;
    PendingExtends(c, sl, del + o);
  }

  /** A live slot feeds its pending token at the position it has reached; any other slot feeds token 0 at 0. */
  predicate InputOk(c: Config, sl: Slot, t: Token, pos: nat) {
    && pos < c.nCtx
    && (if Live(sl) then Running(sl) && t == Pending(sl) && pos == |FedTokens(sl)| else t == 0 && pos == 0)
  }

  /** Stepping a free or draining slot with token 0 at position 0 harms nothing it promises. */
  lemma IdleUnaffected(c: Config, sl: Slot, mem: seq<LayerMem>, mem2: seq<LayerMem>, del: seq<Token>, o: seq<Token>,
                       f: bool)
    requires MidOk(c, sl, mem, del, o, f) && !Live(sl)
    ensures MidOk(c, sl, mem2, del, o, f)
  {
    hide Fed, Stream, IsGreedy, IndexOk;
  }

  /** After a committed token the slot has either ended, with its state holding all but the new token,
      or is running again with that token pending. */
  lemma TokenPlaced(c: Config, a: Slot, b: Slot, prefilling: bool)
    requires a.gen == |a.genTokens| && Within(c, a) && a.prompt != [] && |a.prompt| <= c.nCtx
    requires a.cursor == |a.prompt| && (prefilling <==> a.gen == 0)
    requires a.pos == |a.prompt| + a.gen - (if prefilling then 0 else 1)
    requires |b.genTokens| == a.gen + 1 && b.genTokens[..a.gen] == a.genTokens && b.last == b.genTokens[a.gen]
    requires SameRequest(a, b) && b.cursor == a.cursor && b.gen == a.gen + 1
    requires b.pos == if prefilling then a.pos else a.pos + 1
    ensures b.pos <= |b.History()| && b.History()[..b.pos] == a.History()
    ensures b.pos >= c.nCtx || b.gen >= b.maxGen ==>
      Ended(c.net, c.eos, b.prompt, b.genTokens, LimitIn(c, b.prompt, b.maxGen))
    ensures !(b.pos >= c.nCtx || b.gen >= b.maxGen) ==> Running(b) && Within(c, b) && FedTokens(b) == a.History()
  {
  }

  // ---- speculative rounds ----

  /** How much of a verified draft may be kept: `k` tokens were rightly fed, `emitN` of the model's
      picks are emitted; they differ only when pick `k-1` is the end token. */
  predicate Accepted(eos: Token, toks: seq<Token>, am: seq<Token>, k: nat, emitN: nat, eosHit: bool) {
    && |am| == |toks| && 1 <= k <= |toks|
    && toks[1..k] == am[..k - 1]
    && (if eosHit then emitN == k - 1 && am[k - 1] == eos else emitN == k)
    && (forall i :: 0 <= i < emitN ==> am[i] != eos)
  }

  /** Draft and picks agree one position further. */
  lemma DraftAgrees(toks: seq<Token>, am: seq<Token>, k: nat)
    requires 1 <= k < |toks| == |am| && toks[1..k] == am[..k - 1] && toks[k] == am[k - 1]
    ensures toks[1..k + 1] == am[..k]
  {
    assert toks[1..k + 1] == toks[1..k] + [toks[k]];
    assert am[..k] == am[..k - 1] + [am[k - 1]];
  }

  lemma DraftCut(toks: seq<Token>, am: seq<Token>, k: nat, i: nat)
    requires i < k <= |toks| == |am| && toks[1..k] == am[..k - 1]
    ensures toks[1..i + 1] == am[..i]
  {
    forall j | 0 <= j < i ensures toks[1..i + 1][j] == am[..i][j] {
      assert toks[1..k][j] == am[..k - 1][j];
    }
  }

  /** Each kept pick is the serial model's choice after everything before it. */
  lemma AcceptedIsSerial(c: Config, h: seq<Token>, toks: seq<Token>, am: seq<Token>, k: nat, i: nat)
    requires |am| == |toks| && 1 <= k <= |toks| && toks[1..k] == am[..k - 1] && i < k
    requires forall j :: 0 <= j < |toks| ==> am[j] == Next(c.net, h + toks[..j + 1])
    ensures am[i] == Next(c.net, h + [toks[0]] + am[..i])
    ensures h + toks[..i + 1] == h + [toks[0]] + am[..i]
  {
    hide Next;
    assert toks[..i + 1] == [toks[0]] + toks[1..k][..i];
    assert am[..k - 1][..i] == am[..i];
    assert h + ([toks[0]] + am[..i]) == h + [toks[0]] + am[..i];
  }

  /** Every emitted pick is the serial choice, and the kept prefix of the draft is the history with the picks
      appended. */
  lemma RoundIsSerial(c: Config, a: Slot, toks: seq<Token>, am: seq<Token>, k: nat, emitN: nat, eosHit: bool)
    requires Running(a) && a.cursor >= |a.prompt| && Accepted(c.eos, toks, am, k, emitN, eosHit)
    requires a.History() == FedTokens(a) + [toks[0]]
    requires forall j :: 0 <= j < |toks| ==> am[j] == Next(c.net, FedTokens(a) + toks[..j + 1])
    ensures forall i :: 0 <= i < emitN ==> am[i] != c.eos && am[i] == Next(c.net, a.History() + am[..i])
    ensures eosHit ==> Next(c.net, a.History() + am[..emitN]) == c.eos
    ensures FedTokens(a) + toks[..k] == a.History() + am[..k - 1]
  {
    hide Next, FedTokens;
    forall i | 0 <= i < k ensures am[i] == Next(c.net, a.History() + am[..i]) {
      AcceptedIsSerial(c, FedTokens(a), toks, am, k, i);
    }
    AcceptedIsSerial(c, FedTokens(a), toks, am, k, k - 1);
  }

  predicate RoundOver(c: Config, b: Slot, eosHit: bool) {
    eosHit || b.gen >= b.maxGen || b.pos >= c.nCtx
  }

  /** Where a round leaves the slot: ended, or running with its last pick pending. */
  lemma RoundPlaced(c: Config, a: Slot, b: Slot, am: seq<Token>, k: nat, emitN: nat, eosHit: bool)
    requires Running(a) && a.cursor >= |a.prompt| && a.prompt != [] && |a.prompt| <= c.nCtx
    requires 1 <= k <= |am| && a.gen + |am| <= a.maxGen && a.pos + |am| <= c.nCtx
    requires emitN == (if eosHit then k - 1 else k)
    requires b == a.(pos := a.pos + k, genTokens := a.genTokens + am[..emitN], gen := a.gen + emitN,
                     last := b.last, outQ := b.outQ, ngram := b.ngram, ngramBuilt := b.ngramBuilt)
    requires emitN > 0 ==> b.last == am[emitN - 1]
    requires eosHit ==> Next(c.net, a.History() + am[..emitN]) == c.eos
    ensures b.pos <= |b.History()| && b.History()[..b.pos] == a.History() + am[..k - 1]
    ensures RoundOver(c, b, eosHit) ==> Ended(c.net, c.eos, b.prompt, b.genTokens, LimitIn(c, b.prompt, b.maxGen))
    ensures !RoundOver(c, b, eosHit) ==> Running(b) && Within(c, b) && FedTokens(b) == a.History() + am[..k - 1]
  {
    hide Next;
    assert b.History() == a.History() + am[..emitN];
    assert am[..emitN][..k - 1] == am[..k - 1];
    if !eosHit {
      assert b.genTokens[..b.gen - 1] == a.genTokens + am[..k - 1];
      assert a.prompt + (a.genTokens + am[..k - 1]) == a.History() + am[..k - 1];
    }
  }

  lemma IndexUpdated(c: Config, a: Slot, b: Slot, mem: seq<LayerMem>, del: seq<Token>, o: seq<Token>, f: bool)
    requires MidOk(c, a, mem, del, o, f) && Live(a)
    requires b == a.(ngram := b.ngram, ngramBuilt := b.ngramBuilt)
    requires IndexOk(c.gramHash, c.specL, a.History(), b.ngramBuilt, b.ngram)
    ensures MidOk(c, b, mem, del, o, f) && BooksOk(c, b, del + o) && FedTokens(b) == FedTokens(a)
  {
    hide Fed, Next, Stream, IsGreedy, IndexOk;
  }

  /** What draining and speculation keep of a slot: its request and its place in the prompt. */
  predicate PhaseKeeps(a: Slot, b: Slot, f: bool) {
    SameRequest(a, b) && b.cursor == a.cursor && (a.active ==> b.active || f) && (!a.active ==> b == a)
  }

  /** What phase 1 makes of one slot `a`: queued tokens went out, and one that still has some used up its share. */
  predicate DrainDone(c: Config, a: Slot, b: Slot, mem: seq<LayerMem>, del: seq<Token>, o: seq<Token>, f: bool) {
    && MidOk(c, b, mem, del, o, f) && PhaseKeeps(a, b, f)
    && (!a.active ==> o == [] && !f) && (Live(a) ==> Live(b))
    && (a.active && !Live(a) && b.active ==> !Live(b) && |o| == c.chunkN)
  }

  lemma FreeIsMid(c: Config, sl: Slot, mem: seq<LayerMem>, del: seq<Token>)
    requires !sl.active
    ensures MidOk(c, sl, mem, del, [], false) && PhaseKeeps(sl, sl, false) && DrainDone(c, sl, sl, mem, del, [], false)
  {
  }

  lemma FreeIsOk(c: Config, sl: Slot, mem: seq<LayerMem>, sent: seq<Token>)
    requires !sl.active
    ensures SlotOk(c, sl, mem, sent)
  {
  }

  /** The slots below `n` that hold a request. */
  function ActiveBelow(slots: seq<Slot>, n: nat): set<nat>
    requires n <= |slots|
  {
    set s: nat | s < n && slots[s].active
  }

  /** The slots below `n` that must be stepped. */
  function LiveBelow(slots: seq<Slot>, n: nat): set<nat>
    requires n <= |slots|
  {
    set s: nat | s < n && Live(slots[s])
  }

  lemma LiveCount(slots: seq<Slot>, n: nat)
    requires n < |slots|
    ensures |LiveBelow(slots, n + 1)| == |LiveBelow(slots, n)| + if Live(slots[n]) then 1 else 0
  {
    hide Live;
    assert LiveBelow(slots, n + 1) == LiveBelow(slots, n) + if Live(slots[n]) then {n} else {};
  }

  lemma NoneLive(slots: seq<Slot>)
    ensures LiveBelow(slots, 0) == {}
  {
  }

  /** What one call delivers to an active slot: `a` before, `b` after, `total` everything delivered so far. */
  predicate Piece(c: Config, a: Slot, b: Slot, total: seq<Token>, o: seq<Token>, f: bool) {
    && a.prompt != [] && |o| <= c.chunkN
    && total <= Answer(c, a.prompt, a.maxGen)
    && (f <==> !b.active)
    && (f ==> total == Answer(c, a.prompt, a.maxGen))
    && (!f ==> |o| == Quota(c.chunkN, PromptLeft(a)) && PromptLeft(b) == LeftAfter(c.chunkN, PromptLeft(a)))
  }

  /** What one slot was before a call and is after it. */
  ghost predicate Called(c: Config, a: Slot, was: seq<Token>, b: Slot, now: seq<Token>, o: seq<Token>, f: bool) {
    if a.active then SameRequest(a, b) && now == was + o && Piece(c, a, b, now, o, f)
    else o == [] && !f && b == a
  }

  /** The three phases of a call, seen by one slot: `s1` after draining, `s2` after speculation, `b` at the end. */
  lemma MidIsPiece(c: Config, a: Slot, s1: Slot, f1: bool, s2: Slot, f2: bool, b: Slot, f: bool,
                   mem: seq<LayerMem>, del: seq<Token>, o: seq<Token>)
    requires a.active && MidOk(c, b, mem, del, o, f)
    requires a.finPending ==> a.cursor == |a.prompt|
    requires PhaseKeeps(a, s1, f1) && PhaseKeeps(s1, s2, f2) && (!Live(s1) ==> s2 == s1 && f2 == f1)
    requires !Live(s2) ==> b == s2 && f == f2
    requires Live(s2) ==>
      && SameRequest(s2, b) && (b.active || f)
      && (b.active ==> |o| == Quota(c.chunkN, PromptLeft(s2)) && PromptLeft(b) == LeftAfter(c.chunkN, PromptLeft(s2)))
    ensures Piece(c, a, b, del + o, o, f) && SlotOk(c, b, mem, del + o) && SameRequest(a, b)
  {
    hide Fed, Next, Stream, IsGreedy, IndexOk, Ended;
    if b.active {
      SentIsPrefix(c, b, del + o);
    }
  }

  lemma DrainingFacts(c: Config, sl: Slot, mem: seq<LayerMem>, sent: seq<Token>)
    requires SlotOk(c, sl, mem, sent) && sl.active
    ensures sl.finPending ==> sl.cursor == |sl.prompt|
    ensures sl.outQHead <= |sl.outQ|
  {
  }

  /** Moving tokens from the queue to the caller changes nothing else. */
  lemma QueueMoved(c: Config, a: Slot, sent: seq<Token>, b: Slot, sent2: seq<Token>, mem: seq<LayerMem>)
    requires SlotOk(c, a, mem, sent) && a.outQHead <= |a.outQ| && b.outQHead <= |b.outQ|
    requires b == a.(outQ := b.outQ, outQHead := b.outQHead)
    requires sent <= sent2 && sent2[|sent|..] + b.outQ[b.outQHead..] == a.outQ[a.outQHead..]
    ensures SlotOk(c, b, mem, sent2)
  {
    hide Fed, Next, Stream, IsGreedy, IndexOk, Ended;
    assert sent2 + b.outQ[b.outQHead..] == sent + (sent2[|sent|..] + b.outQ[b.outQHead..]);
  }
}
