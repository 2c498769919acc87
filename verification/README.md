# Slot engine, split serving and streaming text: a model and its proofs

The server generates text with a hybrid network: DeltaNet layers that carry a small recurrent state per
sequence, and attention layers that keep one K/V row per position. Up to sixteen sequences ("slots") share one
device. This project models the code around the kernels and proves what it promises. Layers are arbitrary
functions: a recurrent layer maps (state, x) to (state, y), an attention layer writes the row of its position and
reads the rows up to it, and the head picks a token. Everything below holds for all such networks.

`dafny verify dfyconfig.toml` checks the project.

## What is modelled

**The slot engine** (`Network`, `Greedy`, `Prefill`, `Slots`, `Ledgers`, `CacheAges`, `Draft`, `SlotEngine`, `Sessions`;
from `src/main.cpp`). A class with the engine's slots, device state, prefix cache and per-call output lists. Its
invariant says that a running slot's state is the fold of exactly the tokens fed to it, that rows past that point
may hold anything, that a draining slot's state may hold anything, that each cache entry's state is that of its
key, and that delivered tokens followed by queued ones are the generated tokens. `StepChunk` and `Sessions.Run`
prove that batching, prefix reuse, speculative rounds with promotion and roll-back, idle-slot overwriting and
queueing are invisible: each request gets the serial greedy stream of its prompt, cut at EOS or limit. The engine
also keeps books of its calls (a ghost field): every request accepted is finished, cancelled or still in its slot.

**Split serving** (`StageEngine`, `Wire`, `Pipeline`, `SplitSlots`, `SplitTables`, `SplitRuns`, `SplitServing`; from
`server/src/split.rs` and the worker loop in `src/main.cpp`). A class with the head machine, the worker machine,
the frames in the pipe, the replies on their way back, the slots and the snapshot registry. The worker may serve
frames at any moment, and which operations fail is an input: any function of their number. One invariant ties
everything together: once the worker has served its inbox it holds its half of every slot's state, `pending` lists
exactly the shapes of the replies still owed, and every registry entry is held by both machines. Each request,
greedy or sampled, gets one answer determined by prompt, limit, seed and mode, whatever else is served beside it.

**The engine thread** (`EngineThread`, `ServerTables`, `Requests`; from `server/src/engine.rs`,
`server/src/http.rs`). A class over the proved engine class: request table, queue, permits and bounded channels.

**Delivery** (`Events`, `Deliveries`), shared by both threads: what is delivered of a request, where requests come from
and where they go. Accounting says that a request is in its slot with all its events, or has been handed over with
all of them, or its consumer is gone. From it both threads get the same two results: a request whose consumer reads
is served to its end with the right events (`Serve`), and with every consumer reading the whole thread runs to its
end with every request served exactly once (`RunOut`).

**Text** (`Strings`, `Stops`, `Parsing`, `Blocks`, `Messages`, `Readings`, `MalformedCalls`, `Utf8`, `BytePairs`, `Tokenizing`,
`Detokenizing`, `StreamedText`, `ChatPrompts`, `PromptReading`; from `server/src/http.rs`, `server/src/anthropic.rs`,
`server/src/tokenizer.rs`). Each incremental component is a class proved against a function that sees the whole text at
once. What those functions mean is said without them: `Readings` reads back what was written as texts, thoughts and
calls, and `PromptReading` reads a rendered prompt back into the conversation it was made of.

**Sampling** and **SnapshotLayout** cover nucleus sampling over exact reals and the layout of a snapshot.

## What was found

- `StreamedText.LosslessIffWhole`: `decode_tokens_lossless` drops every token that is not valid UTF-8 by itself, so
  a character spread over several tokens never reaches the stop detector or the client. It agrees with
  `detokenize` exactly when every token is whole characters.
- `SplitServing.Driver.Pass` and `OrphanReplyMisleads`: when the head's own `stage_run` fails after frames of the
  same pass went to a remote worker, their replies stay in the pipe and `pending` still lists them. Which operations
  fail is an input, and so is the condition: replies are left behind if and only if the worker is remote and the first
  operation of the send phase to fail is the head's, on one of the frames due (`FramesDue`: one per decoding slot, one
  or two chunks per prefilling one) but the first. Afterwards every clause about the link still holds, but the next
  request reads a stale reply and says another one's token, as a concrete run of the driver shows.
- `Stops.CutIndependence`: with several stop strings the result depends on how the text was cut, unless the first
  stop occurs in every other one.
- `MalformedCalls.NothingLostIff` and `StreamingDropsMalformed`: a malformed tool call beside a good one is shown
  when the message is collected and dropped when it is streamed, although both comments say that nothing is
  silently lost. Streaming shows everything exactly when no call was malformed or none was good;
  `ModesAgreeExactly` says when the two modes show the same message: the collected one's last text is trimmed and the
  streamed one's is not, so a generation that ends in a blank always differs by it (`TrailingBlank`).
- `Slots.GuardWraps`: the guard of `qk_slot_start` adds in 32 bits. A request that does not fit passes exactly when
  the sum wraps around to one that does; `prepare_generation` never lets such a request through.

Where a comment and the code differ, the code is modelled: `matchPrefix` needs more than eight tokens though its
comment says at least eight (the split driver's `best_snap` does take eight); a request for zero tokens still yields
one, because the engine checks the limit after emitting; the link's comment says at most two frames are in flight,
but a pass sends one per occupied slot, so the bound is the larger of two and the number of occupied slots.

## Model

| member | source | states |
|---|---|---|
| `Network.BatchLayerPeel` | src/main.cpp:4932-5199 | Writing all K/V rows of a chunk before any query runs changes nothing the first query sees (causality of one layer). |
| `Network.LayerMajorIsTokenMajor` | src/main.cpp:4932-5199 | Running a chunk layer by layer leaves the state and outputs of running it token by token through all layers, for any layers and start state. |
| `Network.RunTokensAppend` | src/main.cpp:5298-5306 | A sequence may be cut into chunks anywhere. |
| `Network.AttentionMeans` | src/main.cpp:4932-5199 | One attention layer, without the step functions: output i is attention of input i over the rows before the chunk and the rows of inputs 0 to i, and the rows left behind are those of every input. |
| `Network.RecurrentMeans` | src/main.cpp:4932-5199 | One recurrent layer, without the step functions: there is a list of states from the start state to the one left behind in which every step starts from the state the step before it left. |
| `Network.TokensCut` | src/main.cpp:6530-6573 | A model cut in two at any layer, the second part fed with the first part's outputs, gives the states and outputs of the whole. |
| `Network.StageRunIsTokenMajor` | src/main.cpp:5292-5307 | Re-chunking a stage's input at any width equals token-major execution. |
| `Network.ChainIsTokenMajor` | src/main.cpp:6530-6573 | Any list of stages, cut at any layers, each re-chunking at its own width, equals token-major execution of the whole model. |
| `Network.HoldsRun` | src/main.cpp:4863-4876 | Continuing from a state that is right below position n (rows past n arbitrary) gives the right longer state and the outputs of a cold run. |
| `Network.HoldsAgree` | src/main.cpp:4700-4727 | A state that differs only in KV rows not yet reached is as good. |
| `Network.OutsCut` | src/main.cpp:6530-6573 | A tail stage fed by the head stage computes the whole model's outputs at every position. |
| `Greedy.GreedyIsStream` | src/main.cpp:4634-4663 | A list of greedy picks within the limit is a prefix of the serial greedy stream, and is all of it exactly when it ended by EOS or limit. |
| `Greedy.StreamIsGreedy` | src/main.cpp:4634-4663 | The stream of the specification is itself greedy and ended. |
| `Greedy.FeedTokens` | src/main.cpp:4676-5290 | Feeding any tokens to a correct state keeps it correct, and every per-position id is the serial model's pick there. |
| `Greedy.FeedOne` | src/main.cpp:4550-4589 | The same for one serial step. |
| `Prefill.PrefillBatch` | src/main.cpp:4676-5290 | The layer-major loop with conv carry, row writes, query tiles and scratch mode commits exactly the token-major result: K/V to the live slot, recurrent state to live or to scratch. |
| `Prefill.RunAttention` | src/main.cpp:4932-5199 | Query tiles of any budget cover every position once, in order, with the causal row range. |
| `Prefill.RunRecurrent` | src/main.cpp:4932-5199 | The scan over a chunk equals the recurrence. |
| `Prefill.RunLayer` | src/main.cpp:4932-5199 | One layer of the batch, committed where its kind and the mode say. |
| `Prefill.LayerReads` | src/main.cpp:4863-4876 | What a layer reads, conv carry included, is exactly what the batch's view shows. |
| `Prefill.SeededView` | src/main.cpp:3507-3513 | After the scratch stripe is seeded, a verify batch reads exactly the live state. |
| `Prefill.PromoteIsCommit` | src/main.cpp:3356-3356 | Promoting the scratch recurrent state over the verified rows is the state after committing the draft. |
| `Prefill.RowsBelowBaseKept` | src/main.cpp:3507-3513 | A verify batch touches KV rows from its base on only: a rejected round leaves the live state at its base intact. |
| `Slots.IndexIsNaiveSearch` | src/main.cpp:4441-4448 | For every hash the n-gram table holds the greatest indexed end of a gram with that hash, and nothing when a scan of all positions finds none. |
| `Slots.IndexGrow` | src/main.cpp:4441-4448 | The table stays right while the history grows. |
| `Slots.PendingExtends` | src/main.cpp:4554-4567 | Fed tokens plus the pending one are the prompt up to the cursor, or prompt and generated tokens; the position is inside the context. |
| `Slots.DrainedIsAnswer` | src/main.cpp:4469-4481 | A finished slot whose queue is empty has delivered exactly its answer. |
| `Slots.SentIsPrefix` | src/main.cpp:4482-4495 | At any time what was delivered is a prefix of the answer. |
| `Slots.TokenBooked` | src/main.cpp:4653-4657 | Emitting a token to the caller or the queue keeps delivered ++ queue == generated. |
| `Slots.TokenPlaced` | src/main.cpp:4644-4662 | After a token the slot has ended with its state holding all but that token, or runs on with it pending. |
| `Slots.IdleUnaffected` | src/main.cpp:4554-4568 | Stepping free or draining slots with token 0 at position 0 harms nothing. |
| `Slots.AcceptedIsSerial` | src/main.cpp:4511-4520 | Every kept pick of a verify round is the serial model's choice after everything before it. |
| `Slots.RoundIsSerial` | src/main.cpp:4511-4535 | What a round emits is what serial decoding would have emitted, and the accepted draft prefix is the history it feeds. |
| `Slots.RoundPlaced` | src/main.cpp:4529-4544 | After a round the slot is ended, or running with its last pick pending. |
| `Slots.QuotaMet` | src/main.cpp:4550-4568 | A full call emits its share for every slot unless the request ended first. |
| `Slots.QuotaSteps` | src/main.cpp:4550-4568 | Prompt tokens read plus tokens emitted are the chunk width, plus one when the prompt ends in this call: the step that reads its last token also emits; and nothing is emitted before the prompt has been read. |
| `Slots.MidIsPiece` | src/main.cpp:4462-4666 | The three phases together deliver one contiguous, capped piece of the answer per slot; the finished bit comes with the last piece only. |
| `Draft.SpecDraft` | src/main.cpp:4428-4457 | There is a proposal exactly when the history is longer than a gram, some earlier gram has the hash of the last one, and width, context and limit allow two tokens. It is the pending token followed by the history after the latest such gram, as long as width, context, limit and history allow. |
| `Draft.BuildIndex` | src/main.cpp:4443-4445 | The index built covers every gram ending before the history's end, so a query never matches itself. |
| `Draft.DraftHead` | src/main.cpp:4452-4452 | A draft starts with the pending token. |
| `SlotEngine.Engine.Feed` | src/main.cpp:4676-5290 | Batch prefill on the live stripe: afterwards the slot holds the longer history; other slots and the cache are untouched. |
| `SlotEngine.Engine.VerifyRound` | src/main.cpp:3507-3513 | The ids are the serial picks after each draft prefix; the live slot still holds its state at the base; the scratch holds the state after the draft. |
| `SlotEngine.Engine.SnapshotSlot` | src/main.cpp:3517-3542 | The LRU victim becomes an entry whose state is that after exactly its key; every other entry stays; too short histories are not cached. |
| `SlotEngine.Engine.MatchPrefix` | src/main.cpp:3545-3559 | The longest reusable entry (valid, a strict prefix, more than eight tokens), or -1 when there is none. |
| `CacheAges.VictimIsOld` | src/main.cpp:3526-3534 | The entry that a snapshot replaces has not been used for as many uses as the cache has entries. |
| `CacheAges.CachedKept` | src/main.cpp:3517-3542 | A snapshot keeps every entry that was used within the last |cache| - 1 uses. |
| `CacheAges.TouchedKept` | src/main.cpp:5455-5463 | So does a restore. |
| `CacheAges.NewestStays` | src/main.cpp:3517-3559 | The newest of n entries is still there after any calls that use the cache fewer than n times. |
| `SlotEngine.Engine.ResetSlot` | src/main.cpp:3416-3431 | Clears one slot. |
| `SlotEngine.Engine.BatchTo` | src/main.cpp:5471-5478 | Batches while at least 16 tokens remain; the slot holds exactly the prompt prefix reached. |
| `SlotEngine.Engine.Resume` | src/main.cpp:5455-5463 | After a restore or a reset the slot holds exactly the first `start` prompt tokens. |
| `SlotEngine.Engine.WarmUp` | src/main.cpp:5471-5498 | The slot holds the prefix reached. When the boundary lies at least 16 past the start and before the last token (sharing and batching on), a snapshot keyed by a prefix ending at most 15 tokens before the boundary replaces the LRU victim; otherwise the cache is as it was. |
| `SlotEngine.Engine.Start` | src/main.cpp:5446-5516 | Return codes as guarded, 32-bit sum included; on success the slot is active with a state that is the fold of its fed prompt prefix, resumed at the longest reusable entry, nothing else moved, and the newest cache entry is the boundary prefix (or, without a boundary, all that was batched). |
| `SlotEngine.Engine.Begin` | src/main.cpp:5454-5515 | The same for an admitted request: what is resumed, what is batched, and what is cached. |
| `SlotEngine.Engine.Seat` | src/main.cpp:5499-5511 | The slot holds the request, nothing generated, its state that of the prompt prefix reached; the request is entered as begun. |
| `Slots.GuardWraps` | src/main.cpp:5447-5452 | A request passes if and only if its slot exists and is idle, its prompt is not empty and inside the vocabulary, and prompt length plus max_gen fits into the context or wraps around 2^32 to a sum that fits. |
| `Slots.WrapAccepted` | src/main.cpp:5451-5451 | Concrete case: ten tokens with the largest max_gen pass; the answer is then cut where the context ends. |
| `Slots.LimitFits` | src/main.cpp:5451-5451 | A request that fits is never cut by the context before its own limit. |
| `SlotEngine.Engine.Cancel` | src/main.cpp:5518-5525 | Frees the slot, enters its request (if it held one) as cancelled, and keeps the invariant; other slots unaffected. |
| `SlotEngine.Engine.Finish` | src/main.cpp:4469-4481 | Raises the finished bit and frees the slot exactly when generation is over and the queue is empty. |
| `SlotEngine.Engine.EmitTok` | src/main.cpp:4482-4485 | Beyond the per-call cap a token waits in the queue; order is kept. |
| `SlotEngine.Engine.Submit` | src/main.cpp:4586-4589 | Every slot below maxZ, idle ones included, is stepped; live slots absorb their pending token and get the serial pick, those above are untouched. |
| `SlotEngine.Engine.PlanStep` | src/main.cpp:4551-4568 | Inputs of one step: pending token at its position for live slots, token 0 at 0 otherwise; maxZ is one past the last live slot; `need` exactly when someone owes work. |
| `SlotEngine.Engine.Consume` | src/main.cpp:4634-4663 | What one sample does to its slot keeps the invariant and advances it by one step. |
| `SlotEngine.Engine.CommitEos` | src/main.cpp:4646-4652 | EOS on prefill or on decode: the request ends, cached under exactly the tokens fed (a decode-step EOS has been fed, a prefill one ends the prompt), and is freed once its queue is empty. |
| `SlotEngine.Engine.CommitToken` | src/main.cpp:4653-4662 | A token is recorded and emitted; at the limit or the end of the context the slot is cached under the tokens fed and finished, and below it the cache is untouched. |
| `SlotEngine.Engine.EndSlot` | src/main.cpp:4647-4661 | Ending a request: the LRU victim becomes an entry keyed by the tokens fed, and the slot is freed exactly when its queue is empty. |
| `SlotEngine.Engine.ConsumeAll` | src/main.cpp:4634-4663 | All live slots take their samples; the others are untouched. |
| `SlotEngine.Engine.RunPhases` | src/main.cpp:4487-4664 | The three phases leave for every slot the piece of its answer that this call owes it. |
| `SlotEngine.Engine.SerialStep` | src/main.cpp:4550-4664 | One serial step advances every live slot by exactly one prompt token or one position. |
| `SlotEngine.Engine.SerialPhase` | src/main.cpp:4550-4664 | At most chunkN steps; afterwards every live slot has its quota. |
| `SlotEngine.Engine.Accept` | src/main.cpp:4512-4520 | k is the longest agreeing prefix, cut after an accepted EOS, whose tokens are not emitted. |
| `SlotEngine.Engine.CommitFed` | src/main.cpp:4521-4528 | Promotion and roll-back re-run leave the same thing: the state after the accepted tokens. |
| `SlotEngine.Engine.EmitAccepted` | src/main.cpp:4530-4535 | The accepted picks are recorded and emitted in order. |
| `SlotEngine.Engine.FinishRound` | src/main.cpp:4539-4544 | On EOS, limit or full context the request ends and is cached under exactly the tokens fed; otherwise it goes on and the cache is untouched. |
| `SlotEngine.Engine.SettleRound` | src/main.cpp:4529-4544 | Once the accepted tokens are in the state, booking the picks leaves the slot ended or running, as serial decoding would. |
| `SlotEngine.Engine.RunRound` | src/main.cpp:4511-4545 | A round with a draft in hand. |
| `SlotEngine.Engine.SpecRound` | src/main.cpp:4506-4545 | A whole speculative round keeps the engine invariant and makes progress. |
| `SlotEngine.Engine.SpecPhase` | src/main.cpp:4501-4547 | Rounds run for a single live decoding slot only: unless exactly one slot is live nothing at all changes, and no other slot is ever touched. |
| `SlotEngine.Engine.PopQueue` | src/main.cpp:4491-4493 | Takes queued tokens oldest first, up to the cap; nothing is lost. |
| `SlotEngine.Engine.DrainSlot` | src/main.cpp:4488-4495 | Queued tokens go out before anything new is generated; the slot is freed if that was all. |
| `SlotEngine.Engine.DrainPhase` | src/main.cpp:4488-4495 | The same for all slots. |
| `SlotEngine.Engine.StepChunk` | src/main.cpp:4462-4666 | Main result: for every slot what has been delivered after the call is still a prefix of the serial greedy answer, at most chunkN tokens come per call, progress is made, and the finished bit rises exactly when the whole answer is out; a cache entry goes only after as many uses of others as there are entries. |
| `SlotEngine.Engine.KeepBooks` | src/main.cpp:5527-5540 | At the end of a call each active slot has its piece added to what it was delivered, the finished ones are entered in the order of their slots, and the invariant holds again. |
| `SlotEngine.Engine.constructor` | src/main.cpp:3566-3569 | A fresh engine satisfies the invariant. |
| `Sessions.Generate` | src/main.cpp:4462-4666 | Driving one request to its end, whatever the other slots do, terminates and yields exactly the greedy stream cut at EOS or limit. |
| `Sessions.Run` | src/main.cpp:5446-5540 | Every interleaving of starts, cancels and steps over all slots: exactly these calls are made; the reports are the requests whose finished bit was raised, each once and in that order, each with exactly its answer; and every request accepted was reported, or cancelled, or is still in its slot. |
| `Sessions.RunStep` | src/main.cpp:5527-5540 | One call inside such a run: the reports added are exactly the requests whose finished bit went up, in slot order, each with all it was delivered. |
| `Sessions.SlotReport` | src/main.cpp:5527-5540 | A piece appended to the client's record keeps it equal to what the engine delivered; at the finished bit it is the answer. |
| `Ledgers.CallBalance` | src/main.cpp:4469-4481 | Through one call no request is lost and none appears: the multiset of requests in slots before it is that in slots after it plus those whose finished bit went up. |
| `Ledgers.StepBalance` | src/main.cpp:5527-5540 | So the books stay balanced: accepted == finished + cancelled + still in a slot. |
| `Ledgers.HeldCount` | src/main.cpp:5527-5540 | In the books a request counts once for every active slot that holds it. |
| `Ledgers.ReportCount` | src/main.cpp:5527-5540 | And once for every report about it. |
| `StageEngine.RunStage` | src/main.cpp:5292-5307 | The chunk loop of a stage equals one run over all positions. |
| `StageEngine.LiveCopyHolds` | src/main.cpp:3435-3486 | A copy bounded to the live token count loses nothing that will ever be read. |
| `StageEngine.MoveState` | src/main.cpp:5432-5444 | The per-layer save and load loop is the specified state move on one machine. |
| `Wire.FrameRoundTrip` | src/main.cpp:6391-6413 | The worker reads back any frame the head writes, whatever follows it. |
| `Wire.StreamRoundTrip` | src/main.cpp:6391-6438 | Both ends agree on every frame boundary for any sequence of frames. |
| `Wire.ReplyRoundTrip` | server/src/split.rs:166-205 | A reply read with its own n and topk is the reply sent. |
| `Wire.RepliesRoundTrip` | server/src/split.rs:166-205 | Reading with the pending list recovers exactly the replies, in order, with nothing left over. |
| `Pipeline.DrainAppend` | src/main.cpp:6391-6438 | A frame appended to the pipe is served after all earlier ones and answered last. |
| `Pipeline.LinkServed` | src/main.cpp:6391-6438 | Serving a frame moves its answer from the future into the pipe; what is owed does not change. |
| `Pipeline.LinkTaken` | server/src/split.rs:166-205 | The oldest answer that has arrived is the oldest owed, and has the oldest pending shape. |
| `Pipeline.LinkSent` | server/src/split.rs:138-161 | A frame sent adds its answer to what is owed, its shape to the pending list, and its effect to where the worker ends up. |
| `Pipeline.LinkOnWire` | server/src/split.rs:138-205 | On the wire: the worker reads the inbox back from its words, and reading the reply words with the pending list gives exactly the replies owed. |
| `Pipeline.FrameIsSerial` | server/src/split.rs:412-443 | One frame through head and worker advances both halves of the state together, and its ids are the serial model's picks. |
| `Pipeline.FrameAnswered` | server/src/split.rs:412-443 | A frame on the link: both machines advance, other slots stay, and the reply holds the serial ids and the candidates of the serial model's last row. |
| `SplitSlots.PreparedJobOk` | server/src/http.rs:338-370 | Whatever prepare_generation accepts meets what the driver requires of its jobs. |
| `SplitSlots.AnswerGrows` | server/src/split.rs:773-878 | What is rightly said (each token the greedy pick, or the sampler's draw number n from the candidates after the first n tokens) is a prefix of the one right answer, and all of it exactly when the end token or the limit is next; the answer is itself rightly said and ended. |
| `SplitSlots.ChosenReaches` | server/src/split.rs:773-878 | From anything rightly said the same answer is reached: it depends on prompt, limit, seed and mode only, not on the schedule. |
| `SplitSlots.GreedyAnswer` | server/src/split.rs:773-878 | For a greedy request that answer is the greedy stream of its prompt. |
| `SplitSlots.SampledAnswer` | server/src/split.rs:773-878 | For a sampled request the i-th token of that answer is what its sampler makes, in the i-th draw, of the 64 candidates the model offers after prompt and earlier tokens; it stops before the end token or at the limit. |
| `SplitSlots.PickIsChoice` | server/src/split.rs:776-788 | What the driver picks from a right reply, with the number of draws it has counted, is the token that must follow. |
| `ServerTables.PreparedAcceptable` | server/src/http.rs:338-370 | Whatever prepare_generation accepts can be queued for the engine thread. |
| `ServerTables.AcceptedStarts` | src/main.cpp:5446-5453 | And the engine starts it: its 32-bit sum does not wrap. |
| `SplitSlots.ApplySample` | server/src/split.rs:361-379 | EOS: Done and stop without emitting; otherwise emit, and Done at the limit; live says whether to feed on. |
| `SplitSlots.SampleApplied` | server/src/split.rs:361-379 | A sample that is the right choice, greedy or drawn, keeps the events of the request a prefix of its answer, and ends it with the right reason. |
| `SplitSlots.EndedByEos` | server/src/split.rs:361-379 | A request ended by its end token has said exactly its answer, greedy or sampled. |
| `SplitSlots.EndedByLimit` | server/src/split.rs:361-379 | So has one ended by its limit. |
| `SplitSlots.Delivered` | server/src/engine.rs:123-140 | Delivery moves events; it neither loses nor reorders any. |
| `SplitSlots.ChunkSent` | server/src/split.rs:722-750 | Sending a chunk moves the cursor past it and nothing else. |
| `SplitSlots.TokenSent` | server/src/split.rs:703-721 | A decode frame is in flight for exactly the pending token; its reply carries the next pick and the candidates after it. |
| `SplitSlots.LandToken` | server/src/split.rs:773-794 | A decode reply moves its slot exactly one token further, or finishes it. |
| `SplitSlots.ReplyRecorded` | server/src/split.rs:795-801 | A reply to a prefilling slot is kept as its latest, with the candidates after the whole prompt at its end. |
| `SplitSlots.BoundaryPassed` | server/src/split.rs:816-837 | Boundary bookkeeping does not disturb a slot: below the end of the prompt it rests again. |
| `SplitTables.AdmittedRests` | server/src/split.rs:550-575 | A freshly admitted request rests at its restored prefix with nothing said. |
| `SplitSlots.FirstToken` | server/src/split.rs:838-878 | A fully prefilled slot takes its first token and starts decoding at the right position. |
| `SplitSlots.WorkDecreases` | server/src/split.rs:683-880 | Prompt left plus generation left strictly decreases in every failure-free pass. |
| `SplitRuns.PassWork` | server/src/split.rs:683-880 | After a failure-free pass every slot that was busy has less work left, counting a freed slot as none, and no slot has more. |
| `SplitTables.SentNext` | server/src/split.rs:695-762 | A slot that sent its frames joins those already out; the others still rest. |
| `SplitTables.LeftBehindIff` | server/src/split.rs:683-762 | Replies are left behind if and only if the worker is remote and the first operation of the send phase to fail is the head's on some frame but the first: a condition on schedule and table before the pass. |
| `SplitTables.SecondChunk` | server/src/split.rs:725-756 | A prefilling slot that is alone sends a second chunk exactly when the first one reaches neither the end nor a due boundary. |
| `SplitTables.SentOn` | server/src/split.rs:695-762 | Frames sent up to the first failure, slot after slot. |
| `SplitTables.SteppedNext` | server/src/split.rs:763-806 | A reply applied to its slot leaves every other slot where it was. |
| `SplitTables.AllPhases` | server/src/split.rs:683-880 | Send, receive and barrier for all slots at once: each busy slot still there has advanced as it should, and every other slot is untouched. |
| `SplitTables.SentAllArrive` | server/src/split.rs:695-762 | After the send phase every busy slot has a frame out and expects exactly the replies owed to it. |
| `SplitRuns.TurnAll` | server/src/split.rs:662-880 | A delivery retry and a pass together: each request advances or is retried, slot by slot. |
| `SplitRuns.NobodySends` | server/src/split.rs:662-682 | When no request was still generating, no frame is due after delivery. |
| `SplitTables.PhasesAdvance` | server/src/split.rs:683-880 | Send, receive and barrier together: one token per decoding slot, 1 to 32 (shared) or 256 (alone) prompt tokens per prefilling slot. |
| `SplitServing.Driver.WorkerStep` | src/main.cpp:6391-6438 | The worker serving a frame at any moment changes nothing the driver can tell apart. |
| `SplitServing.Driver.SendRun` | server/src/split.rs:138-161 | Fails exactly when the environment says so. The frame is in the pipe and its shape last in `pending`, with the worker already serving as it likes; or the link is poisoned and empty. |
| `SplitServing.Driver.RecvIds` | server/src/split.rs:166-205 | The reply consumed is the oldest owed one, read with its own n and topk, however far the worker ran ahead. |
| `SplitServing.Driver.StateOp` | server/src/split.rs:222-249 | Bails exactly when frames are in flight; otherwise moves the worker's half, or fails with the pipe empty. |
| `SplitServing.Driver.HandOn` | server/src/split.rs:422-442 | The downstream half of a frame is committed, on the wire or in the local queue, or a remote link is dead and empty. |
| `SplitServing.Driver.RunFrame` | server/src/split.rs:412-443 | Succeeds exactly when neither the head nor the send fails; then both machines are committed to the longer history and the owed reply holds the serial picks, with the candidates of the last row if asked for. A head failure leaves the link as it was. |
| `SplitServing.Driver.RunHead` | server/src/split.rs:422-428 | The head's half of a frame is its layers run over the embedded tokens; other slots and snapshots stay. |
| `SplitServing.Driver.Poison` | server/src/split.rs:211-214 | A dead link owes nothing and lists nothing; the worker is unknown. |
| `SplitServing.Driver.SendToken` | server/src/split.rs:703-721 | One frame with the pending token at its position. |
| `SplitServing.Driver.SendChunk` | server/src/split.rs:731-750 | One chunk of the prompt at the cursor, which moves past it. |
| `SplitServing.Driver.SendBurst` | server/src/split.rs:725-756 | A chunk of 32 (shared) or 128 tokens, stated as numbers, unless it ends at the prompt's end or at the boundary, which it never crosses; none while waiting there. |
| `SplitServing.Driver.SendSlot` | server/src/split.rs:695-762 | All frames of one busy slot: a token, or one or two chunks stopping at the boundary. They are sent up to the first operation of the schedule that fails, and it is the head's or the link's as the schedule says; if the head's, everything sent before is still owed its own answer. |
| `SplitServing.Driver.SendChunks` | server/src/split.rs:722-756 | The same for the bursts of a prefilling slot. |
| `SplitServing.Driver.SendPhase` | server/src/split.rs:695-762 | Exactly the frames due are sent, in slot order, or exactly those before the first operation of the schedule that fails. On success every busy slot has its frames out; after a head failure what is owed are the answers to the frames sent. Either way every request is still in its slot. |
| `SplitServing.Driver.RecvFrame` | server/src/split.rs:446-462 | Replies come in send order, in remote and local mode alike. |
| `SplitServing.Driver.Land` | server/src/split.rs:767-803 | A reply goes to the slot whose frame it answers; the request there goes on, or was handed over, or its consumer is gone. |
| `SplitServing.Driver.LandDecode` | server/src/split.rs:773-794 | A decoding slot takes the id, or the sampled candidate, of its own frame: one token further or finished; with its consumer there it stays, or is in the log with everything delivered. |
| `SplitServing.Driver.RecvPhase` | server/src/split.rs:763-806 | Fails exactly when a receive fails. Otherwise nothing is owed, every busy slot has taken its own replies, the others kept still, and every request is accounted for. |
| `SplitServing.Driver.FlushAt` | server/src/engine.rs:123-140 | Delivers what fits, in order. The slot is freed exactly by handing the finished request over (it is then in the log), or by a consumer that is gone; what stays either has nothing pending or a full channel. |
| `SplitServing.Driver.PickEntry` | server/src/split.rs:578-592 | The first empty entry, else one least recently used. |
| `SplitServing.Driver.SaveBoth` | server/src/split.rs:818-828 | Succeeds exactly when neither half fails; then head and worker hold the two halves of the same prefix at the entry. |
| `SplitServing.Driver.TakeSnapshot` | server/src/split.rs:816-837 | The registry entry chosen becomes that prefix exactly when nothing fails, and void otherwise; it stays coherent with both machines, and the request goes on. |
| `SplitServing.Driver.TakeFirst` | server/src/split.rs:838-878 | The first token of a prefilled slot is picked from its last recorded reply and said, or ends it. |
| `SplitServing.Driver.StartDecoding` | server/src/split.rs:838-878 | Prefill to decode with the first sampled token; the request goes on, or was handed over, or its consumer is gone. |
| `SplitServing.Driver.BarrierPhase` | server/src/split.rs:809-880 | With the pipe empty, boundary snapshots and transitions leave every slot ready for the next pass; slots that were not prefilling are untouched and every request is accounted for. |
| `SplitServing.Driver.BarrierSlot` | server/src/split.rs:811-879 | One slot at the barrier: a due snapshot is registered unless an operation fails, and a fully prefilled request starts decoding. |
| `SplitServing.Driver.BestSnap` | server/src/split.rs:499-512 | The longest registered strict prefix of at least eight tokens, or none. |
| `SplitServing.Driver.LoadBoth` | server/src/split.rs:530-549 | Succeeds exactly when neither half fails; then both machines hold the restored prefix. |
| `SplitServing.Driver.TryRestore` | server/src/split.rs:530-549 | What is skipped of the prompt is exactly what both machines hold: the longest registered prefix if nothing fails, else possibly nothing. It takes no operation, one, or two, as registry and schedule say. |
| `SplitServing.Driver.AdmitJob` | server/src/split.rs:518-575 | The slot holds this job with nothing produced, at the longest restorable prefix unless the restore fails; the boundary is kept only when it lies ahead. |
| `SplitServing.Driver.AdmitAll` | server/src/split.rs:643-660 | The free slots, in order, hold the first jobs of the queue, fresh and yet to be prefilled; the rest of the queue waits; occupied slots are untouched, the same prefixes stay registered, and the number of operations is a function of registry, queue, table and schedule. |
| `SplitServing.Driver.FlushPhase` | server/src/split.rs:662-681 | Delivery is retried for every slot and every request accounted for; `active` if and only if some slot was still generating. |
| `SplitServing.Driver.ResetInflight` | server/src/split.rs:482-486 | The local queue is emptied; a remote link keeps whatever it still owes. |
| `SplitServing.Driver.FailAll` | server/src/split.rs:881-899 | Exactly the unfinished requests are dropped, the registry is void, finished ones keep draining. |
| `SplitServing.Driver.Pass` | server/src/split.rs:683-899 | Main result: a pass keeps the whole invariant (streams, registry, FIFO). It fails only if an operation failed. Otherwise every busy slot advances by its share, and a request leaves its slot only by being handed over complete or because its consumer is gone; the work left drops in every busy slot. It sends at most max(2, occupied) frames. Replies are left in the pipe if and only if the worker is remote and the first of the send phase's operations to fail, by the schedule, is the head's on one of the frames due but the first; they are then the answers to exactly the frames before it. |
| `SplitServing.Driver.Tick` | server/src/split.rs:623-904 | One loop iteration: arrivals join the queue, the first jobs take the free slots in order, each request is delivered and advanced as in a pass, and all are accounted for; dropped only if an operation failed. A pass is shared exactly when more than one slot is occupied after delivery, and replies are left behind exactly under the condition of `Pass`, counted from the operation at which admission ends. |
| `SplitServing.Driver.Serve` | server/src/split.rs:623-904 | Main result: a request whose consumer reads, while nothing fails and whatever the other consumers and arrivals do, is served to its end: the loop terminates and the consumer has received exactly the right events (its greedy or sampled answer, then one Done with the true reason). |
| `SplitServing.Driver.RunOut` | server/src/split.rs:623-904 | Main result: while nothing fails and every consumer reads, the driver terminates with all slots free and the queue empty, and the requests handed over, each with the right events, are exactly those that were queued or in a slot, each once. |
| `SplitServing.Driver.constructor` | server/src/split.rs:599-621 | A fresh driver satisfies the invariant. |
| `SplitServing.SavedBoth` | server/src/split.rs:816-828 | A snapshot saved on both machines with its own token count is coherent. |
| `SplitServing.LoadedBoth` | server/src/split.rs:530-541 | A restore with the count it was saved with brings back both halves. |
| `SplitServing.OrphanReplyMisleads` | server/src/split.rs:881-899 | Concrete run: a fresh driver with two slots takes two requests in one iteration, in which the head fails on the second one's frame; the third request, prompt [5], is then told 1 (the first one's token) where its answer begins with 2. The driver and what it said are the result. |
| `SplitServing.Driver.AnswerNext` | server/src/split.rs:446-462 | With a reply left behind, the next request to send a frame is answered with it and records it as its own; its own reply is left behind instead. |
| `Events.FlushSlot` | server/src/engine.rs:123-140 | channel ++ pending is unchanged in content and order; reports closed, drained or live. |
| `Events.SayTokens` | server/src/engine.rs:400-406 | Another piece keeps a request saying one token after the other. |
| `Events.SayDone` | server/src/engine.rs:407-415 | Done closes it, once and last. |
| `Events.SpokenAppend` | server/src/engine.rs:400-406 | The tokens said by two lists of events are said one after the other. |
| `ServerTables.PieceSaid` | server/src/engine.rs:392-415 | One engine call's piece, as events, keeps a request saying exactly what the engine delivered; Done is last, unique and carries the true reason. |
| `EngineThread.Server.Submit` | server/src/http.rs:421-448 | Refused exactly when no permit is left; otherwise one permit is held for the job. |
| `EngineThread.Server.AdmitJobs` | server/src/engine.rs:356-390 | The free slots, in order, hold the first queued jobs, fresh, and the engine refuses none, since a table entry is unfinished exactly when the engine slot is active. |
| `EngineThread.Server.AdmitOne` | server/src/engine.rs:361-388 | The oldest queued job is started on a free slot: the engine accepts it and the table entry is that request, fresh. |
| `EngineThread.Server.Deliver` | server/src/engine.rs:416-429 | Delivery under backpressure loses nothing: the request stays with its events in order, or is handed over complete, or its consumer is gone (which cancels an engine slot that still runs). |
| `EngineThread.Server.FlushAll` | server/src/engine.rs:313-329 | Retries all consumers, every request accounted for; `active` if and only if some request was still generating. |
| `EngineThread.Server.SpeakPiece` | server/src/engine.rs:400-415 | The events of the request grow by exactly the engine call's piece: its tokens as one event, then Done with the finished bit. |
| `EngineThread.Server.HandleSlot` | server/src/engine.rs:392-431 | One slot: the piece is added and delivered; the request stays, or is in the log with that piece, or its consumer is gone; who was not generating is untouched. |
| `EngineThread.Server.HandleStep` | server/src/engine.rs:392-431 | After a step every request that was generating has exactly its piece more, in its slot or handed over with it, unless its consumer is gone; all others are untouched. |
| `EngineThread.Server.FailAll` | server/src/engine.rs:334-346 | Exactly the unfinished requests are dropped, their engine slots and permits freed; finished ones drain. |
| `EngineThread.Server.Tick` | server/src/engine.rs:292-353 | One iteration keeps table, engine, permits (held == queued + occupied) and event streams consistent; the first queued jobs take the free slots, each request gets exactly the engine's piece, all are accounted for, and requests are dropped only if the engine call failed. |
| `EngineThread.Server.Serve` | server/src/engine.rs:292-353 | Main result: a request whose consumer reads, while no engine call fails and whatever the other consumers and submissions do, is served to its end: the loop terminates and the consumer has received its whole answer and one Done with the true reason. |
| `EngineThread.Server.RunOut` | server/src/engine.rs:292-353 | Main result: while no engine call fails and every consumer reads, the thread terminates with all slots free, the queue empty and every permit back, and the requests handed over, each complete, are exactly those that were queued or in a slot, each once. |
| `ServerTables.HandledNext` | server/src/engine.rs:392-431 | Handling the table slot by slot. |
| `ServerTables.PieceWork` | server/src/engine.rs:331-333 | An engine call takes work off every request that goes on. |
| `ServerTables.TickWork` | server/src/engine.rs:292-353 | So does an iteration, for the whole table, counting freed slots as none. |
| `ServerTables.OccupiedUpdate` | server/src/engine.rs:356-390 | Filling or emptying one slot changes the number of occupied slots by one, which is the permit count. |
| `Requests.PrepareGeneration` | server/src/http.rs:338-370 | Accepted exactly when non-empty, in vocabulary and shorter than the context, with the reason for each refusal. A request for 1 up to the remaining context gets what it asks for, none or a larger one gets all that remains, a request for 0 gets 1. |
| `Deliveries.AccountedOn` | server/src/engine.rs:123-140 | Accounting composes over steps: a request stays in its slot with its events, or is handed over once with all of them, or its consumer is gone. |
| `Deliveries.AccountedJobs` | server/src/split.rs:623-904 | While every consumer is there, the jobs that left slots are exactly those handed over, as multisets. |
| `Deliveries.AdmittedJobs` | server/src/split.rs:643-660 | Admission moves jobs from the front of the queue into slots: none is lost and none appears. |
| `Deliveries.UnreadDrops` | server/src/engine.rs:123-140 | A finished request whose consumer reads comes nearer to its end with every retry. |
| `Deliveries.OneTurn` | server/src/split.rs:623-904 | One iteration, for a request whose consumer reads: it goes on, or it has been handed over finished. |
| `Deliveries.TotalDrops` | server/src/split.rs:683-899 | The sum of work over all slots drops by at least the number of busy ones. |
| `Deliveries.RunKeeps` | server/src/split.rs:623-904 | An iteration without a failure conserves requests: slots, queue and log hold the same multiset of jobs before and after. |
| `Deliveries.RunProgresses` | server/src/split.rs:623-904 | Such an iteration strictly decreases the total work, or, with nobody busy, the events unread. |
| `Stops.StopDetector.Push` | server/src/http.rs:680-702 | The held text suffices: the stop found, or its absence, and the text left are those of a search over everything received; no more is held back than the longest stop needs. |
| `Stops.StopDetector.TakeReady` | server/src/http.rs:704-706 | Hands the released text over once. |
| `Stops.Search` | server/src/http.rs:682-688 | The first stop in list order that occurs, at its first occurrence. |
| `Stops.GoneIsClean` | server/src/http.rs:690-701 | No occurrence starts in text that was let go. |
| `Stops.HeldFirst` | server/src/http.rs:680-702 | Searching the held text settles on the same stop, at the same place, as searching all of it. |
| `Stops.DetectMeaning` | server/src/http.rs:680-712 | For every cutting: a hit if and only if some stop occurs in the whole text, and the content is the text before the first occurrence of the stop reported. |
| `Stops.FirstWins` | server/src/http.rs:680-702 | If the first stop occurs in all the others, it is the one reported, at its first occurrence, whatever the cutting. |
| `Stops.LaterStopSeenFirst` | server/src/http.rs:680-702 | Otherwise two cuttings of one text differ. |
| `Stops.CutIndependence` | server/src/http.rs:661-712 | The outcome is independent of how the text is cut if and only if there are no stops or the first one occurs in every other. |
| `Stops.OneStopIsEnough` | server/src/http.rs:661-712 | A single stop string is always cut-independent. |
| `Parsing.HoldbackLen` | server/src/anthropic.rs:601-618 | The longest suffix that a tag could still grow from is held back, and no longer one. |
| `Parsing.TagsApart` | server/src/anthropic.rs:523-531 | Two opening tags never overlap. |
| `Parsing.MarkStable` | server/src/anthropic.rs:523-531 | The first opening tag stays the first when text is added. |
| `Parsing.NoneBeforeHeld` | server/src/anthropic.rs:539-545 | No tag, complete now or later, starts in released text: no partial tag is ever emitted as text. |
| `Parsing.TextPasses` | server/src/anthropic.rs:523-545 | Text in which no tag starts passes straight through. |
| `Parsing.CarriesStep` | server/src/anthropic.rs:518-569 | The refinement relation composes over loop iterations and pushes. |
| `Parsing.OpenCarries` | server/src/anthropic.rs:532-537 | Consuming an opening tag refines reading at once. |
| `Parsing.ReleaseCarries` | server/src/anthropic.rs:539-546 | So does releasing the text before the held suffix. |
| `Parsing.ThinkCarries` | server/src/anthropic.rs:547-554 | So does dropping a finished thought. |
| `Parsing.ToolCarries` | server/src/anthropic.rs:555-565 | So does a finished tool call. |
| `Parsing.OutputParser.Push` | server/src/anthropic.rs:518-571 | For every continuation, events out followed by reading what is kept equal reading it all at once (adjacent text merged); of plain text exactly the longest suffix a tag could grow from is kept. |
| `Readings.ReadBack` | server/src/anthropic.rs:518-581 | Reading inverts writing: of texts, thoughts between think tags and calls between tool_call tags, written one after the other, the items read are the characters of the texts, nothing for a thought, and for a call what the JSON reader makes of its trimmed text; also when the generation ends inside a thought or a call. |
| `Readings.EveryTextIsWritten` | server/src/anthropic.rs:518-581 | Every text is such a list of texts, thoughts and calls, so that says what any text means. |
| `Readings.MessageMeans` | server/src/anthropic.rs:518-581 | Through the stop detector and the parser, whatever the pieces, a message is made of what its text means. |
| `Readings.TrimMeans` | server/src/anthropic.rs:561-561 | Trimming removes white space at both ends and stops at the first character that is not. |
| `Parsing.OutputParser.Finish` | server/src/anthropic.rs:573-581 | The rest of the buffer, read with nothing to follow. |
| `Blocks.TrimIsBlank` | server/src/anthropic.rs:895-898 | A text is blank to the emitter exactly when it has no ink. |
| `Blocks.FallbackShows` | server/src/anthropic.rs:652-654 | A malformed call is shown as its whole text between the two tags, each on a line of its own. |
| `Readings.BlocksMean` | server/src/anthropic.rs:888-949 | The blocks of a message: its lead text, one block for every call, and the text behind each call, each text as it is and none if it is all white space; a call that could not be read opens the text behind it. |
| `Readings.EveryReadingHasParts` | server/src/anthropic.rs:888-949 | Every list of items is a lead text and calls with the text behind them, so that says what any message shows. |
| `Blocks.RunOfChars` | server/src/anthropic.rs:890-911 | A text run is the same however it was chunked. |
| `Blocks.TracksText` | server/src/anthropic.rs:890-911 | Text keeps the client where the specification is. |
| `Blocks.TracksCall` | server/src/anthropic.rs:912-942 | So does a tool call, which ends the run. |
| `Blocks.BlockEmitter.OnText` | server/src/anthropic.rs:890-911 | A text block opens at the first ink, with the blanks before it; the client follows the protocol. |
| `Blocks.BlockEmitter.OnCall` | server/src/anthropic.rs:912-942 | An open text block is closed first; the call is one complete block of its own. |
| `Blocks.BlockEmitter.OnEvent` | server/src/anthropic.rs:888-949 | Any event; a malformed one as its fallback text. |
| `Blocks.BlockEmitter.Finish` | server/src/anthropic.rs:951-959 | All that was sent is accepted by a client that insists on one open block at a time and indices 0, 1, 2, ...; its blocks are the tool calls and the text runs that have ink. |
| `Messages.Relay` | server/src/anthropic.rs:1048-1057 | Good events reach the emitter, malformed ones the list, each in order. |
| `Messages.StreamPiece` | server/src/anthropic.rs:1034-1058 | One piece through detector, parser and emitter. |
| `Messages.StreamPieces` | server/src/anthropic.rs:1033-1074 | The loop over all pieces up to a hit. |
| `Messages.StreamMessage` | server/src/anthropic.rs:1028-1142 | Main result: the streamed message is the block list of reading, at once, the text before the stop; same stop and number of calls. |
| `Messages.ShowLeftover` | server/src/anthropic.rs:1128-1136 | Malformed calls kept for the end become text. |
| `Messages.CollectText` | server/src/http.rs:450-490 | Content and stop as a search over the whole text gives them. |
| `Messages.Assemble` | server/src/anthropic.rs:797-838 | The content list is the block list of the events, the last text trimmed at its end. |
| `Messages.CollectMessage` | server/src/anthropic.rs:757-847 | The non-streaming message, likewise. |
| `Messages.ModesAgree` | server/src/anthropic.rs:757-847 | Streaming equals one-shot: without malformed calls both modes, for any two cuttings of a cut-independent stop list, give the same stop, the same number of calls and the same blocks, before the collected message's last text is trimmed and also once both are. |
| `MalformedCalls.StreamingDropsMalformed` | server/src/anthropic.rs:1128-1136 | Concrete generation of two calls, the first malformed: streaming shows one block, collecting two. |
| `MalformedCalls.NothingLostIff` | server/src/anthropic.rs:1128-1136 | A streamed message shows everything, malformed calls as text at its end, if and only if no call was malformed or none was good. |
| `MalformedCalls.ModesAgreeExactly` | server/src/anthropic.rs:757-847 | For any two cuttings of a cut-independent stop list: the streamed blocks, trimmed, are those of the collected message if and only if no call was malformed, or the message opens with its one malformed call, has no good one, and any text after it reads the same on either side of the fallback. Untrimmed, as sent, they are those of the collected message if and only if, besides, they do not end in white space. |
| `MalformedCalls.ModesAgreeIff` | server/src/anthropic.rs:757-847 | The same for one list of parsed items, and also for the blocks before any trimming. |
| `MalformedCalls.TrailingBlank` | server/src/anthropic.rs:836-847 | Concrete case: "h " is streamed with its blank and collected without. |
| `MalformedCalls.BlocksInk` | server/src/anthropic.rs:888-949 | The blocks show every character that is not white space, of texts and fallbacks alike. |
| `MalformedCalls.TwoCallsRead` | server/src/anthropic.rs:518-581 | That generation, read at once, is a malformed call and a good one. |
| `Utf8.ValidIsEncoding` | server/src/tokenizer.rs:354-382 | A valid step takes exactly one encoded scalar value. |
| `Utf8.EncodingIsValid` | server/src/tokenizer.rs:354-382 | Every encoded scalar value is taken, whatever follows. |
| `Utf8.EncodeExamples` | server/src/tokenizer.rs:354-382 | The encoding of section 3 of RFC 3629 at the first and last character of every length, and for the examples of its section 7. |
| `Utf8.ReplacedByFFFD` | server/src/tokenizer.rs:373-379 | A byte that begins no character is decoded as one U+FFFD. |
| `Utf8.IncompleteStarts` | server/src/tokenizer.rs:369-371 | A cut-off end is the beginning of an encoding and holds no whole one. |
| `Utf8.InvalidIsMaximal` | server/src/tokenizer.rs:372-378 | What one U+FFFD replaces is a maximal ill-formed subpart. |
| `Utf8.DecodeResumes` | server/src/tokenizer.rs:332-352 | Bytes that arrive later only meet what was kept back. |
| `Utf8.DecodeEncoded` | server/src/tokenizer.rs:354-382 | Encoded text decodes to itself with nothing kept back. |
| `Utf8.CheckedDecodes` | server/src/tokenizer.rs:356-368 | The library check (valid prefix, error length) says what decoding does up to the first error. |
| `Utf8.FlushValidPrefix` | server/src/tokenizer.rs:354-382 | The draining loop computes the decoding and what it keeps back. |
| `Utf8.Utf8StreamDecoder.Push` | server/src/tokenizer.rs:333-345 | The text so far is the decoding of the bytes so far. |
| `Utf8.Utf8StreamDecoder.Finish` | server/src/tokenizer.rs:347-351 | Pushes in any cutting, then finish, decode the whole stream. |
| `BytePairs.ByteMapsInverse` | server/src/tokenizer.rs:303-325 | The byte alphabet and its reverse are inverse to each other. |
| `BytePairs.ByteCharMeans` | server/src/tokenizer.rs:303-316 | The bytes from ! to ~, from A1 to AC and from AE on stand for themselves; any other stands for the character 256 plus the number of such others below it. |
| `BytePairs.BuildByteMaps` | server/src/tokenizer.rs:303-325 | The two tables built are that bijection, on all 256 bytes and no other character. |
| `BytePairs.UnmapMapped` | server/src/tokenizer.rs:227-232 | Mapped bytes map back. |
| `BytePairs.Best` | server/src/tokenizer.rs:241-251 | The pair of least rank, the leftmost if several. |
| `BytePairs.MergedMeaning` | server/src/tokenizer.rs:234-261 | Merging keeps the text and stops only when no neighbours can be merged. |
| `BytePairs.Bpe` | server/src/tokenizer.rs:234-261 | From the single characters to the result there is a list of symbol lists, each of which joins two neighbours that are in the table, with no pair of lower rank anywhere and none of equal rank to the left; in the last one no pair is in the table. |
| `BytePairs.OneResult` | server/src/tokenizer.rs:239-257 | Any two such lists from the same symbols end in the same result. |
| `BytePairs.MergedIsRun` | server/src/tokenizer.rs:239-257 | The function that later results use is the end of such a list. |
| `BytePairs.LeastRankFirst` | server/src/tokenizer.rs:239-257 | An example: with (e, l) ranked below (h, e), "hel" becomes h and el, though (h, e) comes first. |
| `Tokenizing.LongestAt` | server/src/tokenizer.rs:296-300 | The longest special token at a position. |
| `Tokenizing.NextMatch` | server/src/tokenizer.rs:132-133 | The leftmost one at or after a position. |
| `Tokenizing.SpecialIds` | server/src/tokenizer.rs:278-295 | Exactly the control and user-defined tokens, in id order. |
| `Tokenizing.SpecialIdsMean` | server/src/tokenizer.rs:278-295 | Stated with the type numbers: non-empty tokens of type 4 always, those of type 3 only on request, each once and in id order. |
| `Tokenizing.TokenizePiece` | server/src/tokenizer.rs:217-224 | Ids of the merged symbols, or the first symbol without a token. |
| `Tokenizing.TokenizeFragment` | server/src/tokenizer.rs:197-225 | All pieces in order, refused unless the pretokenizer covers the text. |
| `Tokenizing.Tokenize` | server/src/tokenizer.rs:123-149 | Plain text between leftmost-longest special tokens, and those tokens. |
| `Tokenizing.FragmentsCut` | server/src/tokenizer.rs:123-149 | Text splits where a special token begins that no other one straddles. |
| `Tokenizing.TokenizeCut` | server/src/tokenizer.rs:123-149 | tokenize(a ++ b) == tokenize(a) ++ tokenize(b) there. |
| `Detokenizing.Detokenize` | server/src/tokenizer.rs:164-191 | Special tokens as they are, bytes decoded as they arrive, errors as in the source. |
| `Detokenizing.DetokOrdinary` | server/src/tokenizer.rs:178-187 | A run of ordinary tokens decodes as its bytes together. |
| `Detokenizing.ControlHidden` | server/src/tokenizer.rs:172-176 | Unless they are asked for, control tokens (type 3) leave no trace in the text, not even between the bytes of one character. |
| `Detokenizing.SpecialsShown` | server/src/tokenizer.rs:172-177 | Tokens of types 3 and 4 that are shown are shown as they are spelled. |
| `Detokenizing.MappedAscii` | server/src/tokenizer.rs:227-232 | Printable ASCII found in mapped text is in the text. |
| `Detokenizing.PiecesSpelled` | server/src/tokenizer.rs:197-225 | The ids of a text spell its bytes, and one of them can be special only if its text occurs in it. |
| `Detokenizing.RoundTrip` | server/src/tokenizer.rs:123-191 | detokenize(tokenize(t, true), true) == t for every text, merge table and pretokenizer, when tokenizing succeeds and special tokens are printable ASCII. |
| `StreamedText.DecodeTokensLossless` | server/src/http.rs:644-652 | The loop concatenates the pieces that are text by themselves and skips the others. |
| `StreamedText.AtLeast` | server/src/http.rs:644-652 | Decoding together yields at least those characters, and one more if a character was cut. |
| `StreamedText.LosslessIffWhole` | server/src/http.rs:644-652 | Token-by-token decoding agrees with detokenize if and only if every token by itself is whole characters. |
| `StreamedText.SplitCharacterIsLost` | server/src/http.rs:644-652 | Concrete tokens: a two-token character is streamed as nothing. |
| `ChatPrompts.RenderPrompt` | server/src/anthropic.rs:206-298 | System turn, complete turns, cue and trimmed prefill; refused for unknown roles or contents. |
| `PromptReading.PromptReadsBack` | server/src/anthropic.rs:206-298 | A reader with literal markers and role names gets back what the prompt was made of: the system turn with its text and every tool in order, every complete message under its own role with its own content, in order, and then the cue with the trimmed start of the answer. |
| `PromptReading.RefusedIff` | server/src/anthropic.rs:265-298 | A prompt is refused exactly when some message has another role or content that cannot be rendered. |
| `PromptReading.TurnsRead` | server/src/anthropic.rs:265-290 | The turns of a conversation are read back under their own roles, in order. |
| `PromptReading.HeadRead` | server/src/anthropic.rs:219-251 | The system turn is read back as its text and its tools. |
| `ChatPrompts.RenderHead` | server/src/anthropic.rs:206-247 | The system turn, with or without tools. |
| `ChatPrompts.RenderTurns` | server/src/anthropic.rs:259-285 | The complete turns in order. |
| `ChatPrompts.BoundaryIs` | server/src/anthropic.rs:42-51 | The boundary is the token length of the prompt without its cue. |
| `ChatPrompts.TurnsAppend` | server/src/anthropic.rs:255-285 | Turns of a longer conversation extend those of a shorter one. |
| `ChatPrompts.PromptExtends` | server/src/anthropic.rs:206-298 | Every later prompt of a conversation is the history followed by text that opens a turn. |
| `ChatPrompts.NoStraddleAtLine` | server/src/tokenizer.rs:296-300 | No special token runs over a line end into the next turn opener. |
| `ChatPrompts.CrossTurnPrefix` | server/src/anthropic.rs:33-51 | Turn N's history token list, of length history_boundary, is a strict prefix of the prompt of every later turn. |
| `ChatPrompts.CrossTurnReuse` | server/src/anthropic.rs:33-51 | So what was snapshotted there is found reusable by both engines exactly when it is long enough. |
| `ChatPrompts.NextTurnResumes` | server/src/anthropic.rs:33-51 | The prefix that the start of turn N cached ends at most 15 tokens before the boundary; as long as it is in the cache, every later turn resumes at least there. |
| `ChatPrompts.NextTurnHits` | server/src/anthropic.rs:33-51 | From start to start: what turn N cached at its boundary is what every later turn resumes at (or beyond), if the cache is used fewer times in between than it has entries, whatever else is served. |
| `Sampling.WholeMass` | server/src/split.rs:330-330 | Adding the weights in any order gives the total. |
| `Sampling.KeepNucleus` | server/src/split.rs:337-347 | The smallest weight-descending prefix whose mass reaches the threshold. |
| `Sampling.Spend` | server/src/split.rs:348-355 | The candidate whose cumulative interval holds the draw; the last-resort return is unreachable. |
| `Sampling.SampleCandidates` | server/src/split.rs:323-357 | Main result: the id drawn is that candidate of that nucleus, for any candidates in any order, of weights that are exp of the distance to a largest logit over the temperature. |
| `Sampling.WeightsAreSoftmax` | server/src/split.rs:325-330 | The weights are that softmax: some logit is largest, and every weight is exp of its distance to it over the larger of temp and 1e-4. |
| `Sampling.HeavierIsLikelier` | server/src/split.rs:325-330 | For an increasing exp a weight is larger exactly when its logit is, and a largest logit weighs exp(0). |
| `Sampling.WeightRatio` | server/src/split.rs:325-330 | If exp turns sums into products, the ratio of two weights is exp of the difference of their logits over the temperature. |
| `Sampling.BoundsKeep` | server/src/split.rs:338-348 | top_p is clamped to between 1e-6 and 1, and the draw to between 0 and 1 less one epsilon. |
| `Sampling.NucleusIsUnique` | server/src/split.rs:331-347 | Size and mass of the nucleus do not depend on how an unstable sort orders ties. |
| `Sampling.SampledOnce` | server/src/split.rs:323-357 | With no two weights equal, candidates, top_p and the draw decide the id. |
| `Sampling.OneDrawn` | server/src/split.rs:348-355 | Every draw falls to exactly one candidate. |
| `Sampling.DrawWidth` | server/src/split.rs:348-355 | The draws that fall to a candidate form an interval as wide as its share of the kept mass. |
| `SnapshotLayout.Offsets` | src/main.cpp:4104-4111 | The running sums are the region offsets, and the last is the snapshot size. |
| `SnapshotLayout.RegionsApart` | src/main.cpp:4104-4111 | Regions of different layers never overlap and lie inside the snapshot. |
| `SnapshotLayout.CopyHeads` | src/main.cpp:3449-3464 | The strided per-head copies move each head's first rows and nothing else. |
| `SnapshotLayout.CopyStripe` | src/main.cpp:3449-3479 | One stripe, partial or whole; words outside it stay. |
| `SnapshotLayout.Device.Save` | src/main.cpp:3435-3486 | Every layer's region holds the slot's live words. |
| `SnapshotLayout.Device.Load` | src/main.cpp:3435-3486 | The slot's stripes hold the regions' live words; no other slot or layer changes. |
| `SnapshotLayout.Device.SaveLayer` | src/main.cpp:3439-3479 | One layer: its two regions and nothing else. |
| `SnapshotLayout.Device.LoadLayer` | src/main.cpp:3439-3479 | One layer: the slot's two stripes and nothing else. |
| `SnapshotLayout.CopiedTwice` | src/main.cpp:3435-3486 | Two copies with one token count are one direct copy. |
| `SnapshotLayout.CopiedRows` | src/main.cpp:3442-3464 | In rows: the first n of every head are the source's, the rest are untouched. |
| `SnapshotLayout.SaveThenLoad` | src/main.cpp:3435-3486 | Save slot a, load into slot b with the same count: b has a's recurrent state and first n rows per head, everything else is as before. |

## Left out

- Kernel arithmetic, quantization, the 1e-7 drift between batched and serial kernels, `f16` conversion: a layer is one function.
- Vulkan objects, barriers, flushes inside a batch, profiling, statistics counters and environment switches; a submit is one atomic step.
- The attention split dispatch (`attnLiveDispatch`): it selects kernels, not results.
- The caller's flat output arrays: `StepChunk` returns a list of tokens per slot.
- `SlotEngine.Engine.Start`: not modelled for a prompt longer than the context that the wrapped sum lets through (it does not fit into the device buffers); the null-pointer and split-stage return codes are not modelled.
- The n-gram hash is any function of the gram (FNV-1a is one); a collision only wastes a round.
- The caller-supplied history boundary is any number; what `history_boundary` computes is proved separately in `ChatPrompts`.
- A hidden row is one unit on the wire; the hello handshake, sockets, timeouts and reconnects are not modelled. The link may fail at any send, receive or state operation, and a failed operation may or may not have happened.
- The Error event offered to the consumers of a failed pass or engine call: their requests are dropped, with their pending events.
- A top-k read on the local driver fails together with the run it belongs to.
- After a run frame fails the worker's state is arbitrary; a failed state operation leaves the worker's other entries intact (the registry is cleared only for run failures, and coherence needs this).
- `SplitServing.Driver.StateOp`: the worker's error status and a lost status word are the same failure.
- The sampler inside the driver is any function of candidates and draw number; `Sampling` proves the real one over exact reals. SplitMix64 and floating-point rounding are left out, and `exp` is any positive function.
- The error branch of `admit_jobs` is proved unreachable for jobs that `prepare_generation` accepted, so no event of it is modelled; such jobs are the only ones queued.
- Shutdown commands, thread parking and sleeping.
- The retry after a malformed tool call, `fit_to_context`, `cap_tool_output`, and the rendering of message contents and JSON: contents are rendered by any function, and the JSON reader with its repairs is any function of the trimmed text.
- `ChatPrompts.CrossTurnPrefix`: for conversations that were not trimmed and whose shorter one has no assistant prefill, over vocabularies in which the turn opener is special and no special token contains a line end followed by "<".
- `Detokenizing.RoundTrip`: the pretokenizer's regular expression is any function; special tokens are assumed printable ASCII, which is what keeps an ordinary symbol from being one.
- Special tokens are matched on characters, and the pattern matcher is its leftmost-longest specification.
- `Messages.StreamMessage`: the message_start, ping, message_delta and message_stop events around the blocks, keep-alives and token counts.
- The stub engine, test drivers, GGUF readers, HTTP routing and the other API shapes.
