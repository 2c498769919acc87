/** The request table of the single-box engine thread, and what an engine call makes of it. */
module ServerTables {
  import opened Common
  import opened Deliveries
  import opened Greedy
  import opened Network
  import opened Requests
  import opened Slots
  import E = Events

  /** How far a request has got is the engine's business here. */
  datatype Engaged = Engaged

  type Seat = Occupant<Engaged>

  predicate Acceptable(c: Config, j: Job) {
    && j.prompt != [] && 1 <= j.maxGen && |j.prompt| + j.maxGen <= c.nCtx
    && forall i :: 0 <= i < |j.prompt| ==> (j.prompt[i] as int) < c.vocab
  }

  /** Whatever prepare_generation accepts can be submitted; the engine's 32-bit sum does not wrap for it. */
  lemma PreparedAcceptable(c: Config, prompt: seq<Token>, requested: Option<nat>, snapPrefix: nat, greedy: bool,
                           seed: nat)
    requires ConfigOk(c)
    ensures var p := PrepareGeneration(prompt, c.vocab, c.nCtx, requested);
      p.Ready? ==> Acceptable(c, Job(p.prompt, p.maxGen, snapPrefix, greedy, seed, false))
  {
  }

  lemma AcceptedStarts(c: Config, j: Job, s: nat)
    requires ConfigOk(c) && Acceptable(c, j) && s < c.nSlots
    ensures Startable(c, j.prompt, j.maxGen) && StartCode(c, s, false, j.prompt, j.maxGen) == 0
    ensures LimitIn(c, j.prompt, j.maxGen) == j.maxGen
  {
    LimitFits(c, j.prompt, j.maxGen);
  }

  /** A request still generating: its events say exactly what the engine has delivered for it. */
  predicate Speaking(c: Config, o: Seat, delivered: seq<Token>) {
    && Acceptable(c, o.job) && !o.st.finished && o.st.maxGen == o.job.maxGen && |o.ch.buf| <= E.CHANNEL_CAP
    && E.Says(o.Produced(), delivered, false, E.Eos) && o.st.emitted == |delivered|
  }

  /** The events of a request served to its end: the whole answer, then one Done with the true reason. */
  predicate ServedRight(c: Config, j: Job, evs: seq<E.SlotEvent>)
    requires j.prompt != []
  {
    var answer := Answer(c, j.prompt, j.maxGen);
    E.Says(evs, answer, true, if |answer| >= j.maxGen then E.Limit else E.Eos)
  }

  predicate Concluded(c: Config, o: Seat) {
    && Acceptable(c, o.job) && o.st.finished && |o.ch.buf| <= E.CHANNEL_CAP && ServedRight(c, o.job, o.Produced())
  }

  /** The server's table entry and the engine's slot agree. */
  predicate TableOk(c: Config, e: Option<Seat>, sl: Slot, delivered: seq<Token>) {
    match e
    case None => !sl.active
    case Some(o) =>
      if o.st.finished then !sl.active && Concluded(c, o)
      else sl.active && sl.prompt == o.job.prompt && sl.maxGen == o.job.maxGen && Speaking(c, o, delivered)
  }

  ghost predicate TablesOk(c: Config, slots: Row<Engaged>, sls: seq<Slot>, delivered: seq<seq<Token>>) {
    && |slots| == |sls| == |delivered| == c.nSlots
    && forall s :: 0 <= s < |slots| ==> TableOk(c, slots[s], sls[s], delivered[s])
  }

  lemma BusyInside(slots: Row<Engaged>)
    ensures forall i: nat :: Busy(slots, i) ==> i < |slots|
  {
  }

  lemma BusySeat(slots: Row<Engaged>, s: nat)
    requires s < |slots|
    ensures Busy(slots, s) <==> slots[s].Some? && !slots[s].value.st.finished
  {
  }

  /** One entry changed, with what the engine knows of its slot. */
  lemma TablesUpdate(c: Config, a: Row<Engaged>, sls0: seq<Slot>, del0: seq<seq<Token>>, b: Row<Engaged>,
                     sls1: seq<Slot>, del1: seq<seq<Token>>, s: nat)
    requires TablesOk(c, a, sls0, del0) && s < |a| == |b| == |sls1| == |del1|
    requires forall i :: 0 <= i < |a| && i != s ==> b[i] == a[i] && sls1[i] == sls0[i] && del1[i] == del0[i]
    requires TableOk(c, b[s], sls1[s], del1[s])
    ensures TablesOk(c, b, sls1, del1)
  {
    hide TableOk;
    forall i | 0 <= i < |b| ensures TableOk(c, b[i], sls1[i], del1[i]) {
      assert i != s ==> TableOk(c, a[i], sls0[i], del0[i]);
    }
  }

  /** A request that has just started. */
  lemma FreshTable(c: Config, o: Seat, sl: Slot)
    requires Acceptable(c, o.job) && Fresh(o, o.job)
    requires sl.active && sl.prompt == o.job.prompt && sl.maxGen == o.job.maxGen
    ensures TableOk(c, Some(o), sl, [])
  {
    assert o.Produced() == [];
  }

  ghost predicate AllServed(c: Config, log: seq<Handed<Engaged>>) {
    forall i :: 0 <= i < |log| ==> Concluded(c, log[i].occ) && log[i].occ.st.pending == []
  }

  predicate QueueOk(c: Config, q: seq<Job>) {
    forall i :: 0 <= i < |q| ==> Acceptable(c, q[i])
  }

  // ---- delivery ----

  lemma TableChannel(c: Config, o: Seat, sl: Slot, delivered: seq<Token>)
    requires TableOk(c, Some(o), sl, delivered)
    ensures |o.ch.buf| <= E.CHANNEL_CAP && (!o.st.finished <==> sl.active)
    ensures o.st.finished ==> Concluded(c, o)
  {
    hide Answer, E.Spoken, E.Says;
  }

  lemma Redelivered(c: Config, o: Seat, b: Seat, sl: Slot, delivered: seq<Token>)
    requires TableOk(c, Some(o), sl, delivered) && b == o.(st := b.st, ch := b.ch)
    requires b.st == o.st.(pending := b.st.pending)
    requires b.Produced() == o.Produced() && |b.ch.buf| <= E.CHANNEL_CAP
    ensures TableOk(c, Some(b), sl, delivered)
  {
    hide Answer, E.Spoken, E.Says;
  }

  // ---- what one engine call says ----

  /** The events of one engine call's piece. */
  function PieceEvents(o: Seat, piece: seq<Token>, f: bool): seq<E.SlotEvent> {
    (if piece == [] then [] else [E.Tokens(piece)])
    + (if f then [E.Done(if o.st.emitted + |piece| >= o.st.maxGen then E.Limit else E.Eos)] else [])
  }

  /** Request `b` is `a` with exactly this piece added. */
  ghost predicate PieceTo(a: Seat, b: Seat, piece: seq<Token>, f: bool) {
    && Continues(a, b) && b.Produced() == a.Produced() + PieceEvents(a, piece, f)
    && b.st.finished == f && b.st.emitted == a.st.emitted + |piece|
  }

  /** One engine call's piece becomes events. */
  lemma PieceSaid(c: Config, o: Seat, a: Slot, sl: Slot, total: seq<Token>, piece: seq<Token>, f: bool,
                  before: seq<Token>, b: Seat)
    requires Speaking(c, o, before) && total == before + piece && Piece(c, a, sl, total, piece, f)
    requires a.prompt == o.job.prompt && a.maxGen == o.job.maxGen && SameRequest(a, sl)
    requires b == o.(st := b.st)
    requires b.st == o.st.(emitted := o.st.emitted + |piece|, finished := f,
                           pending := o.st.pending + PieceEvents(o, piece, f))
    ensures TableOk(c, Some(b), sl, total) && PieceTo(o, b, piece, f)
  {
    hide Answer, E.Spoken, E.Says, Quota;
    var evs := o.Produced();
    assert b.Produced() == evs + PieceEvents(o, piece, f);
    var mid := evs + if piece == [] then [] else [E.Tokens(piece)];
    if piece == [] {
      assert total == before && mid == evs;
    } else {
      E.SayTokens(evs, before, piece, E.Eos);
    }
    if f {
      var r := if b.st.emitted >= o.st.maxGen then E.Limit else E.Eos;
      assert b.Produced() == mid + [E.Done(r)];
      SayWhatever(mid, total, r);
      E.SayDone(mid, total, r);
    } else {
      assert b.Produced() == mid;
    }
  }

  lemma SayWhatever(evs: seq<E.SlotEvent>, toks: seq<Token>, r: E.FinishReason)
    requires E.Says(evs, toks, false, E.Eos)
    ensures E.Says(evs, toks, false, r)
  {
  }

  lemma NotFinished(c: Config, o: Seat, delivered: seq<Token>)
    requires Speaking(c, o, delivered)
    ensures !o.st.finished
  {
    hide E.Says;
  }

  lemma PieceGoesOn(a: Seat, b: Seat, piece: seq<Token>, f: bool)
    requires PieceTo(a, b, piece, f)
    ensures Continues(a, b)
  {
    hide Continues;
  }

  /** A piece stays what it is while its events move on. */
  lemma PieceDelivered(a: Seat, b: Seat, e: Seat, piece: seq<Token>, f: bool)
    requires PieceTo(a, b, piece, f) && Flushed(Some(b), Some(e))
    ensures PieceTo(a, e, piece, f)
  {
  }

  lemma PieceHanded(a: Seat, b: Seat, e: Seat, piece: seq<Token>, f: bool)
    requires PieceTo(a, b, piece, f) && Continues(b, e) && e.Produced() == b.Produced() && e.st == b.st.(pending := [])
    ensures PieceTo(a, e, piece, f)
  {
    ContinuesOn(a, b, e);
  }

  ghost predicate AllCalled(c: Config, before: seq<Slot>, sls: seq<Slot>, del: seq<seq<Token>>, del2: seq<seq<Token>>,
                             out: seq<seq<Token>>, fin: seq<bool>) {
    && |before| == |sls| == |del| == |del2| == |out| == |fin| == c.nSlots
    && forall s :: 0 <= s < c.nSlots ==> Called(c, before[s], del[s], sls[s], del2[s], out[s], fin[s])
  }

  /** What handling one slot's piece makes of it: it has exactly that piece more, and is in its slot, or handed
      over, or its consumer is gone; who was not generating is untouched. */
  ghost predicate Handled(a: Option<Seat>, b: Option<Seat>, piece: seq<Token>, f: bool) {
    if a.None? || a.value.st.finished then b == a
    else b.Some? ==> PieceTo(a.value, b.value, piece, f)
  }

  /** The last one handed over is request `a` of slot `s`, as it was. */
  ghost predicate JustHanded(log0: seq<Handed<Engaged>>, log1: seq<Handed<Engaged>>, s: nat, a: Seat) {
    && |log1| == |log0| + 1 && log0 <= log1 && log1[|log0|].slot == s
    && Continues(a, log1[|log0|].occ) && log1[|log0|].occ.Produced() == a.Produced() && a.st.finished
    && log1[|log0|].occ.st == a.st.(pending := [])
  }

  /** Or with this piece added. */
  ghost predicate PieceGone(log0: seq<Handed<Engaged>>, log1: seq<Handed<Engaged>>, s: nat, a: Seat,
                            piece: seq<Token>, f: bool) {
    |log1| == |log0| + 1 && log0 <= log1 && log1[|log0|].slot == s && PieceTo(a, log1[|log0|].occ, piece, f)
  }

  /** So for the whole table, and for those handed over on the way. */
  ghost predicate AllHandled(before: Row<Engaged>, log0: seq<Handed<Engaged>>, after: Row<Engaged>,
                             log1: seq<Handed<Engaged>>,
                             out: seq<seq<Token>>, fin: seq<bool>, n: nat) {
    && n <= |before| == |after| == |out| == |fin| && log0 <= log1
    && (forall s :: 0 <= s < n ==> Handled(before[s], after[s], out[s], fin[s]))
    && (forall s :: n <= s < |before| ==> after[s] == before[s])
    && (forall k :: |log0| <= k < |log1| ==>
          && log1[k].slot < n && Busy(before, log1[k].slot)
          && PieceTo(before[log1[k].slot].value, log1[k].occ, out[log1[k].slot], fin[log1[k].slot]))
  }

  lemma NoneHandled(slots: Row<Engaged>, log: seq<Handed<Engaged>>, out: seq<seq<Token>>, fin: seq<bool>)
    requires |slots| == |out| == |fin|
    ensures AllHandled(slots, log, slots, log, out, fin, 0)
  {
  }

  /** One more slot handled. */
  lemma HandledNext(before: Row<Engaged>, log0: seq<Handed<Engaged>>, a: Row<Engaged>, log1: seq<Handed<Engaged>>,
                    b: Row<Engaged>, log2: seq<Handed<Engaged>>, out: seq<seq<Token>>, fin: seq<bool>, s: nat)
    requires AllHandled(before, log0, a, log1, out, fin, s) && s < |before| == |b| && b == a[s := b[s]]
    requires Handled(a[s], b[s], out[s], fin[s])
    requires log2 == log1 || (Busy(a, s) && PieceGone(log1, log2, s, a[s].value, out[s], fin[s]))
    ensures AllHandled(before, log0, b, log2, out, fin, s + 1)
  {
    hide PieceTo;
  }

  // ---- work ----

  /** Prompt left plus generation left, and one for the end. */
  function SeatWork(e: Option<Seat>, sl: Slot): nat {
    if e.None? || e.value.st.finished then 0
    else
      1 + PromptLeft(sl)
      + if e.value.st.emitted <= e.value.job.maxGen then e.value.job.maxGen - e.value.st.emitted else 0
  }

  function SeatWorks(slots: Row<Engaged>, sls: seq<Slot>): (w: seq<nat>)
    requires |slots| == |sls|
    ensures |w| == |slots|
  {
    seq(|slots|, s requires 0 <= s < |slots| => SeatWork(slots[s], sls[s]))
  }

  /** An engine call takes work off a request that goes on. */
  lemma PieceWork(c: Config, o: Seat, b: Seat, a: Slot, sl: Slot, before: seq<Token>, total: seq<Token>,
                  piece: seq<Token>)
    requires ConfigOk(c) && TableOk(c, Some(o), a, before) && !o.st.finished
    requires Called(c, a, before, sl, total, piece, false)
    requires TableOk(c, Some(b), sl, total) && PieceTo(o, b, piece, false)
    ensures SeatWork(Some(b), sl) < SeatWork(Some(o), a)
  {
    hide E.Says, Stream;
    AcceptedStarts(c, o.job, 0);
    StreamBound(c, o.job);
    SameChannel(o, b);
    assert Piece(c, a, sl, total, piece, false);
    assert |total| <= |Answer(c, a.prompt, a.maxGen)| <= o.job.maxGen;
  }

  /** One slot of an engine call, whatever becomes of its request. */
  lemma StepWork(c: Config, e: Option<Seat>, b: Option<Seat>, a: Slot, sl: Slot, before: seq<Token>, total: seq<Token>,
                 piece: seq<Token>, f: bool)
    requires ConfigOk(c) && TableOk(c, e, a, before) && Called(c, a, before, sl, total, piece, f)
    requires (b.Some? ==> TableOk(c, b, sl, total)) && Handled(e, b, piece, f)
    ensures SeatWork(b, sl) + (if e.Some? && !e.value.st.finished then 1 else 0) <= SeatWork(e, a)
  {
    hide Concluded, Speaking, PieceTo, Piece;
    if e.Some? && !e.value.st.finished && b.Some? {
      PieceEnds(e.value, b.value, piece, f);
      if !f {
        PieceWork(c, e.value, b.value, a, sl, before, total, piece);
      }
    }
  }

  lemma PieceEnds(a: Seat, b: Seat, piece: seq<Token>, f: bool)
    requires PieceTo(a, b, piece, f)
    ensures b.st.finished == f
  {
  }

  /** A delivery retry leaves the work as it is, unless the consumer is gone. */
  lemma FlushWork(e: Option<Seat>, f: Option<Seat>, sl: Slot)
    requires Flushed(e, f)
    ensures SeatWork(f, sl) <= SeatWork(e, sl)
    ensures f.None? && e.Some? && !e.value.st.finished ==> SeatWork(f, sl) < SeatWork(e, sl)
    ensures f.Some? ==> e.Some? && f.value.st.finished == e.value.st.finished
  {
  }

  /** An iteration in which nothing fails takes work off every request that was generating. */
  lemma TickWork(c: Config, admitted: Row<Engaged>, sls: seq<Slot>, flushed: Row<Engaged>, mid: seq<Slot>,
                 was: seq<seq<Token>>,
                 stepped: seq<Slot>, after: Row<Engaged>, now: seq<Slot>, got: seq<seq<Token>>,
                 log0: seq<Handed<Engaged>>, log1: seq<Handed<Engaged>>,
                 out: seq<seq<Token>>, fin: seq<bool>)
    requires ConfigOk(c) && |admitted| == |sls| == c.nSlots == |flushed|
    requires forall s :: 0 <= s < c.nSlots ==> Flushed(admitted[s], flushed[s])
    requires TablesOk(c, flushed, mid, was) && TablesOk(c, after, now, got)
    requires forall s :: 0 <= s < c.nSlots && flushed[s].Some? ==> mid[s] == sls[s]
    requires AllCalled(c, mid, stepped, was, got, out, fin)
    requires forall s :: 0 <= s < c.nSlots && after[s].Some? ==> now[s] == stepped[s]
    requires AllHandled(flushed, log0, after, log1, out, fin, c.nSlots)
    ensures WorkDone(admitted, SeatWorks(admitted, sls), SeatWorks(after, now))
  {
    hide TableOk, Flushed, Called, Handled, PieceTo, SeatWork;
    forall s | 0 <= s < c.nSlots
      ensures SeatWork(after[s], now[s]) + (if Busy(admitted, s) then 1 else 0) <= SeatWork(admitted[s], sls[s])
    {
      FlushWork(admitted[s], flushed[s], sls[s]);
      StepWork(c, flushed[s], after[s], mid[s], stepped[s], was[s], got[s], out[s], fin[s]);
      NoWork(flushed[s], mid[s], sls[s]);
      NoWork(after[s], now[s], stepped[s]);
    }
  }

  lemma NoWork(e: Option<Seat>, a: Slot, b: Slot)
    ensures e.None? ==> SeatWork(e, a) == SeatWork(e, b) == 0
  {
  }

  /** The same when nobody was generating. */
  lemma IdleWork(admitted: Row<Engaged>, sls: seq<Slot>, flushed: Row<Engaged>, mid: seq<Slot>)
    requires |admitted| == |sls| == |flushed| == |mid|
    requires forall s :: 0 <= s < |admitted| ==> Flushed(admitted[s], flushed[s])
    requires forall s :: 0 <= s < |admitted| && flushed[s].Some? ==> mid[s] == sls[s]
    requires forall s :: 0 <= s < |admitted| ==> !Busy(admitted, s)
    ensures WorkDone(admitted, SeatWorks(admitted, sls), SeatWorks(flushed, mid))
  {
    hide Flushed, SeatWork;
    forall s | 0 <= s < |admitted| ensures SeatWork(flushed[s], mid[s]) <= SeatWork(admitted[s], sls[s]) {
      FlushWork(admitted[s], flushed[s], sls[s]);
      NoWork(flushed[s], mid[s], sls[s]);
    }
  }

  /** What admission adds is the work of the jobs admitted. */
  lemma AdmissionWork(c: Config, before: Row<Engaged>, q0: seq<Job>, sls0: seq<Slot>, admitted: Row<Engaged>,
                      q1: seq<Job>,
                      sls: seq<Slot>, got: seq<seq<Token>>)
    requires |before| == |sls0| && Admitted(before, q0, |before|, admitted, q1) && TablesOk(c, admitted, sls, got)
    requires forall s :: 0 <= s < |before| && before[s].Some? ==> sls[s] == sls0[s]
    ensures WorkTaken(before, admitted, SeatWorks(before, sls0), SeatWorks(admitted, sls))
  {
    hide Concluded, Speaking, Acceptable;
    forall s | 0 <= s < |before|
      ensures SeatWork(admitted[s], sls[s])
           <= SeatWork(before[s], sls0[s])
              + if before[s].None? && admitted[s].Some? then JobWork(admitted[s].value.job) else 0
    {
      assert AdmittedAt(before, q0, s, admitted[s]) && TableOk(c, admitted[s], sls[s], got[s]);
    }
  }

  // ---- one iteration ----

  /** What an iteration in which nothing fails does to the request in one slot: a generating one has exactly the
      engine's piece more; of a finished one delivery is retried. */
  ghost predicate Iterated(a: Option<Seat>, b: Option<Seat>, piece: seq<Token>, f: bool) {
    if a.None? then b.None?
    else if a.value.st.finished then Flushed(a, b)
    else b.Some? ==> PieceTo(a.value, b.value, piece, f)
  }

  lemma IterateAt(a: Option<Seat>, e: Option<Seat>, b: Option<Seat>, piece: seq<Token>, f: bool)
    requires Flushed(a, e) && Handled(e, b, piece, f)
    ensures Iterated(a, b, piece, f)
  {
  }

  lemma IterateAll(admitted: Row<Engaged>, flushed: Row<Engaged>, after: Row<Engaged>, log0: seq<Handed<Engaged>>,
                log1: seq<Handed<Engaged>>, out: seq<seq<Token>>, fin: seq<bool>)
    requires |admitted| == |flushed| && forall s :: 0 <= s < |flushed| ==> Flushed(admitted[s], flushed[s])
    requires AllHandled(flushed, log0, after, log1, out, fin, |flushed|)
    ensures |after| == |admitted| && forall s :: 0 <= s < |after| ==> Iterated(admitted[s], after[s], out[s], fin[s])
    ensures IdleFlushed(admitted, after)
  {
    hide Flushed, Handled, PieceTo, Iterated;
    forall s | 0 <= s < |after|
      ensures Iterated(admitted[s], after[s], out[s], fin[s])
      ensures !Busy(admitted, s) ==> Flushed(admitted[s], after[s])
    {
      IterateAt(admitted[s], flushed[s], after[s], out[s], fin[s]);
      IterateIdle(admitted[s], after[s], out[s], fin[s]);
    }
  }

  lemma IdleIterate(admitted: Row<Engaged>, flushed: Row<Engaged>, out: seq<seq<Token>>, fin: seq<bool>)
    requires |admitted| == |flushed| == |out| == |fin|
    requires forall s :: 0 <= s < |flushed| ==> Flushed(admitted[s], flushed[s])
    requires forall s :: 0 <= s < |admitted| ==> !Busy(admitted, s)
    ensures forall s :: 0 <= s < |flushed| ==> Iterated(admitted[s], flushed[s], out[s], fin[s])
    ensures IdleFlushed(admitted, flushed)
  {
    hide Flushed, PieceTo;
    forall s | 0 <= s < |flushed| ensures Iterated(admitted[s], flushed[s], out[s], fin[s]) {
      assert !Busy(admitted, s);
      NoneFlushed(admitted[s], flushed[s]);
    }
  }

  lemma NoneFlushed(a: Option<Seat>, b: Option<Seat>)
    requires Flushed(a, b)
    ensures a.None? ==> b.None?
  {
  }

  lemma IterateIdle(a: Option<Seat>, b: Option<Seat>, piece: seq<Token>, f: bool)
    requires Iterated(a, b, piece, f)
    ensures a.None? || a.value.st.finished ==> Flushed(a, b)
  {
  }

  /** A slot whose consumer reads: less work left, or fewer events unread. */
  lemma IterationWork(s: nat, a: Option<Seat>, admitted: Row<Engaged>, reached: Row<Engaged>, w: seq<nat>, wa: seq<nat>,
                    w1: seq<nat>)
    requires s < |admitted| == |reached| && a.Some? && ReadOut(a, admitted[s]) && IdleFlushed(admitted, reached)
    requires WorkDone(admitted, wa, w1) && |w| == |wa| && wa[s] <= w[s]
    ensures w1[s] <= w[s] && (w1[s] < w[s] || Unread(reached[s]) < Unread(a))
  {
    hide Flushed;
    if a.value.st.finished {
      assert !Busy(admitted, s);
      UnreadDrops(a, admitted[s], reached[s]);
    } else {
      assert Busy(admitted, s);
    }
  }

  lemma ReadSeatWork(a: Option<Seat>, b: Option<Seat>, sl: Slot)
    requires ReadOut(a, b)
    ensures SeatWork(b, sl) == SeatWork(a, sl)
  {
  }

  lemma ReadSeatWorks(a: Row<Engaged>, b: Row<Engaged>, sls: seq<Slot>)
    requires AllReadOut(a, b) && |a| == |b| == |sls|
    ensures SeatWorks(b, sls) == SeatWorks(a, sls)
  {
    hide SeatWork, ReadOut;
    forall s | 0 <= s < |a| ensures SeatWork(b[s], sls[s]) == SeatWork(a[s], sls[s]) {
      ReadSeatWork(a[s], b[s], sls[s]);
    }
  }

  lemma SeatServed(c: Config, log: seq<Handed<Engaged>>, k: nat)
    requires AllServed(c, log) && k < |log|
    ensures log[k].occ.job.prompt != [] && ServedRight(c, log[k].occ.job, log[k].occ.ch.taken + log[k].occ.ch.buf)
  {
    hide ServedRight;
    var o := log[k].occ;
    assert o.Produced() == o.ch.taken + o.ch.buf;
  }

  lemma StreamBound(c: Config, j: Job)
    requires ConfigOk(c) && Acceptable(c, j)
    ensures |Answer(c, j.prompt, j.maxGen)| <= j.maxGen
  {
    AcceptedStarts(c, j, 0);
    StreamIsGreedy(c.net, c.eos, j.prompt, j.maxGen);
  }

  lemma OccupiedUpdate(slots: Row<Engaged>, s: nat, e: Option<Seat>)
    requires s < |slots|
    ensures |OccupiedBelow(slots[s := e], |slots|)| + (if slots[s].Some? then 1 else 0)
         == |OccupiedBelow(slots, |slots|)| + (if e.Some? then 1 else 0)
  {
    var a, b := OccupiedBelow(slots, |slots|), OccupiedBelow(slots[s := e], |slots|);
    OccupiedMembers(slots);
    OccupiedMembers(slots[s := e]);
    hide OccupiedBelow;
    assert a - {s} == b - {s};
    Without(a, s);
    Without(b, s);
  }

  lemma OccupiedMembers(slots: Row<Engaged>)
    ensures forall i :: i in OccupiedBelow(slots, |slots|) <==> 0 <= i < |slots| && slots[i].Some?
  {
  }

  lemma Without(a: set<nat>, s: nat)
    ensures |a| == |a - {s}| + (if s in a then 1 else 0)
  {
    if s in a {
      assert a == (a - {s}) + {s};
    } else {
      assert a - {s} == a;
    }
  }
}
