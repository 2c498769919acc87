/** The single-box engine thread over the slot engine. */
module EngineThread {
  import opened CacheAges
  import opened Common
  import opened Deliveries
  import opened Ledgers
  import opened Network
  import opened ServerTables
  import opened SlotEngine
  import opened Slots
  import E = Events

  class Server {
    const engine: Engine
    const permits: nat
    // The environment: the n-th engine call fails when `faults(n)`; `calls` counts them.
    const faults: nat -> bool
    var calls: nat
    var slots: Row<Engaged>
    var queue: seq<Job>
    var available: nat
    // Requests whose events were all handed over.
    ghost var log: seq<Handed<Engaged>>

    /** Queue, permits and log, whatever the table says. */
    ghost predicate Base()
      reads this, engine
    {
      && engine.Valid() && |slots| == engine.c.nSlots && QueueOk(engine.c, queue) && AllServed(engine.c, log)
      && available + |queue| + |OccupiedBelow(slots, |slots|)| == permits
    }

    /** A request is unfinished in the table exactly when its engine slot is active, and permits held are
        jobs queued plus slots occupied. */
    ghost predicate Valid()
      reads this, engine
    {
      Base() && TablesOk(engine.c, slots, engine.slots, engine.delivered)
    }

    constructor (c: Config, entries: nat, permits0: nat, faults0: nat -> bool)
      requires ConfigOk(c)
      ensures Valid() && permits == permits0 && log == [] && engine.c == c && faults == faults0 && calls == 0
    {
      engine := new Engine(c, entries);
      permits, faults, calls := permits0, faults0, 0;
      slots := seq(c.nSlots, _ => None);
      queue, available, log := [], permits0, [];
      new;
      assert OccupiedBelow(slots, |slots|) == {};
    }

    lemma ValidFacts()
      requires Valid()
      ensures Base() && engine.Valid() && ConfigOk(engine.c) && engine.c.nSlots >= 1
      ensures |slots| == |engine.slots| == |engine.delivered| == |engine.out| == |engine.fin| == engine.c.nSlots
      ensures TablesOk(engine.c, slots, engine.slots, engine.delivered) && AllServed(engine.c, log)
    {
    }

    lemma IsValid()
      requires Base() && TablesOk(engine.c, slots, engine.slots, engine.delivered)
      ensures Valid()
    {
      hide Base, TablesOk;
    }

    lemma FreeSeat(s: nat)
      requires Valid() && s < |slots| && slots[s].None?
      ensures !engine.slots[s].active
    {
      assert TableOk(engine.c, slots[s], engine.slots[s], engine.delivered[s]);
    }

    lemma EntryFacts(s: nat)
      requires Valid() && s < |slots| && slots[s].Some?
      ensures TableOk(engine.c, slots[s], engine.slots[s], engine.delivered[s])
      ensures |slots[s].value.ch.buf| <= E.CHANNEL_CAP
    {
      hide Concluded, Speaking;
      assert TableOk(engine.c, slots[s], engine.slots[s], engine.delivered[s]);
      TableChannel(engine.c, slots[s].value, engine.slots[s], engine.delivered[s]);
    }

    /** The work left of every request. */
    ghost function Works(): (w: seq<nat>)
      requires |slots| == |engine.slots|
      reads this, engine
      ensures |w| == |slots|
    {
      SeatWorks(slots, engine.slots)
    }

    lemma WorkAt(s: nat)
      requires s < |slots| == |engine.slots|
      ensures Works()[s] == SeatWork(slots[s], engine.slots[s])
    {
      hide SeatWork;
    }

    lemma WorksAre()
      requires |slots| == |engine.slots|
      ensures Works() == SeatWorks(slots, engine.slots)
    {
      hide SeatWorks;
    }

    /** submit_generation: refused when no permit is left. */
    method Submit(job: Job) returns (accepted: bool)
      requires Valid() && Acceptable(engine.c, job)
      modifies this`queue, this`available
      ensures Valid() && accepted == (old(available) > 0)
      ensures queue == if accepted then old(queue) + [job] else old(queue)
    {
      if available == 0 {
        return false;
      }
      available := available - 1;
      queue := queue + [job];
      return true;
    }

    /** Replaces the entry of slot `s`; a permit comes back when it is emptied. */
    method SetSlot(s: nat, e: Option<Seat>)
      requires s < |slots| && slots[s].Some?
      modifies this`slots, this`available
      ensures slots == old(slots)[s := e]
      ensures available + |OccupiedBelow(slots, |slots|)| == old(available) + |OccupiedBelow(old(slots), |old(slots)|)|
    {
      OccupiedUpdate(slots, s, e);
      if e.None? {
        available := available + 1;
      }
      slots := slots[s := e];
    }

    // ---- admission ----

    /** The oldest queued job starts on a free slot. The engine never refuses it as busy, nor at all. */
    method AdmitOne(s: nat) returns (rc: int)
      requires Valid() && s < |slots| && slots[s].None? && queue != []
      modifies this`slots, this`queue, engine
      ensures Valid() && rc == 0 && queue == old(queue)[1..]
      ensures slots == old(slots)[s := slots[s]] && slots[s].Some? && Fresh(slots[s].value, old(queue)[0])
      ensures forall i :: 0 <= i < |slots| && i != s ==>
                engine.slots[i] == old(engine.slots)[i] && engine.delivered[i] == old(engine.delivered)[i]
    {
      hide Concluded, SlotOk, IsReuse, Newest, Acceptable, Aged, Balanced, AfterStart, TablesOk, Speaking, AllServed;
      ghost var was, sls, del := slots, engine.slots, engine.delivered;
      var job := queue[0];
      ValidFacts();
      FreeSeat(s);
      AcceptedStarts(engine.c, job, s);
      ghost var start, kept;
      rc, start, kept := engine.Start(s, job.prompt, job.maxGen, job.snapPrefix);
      queue := queue[1..];
      var o := Occupant(job, E.SlotState(0, job.maxGen, false, []), E.Chan([], [], job.gone), Engaged);
      OccupiedUpdate(slots, s, Some(o));
      slots := slots[s := Some(o)];
      FreshTable(engine.c, o, engine.slots[s]);
      TablesUpdate(engine.c, was, sls, del, slots, engine.slots, engine.delivered, s);
    }

    /** Jobs go into free slots, in order. */
    method AdmitJobs() returns (ghost refused: bool)
      requires Valid()
      modifies this`slots, this`queue, engine
      ensures Valid() && !refused
      ensures Admitted(old(slots), old(queue), |old(slots)|, slots, queue)
      ensures forall s :: 0 <= s < |slots| && old(slots)[s].Some? ==>
                engine.slots[s] == old(engine.slots)[s] && engine.delivered[s] == old(engine.delivered)[s]
    {
      hide *;
      refused := false;
      ValidFacts();
      NoneAdmitted(slots, queue);
      ghost var n := |slots|;
      for s := 0 to |slots|
        invariant Valid() && !refused && n == |old(slots)| == |slots| == |engine.slots| == |engine.delivered|
        invariant forall i :: s <= i < n ==> slots[i] == old(slots)[i]
        invariant forall i :: 0 <= i < n && old(slots)[i].Some? ==>
          engine.slots[i] == old(engine.slots)[i] && engine.delivered[i] == old(engine.delivered)[i]
        invariant Admitted(old(slots), old(queue), s, slots, queue)
      {
        ghost var before, waiting := slots, queue;
        if slots[s].None? {
          if queue == [] {
            AdmittedRest(old(slots), old(queue), s, slots);
            break;
          }
          var rc := AdmitOne(s);
          ValidFacts();
          refused := refused || rc != 0;
        }
        AdmittedNext(old(slots), old(queue), s, before, waiting, slots, queue);
      }
    }

    // ---- delivery ----

    /** Delivers what slot `s` has; frees it when done, and cancels the engine slot when the consumer
        is gone while generation is still running. */
    method Deliver(s: nat)
      requires Base() && s < |slots| && slots[s].Some?
      requires TableOk(engine.c, slots[s], engine.slots[s], engine.delivered[s])
      modifies this`slots, this`available, this`log, engine`slots, engine`book
      ensures Base() && slots == old(slots)[s := slots[s]]
      ensures TableOk(engine.c, slots[s], engine.slots[s], engine.delivered[s])
      ensures engine.slots == old(engine.slots)[s := engine.slots[s]]
      ensures slots[s].Some? ==> engine.slots == old(engine.slots)
      ensures Flushed(old(slots[s]), slots[s]) && Accounted(old(slots), old(log), slots, log)
      ensures log == old(log) || JustHanded(old(log), log, s, old(slots[s]).value)
    {
      hide Aged, Balanced, SlotOk, Answer, E.Spoken, E.Says, Concluded, Speaking, Acceptable, Accounted;
      var o := slots[s].value;
      TableChannel(engine.c, o, engine.slots[s], engine.delivered[s]);
      var st, ch, outcome := E.FlushSlot(o.st, o.ch);
      var b := o.(st := st, ch := ch);
      if outcome != E.Closed {
        assert ch.taken + ch.buf + st.pending == ch.taken + (ch.buf + st.pending);
        assert o.ch.taken + o.ch.buf + o.st.pending == o.ch.taken + (o.ch.buf + o.st.pending);
        assert b.Produced() == o.Produced();
        Redelivered(engine.c, o, b, engine.slots[s], engine.delivered[s]);
      }
      match outcome
      case StillLive =>
        SetSlot(s, Some(b));
        SlotGoesOn(old(slots), s, b, log);
      case Drained =>
        TableChannel(engine.c, b, engine.slots[s], engine.delivered[s]);
        log := log + [Handed(s, b)];
        SetSlot(s, None);
        SlotLeft(old(slots), s, b, old(log), log);
      case Closed =>
        if !o.st.finished {
          engine.Cancel(s);
        }
        SetSlot(s, None);
        SlotLeft(old(slots), s, b, log, log);
    }

    /** Retries delivery for slots whose consumer was backed up; `active` says whether any slot still needed
        the GPU. */
    method FlushAll() returns (active: bool)
      requires Valid()
      modifies this`slots, this`available, this`log, engine`slots, engine`book
      ensures Valid() && |slots| == |old(slots)|
      ensures active <==> exists s :: Busy(old(slots), s)
      ensures forall s :: 0 <= s < |slots| ==> Flushed(old(slots)[s], slots[s])
      ensures Accounted(old(slots), old(log), slots, log)
      ensures forall s :: 0 <= s < |slots| && slots[s].Some? ==> engine.slots[s] == old(engine.slots)[s]
    {
      hide *;
      ghost var first, log1, sls1 := slots, log, engine.slots;
      active := false;
      ghost var who := 0;
      ValidFacts();
      BusyInside(slots);
      NothingMoved(slots, log);
      for s := 0 to |slots|
        invariant Valid() && |slots| == |first| == |engine.slots| == |sls1| && Accounted(first, log1, slots, log)
        invariant if active then Busy(first, who) else forall i :: 0 <= i < s ==> !Busy(first, i)
        invariant forall i :: s <= i < |slots| ==> slots[i] == first[i]
        invariant forall i :: 0 <= i < |slots| && slots[i].Some? ==> engine.slots[i] == sls1[i]
        invariant forall i :: 0 <= i < s ==> Flushed(first[i], slots[i])
      {
        FlushedNone<Engaged>();
        BusySeat(first, s);
        if slots[s].Some? {
          ghost var before, log0, sls := slots, log, engine.slots;
          if !slots[s].value.st.finished {
            active, who := true, s;
          }
          ValidFacts();
          EntryFacts(s);
          Deliver(s);
          AccountedOn(first, log1, before, log0, slots, log);
          TablesUpdate(engine.c, before, sls, engine.delivered, slots, engine.slots, engine.delivered, s);
          IsValid();
        }
      }
    }

    // ---- the engine's pieces ----

    /** handle_step for one slot: the call's tokens as one event, then Done when the finished bit is up. */
    method SpeakPiece(s: nat, ghost a: Slot, ghost before: seq<Token>)
      requires Base() && s < |slots| && slots[s].Some? && Speaking(engine.c, slots[s].value, before)
      requires |engine.out| == |engine.fin| == |slots| && engine.delivered[s] == before + engine.out[s]
      requires a.prompt == slots[s].value.job.prompt && a.maxGen == slots[s].value.job.maxGen
      requires SameRequest(a, engine.slots[s])
      requires Piece(engine.c, a, engine.slots[s], engine.delivered[s], engine.out[s], engine.fin[s])
      modifies this`slots
      ensures Base() && slots == old(slots)[s := slots[s]] && slots[s].Some?
      ensures TableOk(engine.c, slots[s], engine.slots[s], engine.delivered[s])
      ensures PieceTo(old(slots[s]).value, slots[s].value, engine.out[s], engine.fin[s])
    {
      hide Aged, Balanced, SlotOk, Answer, E.Spoken, E.Says, Piece, Speaking, Concluded, TableOk, Acceptable, PieceTo;
      var o := slots[s].value;
      var st := o.st;
      var toks := engine.out[s];
      if toks != [] {
        st := st.(emitted := st.emitted + |toks|, pending := st.pending + [E.Tokens(toks)]);
      }
      if engine.fin[s] {
        var reason := if st.emitted >= st.maxGen then E.Limit else E.Eos;
        st := st.(pending := st.pending + [E.Done(reason)], finished := true);
      }
      var b := o.(st := st);
      NotFinished(engine.c, o, before);
      assert st.pending == o.st.pending + PieceEvents(o, toks, engine.fin[s]);
      PieceSaid(engine.c, o, a, engine.slots[s], engine.delivered[s], toks, engine.fin[s], before, b);
      OccupiedUpdate(slots, s, Some(b));
      slots := slots[s := Some(b)];
    }

    method HandleSlot(s: nat, ghost a: Slot, ghost before: seq<Token>)
      requires Base() && s < |slots| == |engine.out| == |engine.fin|
      requires TableOk(engine.c, slots[s], a, before)
      requires Called(engine.c, a, before, engine.slots[s], engine.delivered[s], engine.out[s], engine.fin[s])
      modifies this`slots, this`available, this`log, engine`slots, engine`book
      ensures Base() && slots == old(slots)[s := slots[s]] && engine.slots == old(engine.slots)[s := engine.slots[s]]
      ensures slots[s].Some? ==> engine.slots == old(engine.slots)
      ensures TableOk(engine.c, slots[s], engine.slots[s], engine.delivered[s])
      ensures Accounted(old(slots), old(log), slots, log)
      ensures Handled(old(slots[s]), slots[s], engine.out[s], engine.fin[s])
      ensures log == old(log) || (Busy(old(slots), s)
                && PieceGone(old(log), log, s, old(slots[s]).value, engine.out[s], engine.fin[s]))
    {
      hide Aged, Balanced, SlotOk, Answer, E.Spoken, E.Says, Piece, Speaking, Concluded, Acceptable, Accounted, PieceTo,
           Continues,
           Flushed;
      NothingMoved(slots, log);
      if slots[s].Some? && !slots[s].value.st.finished {
        SpeakPiece(s, a, before);
        ghost var mid, b := slots, slots[s].value;
        PieceGoesOn(old(slots[s]).value, b, engine.out[s], engine.fin[s]);
        SlotGoesOn(old(slots), s, b, log);
        Deliver(s);
        AccountedOn(old(slots), old(log), mid, old(log), slots, log);
        if slots[s].Some? {
          PieceDelivered(old(slots[s]).value, b, slots[s].value, engine.out[s], engine.fin[s]);
        }
        if log != old(log) {
          PieceHanded(old(slots[s]).value, b, log[|old(log)|].occ, engine.out[s], engine.fin[s]);
        }
      }
    }

    /** handle_step: every running request's piece is turned into events and delivered as far as possible. */
    method HandleStep(ghost before: seq<Slot>, ghost delivered: seq<seq<Token>>)
      requires Base() && |slots| == |engine.out| == |engine.fin| && TablesOk(engine.c, slots, before, delivered)
      requires AllCalled(engine.c, before, engine.slots, delivered, engine.delivered, engine.out, engine.fin)
      modifies this`slots, this`available, this`log, engine`slots, engine`book
      ensures Valid() && |slots| == |old(slots)| == |engine.slots|
      ensures Accounted(old(slots), old(log), slots, log)
      ensures AllHandled(old(slots), old(log), slots, log, engine.out, engine.fin, |slots|)
      ensures forall s :: 0 <= s < |slots| && slots[s].Some? ==> engine.slots[s] == old(engine.slots)[s]
    {
      hide Aged, Balanced, SlotOk, TableOk, Called, Acceptable, Concluded, Accounted, Handled, PieceTo, AllHandled,
           Continues;
      NothingMoved(slots, log);
      NoneHandled(slots, log, engine.out, engine.fin);
      for s := 0 to |slots|
        invariant Base() && |engine.out| == |engine.fin| == |slots| == |old(slots)|
        invariant |engine.slots| == |engine.delivered| == |slots|
        invariant forall i :: s <= i < |slots| ==> slots[i] == old(slots)[i] && engine.slots[i] == old(engine.slots)[i]
        invariant forall i :: 0 <= i < s ==> TableOk(engine.c, slots[i], engine.slots[i], engine.delivered[i])
        invariant forall i :: 0 <= i < s && slots[i].Some? ==> engine.slots[i] == old(engine.slots)[i]
        invariant Accounted(old(slots), old(log), slots, log)
        invariant AllHandled(old(slots), old(log), slots, log, engine.out, engine.fin, s)
      {
        ghost var now, log0 := slots, log;
        assert Called(engine.c, before[s], delivered[s], old(engine.slots)[s], engine.delivered[s], engine.out[s],
                      engine.fin[s]);
        HandleSlot(s, before[s], delivered[s]);
        AccountedOn(old(slots), old(log), now, log0, slots, log);
        HandledNext(old(slots), old(log), now, log0, slots, log, engine.out, engine.fin, s);
      }
    }

    // ---- the loop ----

    /** Drops an unfinished request and cancels its engine slot. */
    method DropSlot(s: nat)
      requires Valid() && Busy(slots, s)
      modifies this`slots, this`available, engine`slots, engine`book
      ensures Valid() && slots == old(slots)[s := None]
    {
      hide SlotOk, Concluded, Speaking, Acceptable, Aged, Balanced, AfterCancel;
      engine.Cancel(s);
      SetSlot(s, None);
    }

    /** A failed engine call: unfinished requests are dropped and their engine slots cancelled; finished ones drain. */
    method FailAll()
      requires Valid()
      modifies this`slots, this`available, engine`slots, engine`book
      ensures Valid() && Dropped(old(slots), slots)
    {
      hide SlotOk, TableOk, Concluded, Speaking, Acceptable, Aged, Balanced;
      for s := 0 to |slots|
        invariant Valid() && |slots| == |old(slots)|
        invariant forall i :: s <= i < |slots| ==> slots[i] == old(slots)[i]
        invariant forall i :: 0 <= i < s ==> slots[i] == if Busy(old(slots), i) then None else old(slots)[i]
      {
        if slots[s].Some? && !slots[s].value.st.finished {
          DropSlot(s);
        }
      }
    }

    method CallFails() returns (bad: bool)
      requires Valid()
      modifies this`calls
      ensures Valid() && calls == old(calls) + 1 && bad == faults(old(calls))
    {
      hide Aged, Balanced, SlotOk, TableOk, AllServed, QueueOk;
      calls := calls + 1;
      bad := faults(calls - 1);
    }

    /** One engine call for everybody, and its pieces. */
    method CallEngine() returns (ghost stepped: seq<Slot>)
      requires Valid()
      modifies this`slots, this`available, this`log, engine
      ensures Valid() && |engine.out| == |engine.fin| == |slots| == |engine.slots| == |old(slots)| == |stepped|
      ensures Accounted(old(slots), old(log), slots, log)
      ensures AllHandled(old(slots), old(log), slots, log, engine.out, engine.fin, |slots|)
      ensures AllCalled(engine.c, old(engine.slots), stepped, old(engine.delivered), engine.delivered, engine.out,
                         engine.fin)
      ensures forall s :: 0 <= s < |slots| && slots[s].Some? ==> engine.slots[s] == stepped[s]
    {
      hide Aged, Balanced, SlotOk, TableOk, Piece, Concluded, Speaking, Acceptable, Accounted, AllHandled;
      ghost var before, delivered := engine.slots, engine.delivered;
      var _ := engine.StepChunk();
      stepped := engine.slots;
      HandleStep(before, delivered);
    }

    /** One iteration of the engine thread's loop. `admitted` is the table once queued jobs are in free slots, `wa`
        the work left then; `reached` is the table at the end, before unfinished requests are dropped if the engine
        call failed. */
    method Tick() returns (failed: bool, ghost admitted: Row<Engaged>, ghost reached: Row<Engaged>, ghost wa: seq<nat>)
      requires Valid()
      modifies this`slots, this`queue, this`available, this`log, this`calls, engine
      ensures Valid() && |slots| == |engine.slots| == |old(slots)| == |engine.out| == |engine.fin|
      ensures old(calls) <= calls && (failed ==> !Quiet(faults, old(calls), calls))
      ensures Admitted(old(slots), old(queue), |old(slots)|, admitted, queue)
      ensures Accounted(admitted, old(log), reached, log)
      ensures if failed then Dropped(reached, slots) else slots == reached
      ensures !failed ==> forall s :: 0 <= s < |slots| ==> Iterated(admitted[s], slots[s], engine.out[s], engine.fin[s])
      ensures !failed ==> IdleFlushed(admitted, slots) && WorkDone(admitted, wa, Works())
      ensures |old(slots)| == |old(engine.slots)| && WorkTaken(old(slots), admitted, old(Works()), wa)
    {
      hide *;
      failed := false;
      ValidFacts();
      WorksAre();
      var refused := AdmitJobs();
      ValidFacts();
      WorksAre();
      admitted, wa := slots, Works();
      ghost var sls := engine.slots;
      AdmissionWork(engine.c, old(slots), old(queue), old(engine.slots), admitted, queue, sls, engine.delivered);
      AdmittedKeeps(old(slots), old(queue), admitted, queue, 0);
      var active := FlushAll();
      ValidFacts();
      ghost var flushed, mid, was, log1 := slots, engine.slots, engine.delivered, log;
      reached := slots;
      if !active {
        IdleWork(admitted, sls, flushed, mid);
        IdleIterate(admitted, flushed, engine.out, engine.fin);
        WorksAre();
        return;
      }
      failed := CallFails();
      if failed {
        OneFault(faults, calls - 1);
        FailAll();
        ValidFacts();
        return;
      }
      ghost var stepped := CallEngine();
      reached := slots;
      ValidFacts();
      WorksAre();
      AccountedOn(admitted, old(log), flushed, log1, slots, log);
      IterateAll(admitted, flushed, slots, log1, log, engine.out, engine.fin);
      TickWork(engine.c, admitted, sls, flushed, mid, was, stepped, slots, engine.slots, engine.delivered, log1, log,
               engine.out, engine.fin);
    }

    // ---- consumers ----

    /** The consumer of slot `s` reads up to `k` events. */
    method ConsumerTakes(s: nat, k: nat)
      requires Valid() && s < |slots| && slots[s].Some? && k <= |slots[s].value.ch.buf|
      modifies this`slots
      ensures Valid() && slots == old(slots)[s := slots[s]] && slots[s].Some?
      ensures slots[s].value == old(slots[s]).value.(ch := slots[s].value.ch)
      ensures slots[s].value.ch.closed == old(slots[s]).value.ch.closed
      ensures slots[s].value.ch.taken == old(slots[s]).value.ch.taken + old(slots[s]).value.ch.buf[..k]
      ensures slots[s].value.ch.buf == old(slots[s]).value.ch.buf[k..]
    {
      hide Aged, Balanced, SlotOk, Answer, E.Spoken, E.Says, Concluded, Speaking, Acceptable;
      var o := slots[s].value;
      EntryFacts(s);
      var b := o.(ch := o.ch.(taken := o.ch.taken + o.ch.buf[..k], buf := o.ch.buf[k..]));
      assert o.ch.buf == o.ch.buf[..k] + o.ch.buf[k..];
      assert b.Produced() == o.Produced();
      Redelivered(engine.c, o, b, engine.slots[s], engine.delivered[s]);
      OccupiedUpdate(slots, s, Some(b));
      slots := slots[s := Some(b)];
    }

    /** The consumer of slot `s` goes away. */
    method ConsumerCloses(s: nat)
      requires Valid() && s < |slots| && slots[s].Some?
      modifies this`slots
      ensures Valid() && slots == old(slots)[s := slots[s]]
      ensures slots[s] == Some(old(slots[s]).value.(ch := old(slots[s]).value.ch.(closed := true)))
    {
      hide Aged, Balanced, SlotOk, Answer, E.Spoken, E.Says, Concluded, Speaking, Acceptable;
      var o := slots[s].value;
      EntryFacts(s);
      var b := o.(ch := o.ch.(closed := true));
      assert b.Produced() == o.Produced();
      Redelivered(engine.c, o, b, engine.slots[s], engine.delivered[s]);
      OccupiedUpdate(slots, s, Some(b));
      slots := slots[s := Some(b)];
    }

    /** The consumers of the other slots read what they like, or go away. */
    method Bystanders(s: nat)
      requires Valid()
      modifies this`slots
      ensures Valid() && |slots| == |old(slots)| && (s < |slots| ==> slots[s] == old(slots)[s])
    {
      hide *;
      for i := 0 to |slots|
        invariant Valid() && |slots| == |old(slots)| && (s < |slots| ==> slots[s] == old(slots)[s])
      {
        if i != s && slots[i].Some? {
          var k: nat := *;
          if k <= |slots[i].value.ch.buf| {
            ConsumerTakes(i, k);
          } else {
            ConsumerCloses(i);
          }
        }
      }
    }

    /** Every consumer reads its whole channel. */
    method EveryoneReads()
      requires Valid()
      modifies this`slots
      ensures Valid() && AllReadOut(old(slots), slots) && |slots| == |old(slots)|
    {
      hide *;
      for s := 0 to |slots|
        invariant Valid() && |slots| == |old(slots)|
        invariant forall i :: 0 <= i < s ==> ReadOut(old(slots)[i], slots[i])
        invariant forall i :: s <= i < |slots| ==> slots[i] == old(slots)[i]
      {
        if slots[s].Some? {
          ConsumerTakes(s, |slots[s].value.ch.buf|);
        }
        WholeChannel(old(slots)[s], slots[s]);
      }
      AreReadOut(old(slots), slots);
    }

    /** What may happen between two iterations while the consumer of slot `s` reads: the other consumers do what they
        like, and a job may be submitted. */
    method Between(s: nat)
      requires Valid() && s < |slots| && slots[s].Some?
      modifies this`slots, this`queue, this`available
      ensures Valid() && |slots| == |old(slots)| && ReadOut(old(slots)[s], slots[s])
    {
      hide *;
      Bystanders(s);
      var more: bool := *;
      if more {
        var job: Job := *;
        if Acceptable(engine.c, job) {
          var _ := Submit(job);
        }
      }
      ConsumerTakes(s, |slots[s].value.ch.buf|);
      WholeChannel(old(slots)[s], slots[s]);
    }

    /** One round of serving the request in slot `s`. */
    method ServeTurn(s: nat, ghost first: Seat)
      requires Valid() && s < |slots| && slots[s].Some? && !slots[s].value.ch.closed && Continues(first, slots[s].value)
      requires forall k :: k >= calls ==> !faults(k)
      modifies this`slots, this`queue, this`available, this`log, this`calls, engine
      ensures Valid() && s < |slots| == |engine.slots| == |old(engine.slots)| && old(calls) <= calls && old(log) <= log
      ensures slots[s].Some? ==> Continues(first, slots[s].value)
      ensures slots[s].None? ==> exists k :: |old(log)| <= k < |log| && ServedAs(first, s, log[k])
      ensures SeatWork(slots[s], engine.slots[s]) <= SeatWork(old(slots[s]), old(engine.slots[s]))
      ensures SeatWork(slots[s], engine.slots[s]) < SeatWork(old(slots[s]), old(engine.slots[s]))
           || Unread(slots[s]) < Unread(old(slots[s]))
    {
      hide *;
      ValidFacts();
      ghost var a := slots[s];
      Between(s);
      ReadSeatWork(a, slots[s], engine.slots[s]);
      ReadSome(a, slots[s]);
      WorkAt(s);
      ghost var taken, waiting, calls0, w := slots, queue, calls, Works();
      var failed;
      ghost var admitted, reached, wa;
      failed, admitted, reached, wa := Tick();
      QuietFrom(faults, calls0, calls0, calls);
      ValidFacts();
      AdmittedKeeps(taken, waiting, admitted, queue, s);
      AccountedGrows(admitted, old(log), reached, log);
      OneTurn(first, s, a, admitted, reached, old(log), log);
      TakenAt(taken, admitted, w, wa, s);
      IterationWork(s, a, admitted, reached, w, wa, Works());
      WorkAt(s);
    }

    /** Serves the request in slot `s` to its end. No engine call fails and its consumer reads; jobs may be submitted
        at any time, and the other requests' consumers may stall or go away. The loop ends, and the consumer has
        then received the whole answer and the right Done. */
    method Serve(s: nat) returns (ghost o: Seat)
      requires Valid() && s < |slots| && slots[s].Some? && !slots[s].value.ch.closed
      requires forall k :: k >= calls ==> !faults(k)
      modifies this`slots, this`queue, this`available, this`log, this`calls, engine
      ensures Valid() && old(log) <= log
      ensures Continues(old(slots[s]).value, o) && Handed(s, o) in log[|old(log)|..]
      ensures o.job.prompt != [] && ServedRight(engine.c, o.job, o.ch.taken + o.ch.buf)
    {
      hide *;
      ValidFacts();
      ghost var first, log0, calls0 := slots[s].value, log, calls;
      ContinuesSelf(first);
      while slots[s].Some?
        invariant Valid() && s < |slots| == |engine.slots| && calls0 <= calls && log0 <= log
        invariant slots[s].Some? ==> Continues(first, slots[s].value)
        invariant slots[s].None? ==> exists k :: |log0| <= k < |log| && ServedAs(first, s, log[k])
        decreases SeatWork(slots[s], engine.slots[s]), Unread(slots[s])
      {
        SameChannel(first, slots[s].value);
        ServeTurn(s, first);
      }
      ghost var k :| |log0| <= k < |log| && ServedAs(first, s, log[k]);
      ValidFacts();
      ServedFacts(first, s, log[k]);
      SeatServed(engine.c, log, k);
      o := log[k].occ;
      assert log[|log0|..][k - |log0|] == Handed(s, o);
    }

    /** Serves everything. No engine call fails and every consumer reads: the loop ends with all slots free and the
        queue empty, and the requests handed over are those that were queued or in a slot, each of them once. */
    method RunOut()
      requires Valid() && AllOpen(slots) && NoneGone(queue)
      requires forall k :: k >= calls ==> !faults(k)
      modifies this`slots, this`queue, this`available, this`log, this`calls, engine
      ensures Valid() && queue == [] && forall s :: 0 <= s < |slots| ==> slots[s].None?
      ensures available == permits && old(log) <= log
      ensures JobsOf(log[|old(log)|..]) == JobsIn(old(slots), |old(slots)|) + multiset(old(queue))
    {
      hide *;
      ghost var log0, calls0, all := log, calls, JobsIn(slots, |slots|) + multiset(queue);
      ghost var handed: seq<Handed<Engaged>> := [];
      ValidFacts();
      NoneHanded<Engaged>();
      while queue != [] || exists i :: 0 <= i < |slots| && slots[i].Some?
        invariant Valid() && |slots| == |engine.slots| > 0 && calls0 <= calls && AllOpen(slots) && NoneGone(queue)
        invariant log == log0 + handed
        invariant JobsIn(slots, |slots|) + multiset(queue) + JobsOf(handed) == all
        decreases Total(Works(), |slots|) + QueueWork(queue), TotalUnread(slots, |slots|)
      {
        ghost var before, log1, q0, calls1, w := slots, log, queue, calls, Works();
        WorksAre();
        EveryoneReads();
        WorksAre();
        ReadSeatWorks(before, slots, engine.slots);
        ghost var taken := slots;
        var failed;
        ghost var admitted, reached, wa;
        failed, admitted, reached, wa := Tick();
        QuietFrom(faults, calls0, calls1, calls);
        ValidFacts();
        AccountedGrows(admitted, log1, reached, log);
        ghost var more := log[|log1|..];
        RunKeeps(before, q0, taken, admitted, queue, slots, log1, more);
        RunProgresses(before, q0, taken, admitted, queue, slots, w, wa, Works());
        JobsOfAppend(handed, more);
        handed := handed + more;
      }
      NoneLeft(slots, |slots|);
      AllPermits();
      assert log[|log0|..] == handed;
    }

    lemma AllPermits()
      requires Valid() && queue == [] && forall s :: 0 <= s < |slots| ==> slots[s].None?
      ensures available == permits
    {
      hide Aged, Balanced, SlotOk, TableOk, AllServed;
      assert OccupiedBelow(slots, |slots|) == {};
    }
  }
}
