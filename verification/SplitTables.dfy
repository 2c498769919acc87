/** The split driver's table: what happens to all its slots at once, where requests come from and where they go. */
module SplitTables {
  import opened Common
  import opened Network
  import opened Greedy
  import opened Deliveries
  import opened Events
  import opened Wire
  import opened Pipeline
  import opened Requests
  import opened SplitSlots

  // ---- the table between passes ----

  /** The slots, and both machines' halves of their states, with the tokens fed to them. */
  datatype Table = Table(slots: seq<Option<Occ>>, hm: seq<seq<LayerMem>>, wm: seq<seq<LayerMem>>, fed: seq<seq<Token>>)
  {
    predicate Sized(n: nat) { |slots| == |hm| == |wm| == |fed| == n }
  }

  ghost predicate Registered(d: Setup, snaps: seq<Option<Entry>>, hs: seq<seq<LayerMem>>, ws: seq<seq<LayerMem>>) {
    && |snaps| == |hs| == |ws|
    && forall i :: 0 <= i < |snaps| ==> EntryHolds(d, snaps[i], hs[i], ws[i])
  }

  lemma EntryAt(d: Setup, snaps: seq<Option<Entry>>, hs: seq<seq<LayerMem>>, ws: seq<seq<LayerMem>>, i: nat)
    requires Registered(d, snaps, hs, ws) && i < |snaps|
    ensures |hs| == |ws| == |snaps| && EntryHolds(d, snaps[i], hs[i], ws[i])
  {
    hide EntryHolds;
  }

  /** The age of an entry does not matter to what it holds. */
  lemma EntryTouched(d: Setup, snaps: seq<Option<Entry>>, hs: seq<seq<LayerMem>>, ws: seq<seq<LayerMem>>, i: nat,
                     e: Entry)
    requires Registered(d, snaps, hs, ws) && i < |snaps| && snaps[i].Some? && e == snaps[i].value.(lru := e.lru)
    ensures Registered(d, snaps[i := Some(e)], hs, ws)
  {
    hide BothHold;
  }

  /** Every slot of the table rests. */
  ghost predicate AllRest(d: Setup, t: Table) {
    && t.Sized(|t.slots|)
    && forall i :: 0 <= i < |t.slots| ==> RestsNow(d, t.slots[i], t.hm[i], t.wm[i], t.fed[i])
  }

  ghost predicate AllComplete(d: Setup, slots: seq<Option<Occ>>) {
    forall i :: 0 <= i < |slots| && slots[i].Some? && slots[i].value.st.finished ==> Complete(d, slots[i].value)
  }

  lemma FinishedComplete(d: Setup, so: Option<Occ>, hm: seq<LayerMem>, wm: seq<LayerMem>, h: seq<Token>)
    requires RestsNow(d, so, hm, wm, h) && so.Some? && so.value.st.finished
    ensures Complete(d, so.value)
  {
    hide FinishedRight, Resting;
  }

  predicate NoEntries(snaps: seq<Option<Entry>>) {
    forall i :: 0 <= i < |snaps| ==> snaps[i].None?
  }

  lemma VoidRegistry(d: Setup, snaps: seq<Option<Entry>>, hs: seq<seq<LayerMem>>, ws: seq<seq<LayerMem>>)
    requires |snaps| == |hs| == |ws| && NoEntries(snaps)
    ensures Registered(d, snaps, hs, ws)
  {
    hide BothHold;
  }

  // ---- the send phase ----

  /** Still the same request, and still before or after its first token. */
  ghost predicate StaysIn(a: Occ, b: Occ) {
    Continues(a, b) && (b.phase.Prefilling? <==> a.phase.Prefilling?)
  }

  /** Only busy slots may have changed, and they are still busy with the same request. */
  ghost predicate OnlyBusy(before: seq<Option<Occ>>, slots: seq<Option<Occ>>) {
    && |before| == |slots|
    && forall i :: 0 <= i < |slots| ==>
         if Busy(before, i) then Busy(slots, i) && StaysIn(before[i].value, slots[i].value) else slots[i] == before[i]
  }

  /** Part-way through the send phase: slots below `s` have their frames out, the others rest as before. */
  ghost predicate SentBelow(d: Setup, before: seq<Option<Occ>>, t: Table, sent: seq<(nat, nat)>, s: nat, shared: bool) {
    && t.Sized(|before|) && s <= |before|
    && (forall j :: 0 <= j < |sent| ==> sent[j].0 < s)
    && (forall i :: s <= i < |before| ==>
          t.slots[i] == before[i] && (Busy(before, i) ==> RestsNow(d, t.slots[i], t.hm[i], t.wm[i], t.fed[i])))
    && (forall i :: 0 <= i < s && Busy(before, i) ==>
          SentOne(d, before[i], t.slots[i], t.hm[i], t.wm[i], t.fed[i], sent, i, shared))
  }

  ghost predicate SentOne(d: Setup, before: Option<Occ>, so: Option<Occ>, hm: seq<LayerMem>, wm: seq<LayerMem>,
                          h: seq<Token>,
                          sent: seq<(nat, nat)>, i: nat, shared: bool) {
    && before.Some? && so.Some? && FliesNow(d, so, hm, wm, h) && Noted(sent, 0, i)
    && SendAdvance(before.value, so.value, shared)
  }

  /** Slot `s` sent its frames, or had none to send. */
  lemma SentNext(d: Setup, before: seq<Option<Occ>>, t: Table, u: Table, sent: seq<(nat, nat)>, more: seq<(nat, nat)>,
                 s: nat,
                 shared: bool)
    requires SentBelow(d, before, t, sent, s, shared) && s < |before| && u.Sized(|before|)
    requires sent <= more && forall j :: |sent| <= j < |more| ==> more[j].0 == s
    requires forall i :: 0 <= i < |before| && i != s ==>
      u.slots[i] == t.slots[i] && u.hm[i] == t.hm[i] && u.wm[i] == t.wm[i] && u.fed[i] == t.fed[i]
    requires Busy(before, s) ==>
      |sent| < |more| && u.slots[s].Some? && SendAdvance(before[s].value, u.slots[s].value, shared)
                                 && FliesNow(d, u.slots[s], u.hm[s], u.wm[s], u.fed[s])
    ensures SentBelow(d, before, u, more, s + 1, shared)
  {
    hide FliesNow, RestsNow, SendAdvance;
    forall i | 0 <= i < s + 1 && Busy(before, i)
      ensures SentOne(d, before[i], u.slots[i], u.hm[i], u.wm[i], u.fed[i], more, i, shared)
    {
      if i < s {
        assert SentOne(d, before[i], t.slots[i], t.hm[i], t.wm[i], t.fed[i], sent, i, shared);
        var j :| 0 <= j < |sent| && sent[j].0 == i;
        assert more[j].0 == i;
      } else {
        assert more[|sent|].0 == s;
      }
    }
  }

  /** What is known of the next slot to send for. */
  lemma Unsent(d: Setup, before: seq<Option<Occ>>, t: Table, sent: seq<(nat, nat)>, s: nat, shared: bool)
    requires SentBelow(d, before, t, sent, s, shared) && s < |before|
    ensures t.Sized(|before|) && t.slots[s] == before[s]
    ensures Busy(before, s) <==> before[s].Some? && !before[s].value.st.finished
    ensures Busy(before, s) ==> Busy(t.slots, s) && RestsNow(d, t.slots[s], t.hm[s], t.wm[s], t.fed[s])
    ensures forall j :: 0 <= j < |sent| ==> sent[j].0 < s
  {
    hide RestsNow;
  }

  // ---- frames and faults ----

  /** The frames a slot sends in a pass in which nothing fails: its token, or one chunk of its prompt, or two if it is
      alone and the first one does not reach the end (or a boundary whose snapshot is due). */
  function FramesOf(so: Option<Occ>, shared: bool): nat {
    if so.None? || so.value.st.finished then 0
    else
      match so.value.phase
      case Decoding(_, _, _) => 1
      case Prefilling(done, _, snapAt, snapped, _, _, _) =>
        var stop := if snapAt > 0 && !snapped then snapAt else |so.value.job.prompt|;
        if !shared && done + ChunkCap(shared) < stop then 2 else 1
  }

  function FramesDue(slots: seq<Option<Occ>>, n: nat, shared: bool): nat
    requires n <= |slots|
  {
    if n == 0 then 0 else FramesDue(slots, n - 1, shared) + FramesOf(slots[n - 1], shared)
  }

  lemma {:induction false} DueGrows(slots: seq<Option<Occ>>, m: nat, n: nat, shared: bool)
    requires m <= n <= |slots|
    ensures FramesDue(slots, m, shared) <= FramesDue(slots, n, shared)
  {
    hide FramesOf;
    if m < n {
      DueGrows(slots, m, n - 1, shared);
    }
  }

  lemma NothingDue(slots: seq<Option<Occ>>, shared: bool)
    ensures FramesDue(slots, 0, shared) == 0
  {
  }

  lemma DueNext(slots: seq<Option<Occ>>, n: nat, shared: bool)
    requires n < |slots|
    ensures FramesDue(slots, n + 1, shared) == FramesDue(slots, n, shared) + FramesOf(slots[n], shared)
    ensures FramesOf(slots[n], shared) <= if Busy(slots, n) then Bursts(shared) else 0
  {
  }

  /** A second chunk is sent exactly when the first one leaves something to send. */
  lemma SecondChunk(d: Setup, o: Occ, shared: bool)
    requires Unfinished(d, o) && o.phase.Prefilling? && o.phase.done <= |o.job.prompt|
    requires o.phase.snapAt > 0 && !o.phase.snapped ==> o.phase.done <= o.phase.snapAt <= |o.job.prompt|
    requires ChunkLength(o, shared) > 0
    ensures ChunkLength(o, false) > 0
    ensures var b := Cut(o, ChunkLength(o, false));
      && b.phase.done <= |b.job.prompt|
      && (b.phase.snapAt > 0 && !b.phase.snapped ==> b.phase.done <= b.phase.snapAt <= |b.job.prompt|)
      && FramesOf(Some(o), false) == 1 + (if ChunkLength(b, false) > 0 then 1 else 0)
    ensures FramesOf(Some(o), true) == 1
  {
  }

  /** One chunk, or two, and the cursor has moved as a pass may move it. */
  lemma ChunksAdvance(d: Setup, a: Occ, shared: bool)
    requires Unfinished(d, a) && a.phase.Prefilling? && a.phase.done <= |a.job.prompt|
    requires a.phase.snapAt > 0 && !a.phase.snapped ==> a.phase.done <= a.phase.snapAt <= |a.job.prompt|
    requires ChunkLength(a, shared) > 0
    ensures StaysIn(a, a) && var b := Cut(a, ChunkLength(a, shared)); StaysIn(a, b) && SendAdvance(a, b, shared)
  {
    hide Unfinished;
    ContinuesSelf(a);
    PhaseOnly(a, Cut(a, ChunkLength(a, shared)));
  }

  lemma SecondAdvance(d: Setup, a: Occ)
    requires Unfinished(d, a) && a.phase.Prefilling? && a.phase.done <= |a.job.prompt|
    requires a.phase.snapAt > 0 && !a.phase.snapped ==> a.phase.done <= a.phase.snapAt <= |a.job.prompt|
    requires ChunkLength(a, false) > 0
    ensures var b := Cut(a, ChunkLength(a, false));
      && b.phase.done <= |b.job.prompt|
      && (b.phase.snapAt > 0 && !b.phase.snapped ==> b.phase.done <= b.phase.snapAt <= |b.job.prompt|)
      && var c := Cut(b, ChunkLength(b, false)); StaysIn(a, c) && SendAdvance(a, c, false)
  {
    hide Unfinished;
    var b := Cut(a, ChunkLength(a, false));
    PhaseOnly(a, Cut(b, ChunkLength(b, false)));
  }

  /** The number of the head operation of frame `j` of a send phase that begins with operation `from`: a remote frame
      takes two operations, the head's and the link's. */
  function FrameOp(d: Setup, from: nat, j: nat): nat { if d.remote then from + 2 * j else from + j }

  /** The head fails on frame `j`, and nothing fails before. */
  predicate HeadFailsOn(d: Setup, faults: nat -> bool, from: nat, j: nat) {
    Quiet(faults, from, FrameOp(d, from, j)) && faults(FrameOp(d, from, j))
  }

  /** `n` of `due` frames were sent from operation `from` up to `to`: all of them, or those before the first failure,
      which was the head's or the link's. */
  predicate SentUpTo(d: Setup, faults: nat -> bool, from: nat, to: nat, n: nat, due: nat, ok: bool, headFault: bool) {
    && Quiet(faults, from, FrameOp(d, from, n))
    && if ok then n == due && to == FrameOp(d, from, n) && !headFault
       else
         && n < due && headFault == faults(FrameOp(d, from, n))
         && to == FrameOp(d, from, n) + (if headFault then 1 else 2)
         && (!headFault ==> d.remote && faults(FrameOp(d, from, n) + 1))
  }

  lemma SentFacts(d: Setup, faults: nat -> bool, from: nat, to: nat, n: nat, due: nat, ok: bool, headFault: bool)
    requires SentUpTo(d, faults, from, to, n, due, ok, headFault)
    ensures from <= to && ok == Quiet(faults, from, to) && n <= due && (ok ==> !headFault)
  {
  }

  lemma SentNone(d: Setup, faults: nat -> bool, from: nat)
    ensures SentUpTo(d, faults, from, from, 0, 0, true, false)
  {
  }

  /** One frame: the head's operation, and the link's if there is one. */
  lemma SentOneFrame(d: Setup, faults: nat -> bool, from: nat, to: nat, ok: bool, headFault: bool)
    requires ok == Quiet(faults, from, to) && headFault == faults(from)
    requires to == from + (if d.remote && !headFault then 2 else 1) && (!ok ==> d.remote || headFault)
    ensures SentUpTo(d, faults, from, to, if ok then 1 else 0, 1, ok, headFault)
  {
  }

  lemma SentOn(d: Setup, faults: nat -> bool, from: nat, mid: nat, to: nat, m: nat, n: nat, due0: nat, due1: nat,
               ok: bool, headFault: bool)
    requires SentUpTo(d, faults, from, mid, m, due0, true, false)
    requires SentUpTo(d, faults, mid, to, n, due1, ok, headFault)
    ensures SentUpTo(d, faults, from, to, m + n, due0 + due1, ok, headFault)
  {
    QuietJoin(faults, from, mid, FrameOp(d, mid, n));
  }

  lemma MoreDue(d: Setup, faults: nat -> bool, from: nat, to: nat, n: nat, due: nat, more: nat, headFault: bool)
    requires SentUpTo(d, faults, from, to, n, due, false, headFault) && due <= more
    ensures SentUpTo(d, faults, from, to, n, more, false, headFault)
  {
  }

  /** Replies will be left behind by a pass that begins with operation `from`: the worker is remote, and the first
      operation of the send phase to fail is the head's on some frame but the first. */
  ghost predicate LeavesBehind(d: Setup, faults: nat -> bool, from: nat, slots: seq<Option<Occ>>, shared: bool) {
    d.remote && exists j :: 0 < j < FramesDue(slots, |slots|, shared) && HeadFailsOn(d, faults, from, j)
  }

  /** What the send phase did decides it. */
  lemma LeftBehindIff(d: Setup, faults: nat -> bool, from: nat, to: nat, n: nat, slots: seq<Option<Occ>>,
                      shared: bool, ok: bool, headFault: bool)
    requires SentUpTo(d, faults, from, to, n, FramesDue(slots, |slots|, shared), ok, headFault)
    ensures LeavesBehind(d, faults, from, slots, shared) <==> d.remote && !ok && headFault && n > 0
    ensures headFault ==> HeadFailsOn(d, faults, from, n)
  {
    hide FramesDue;
    if d.remote && !ok && headFault && n > 0 {
      assert HeadFailsOn(d, faults, from, n);
    }
    forall j | 0 < j < FramesDue(slots, |slots|, shared) && d.remote && HeadFailsOn(d, faults, from, j)
      ensures !ok && headFault && n == j
    {
    }
  }

  /** The replies owed answer frames of this table's requests, which were busy in `before`. */
  ghost predicate OrphansOf(d: Setup, before: seq<Option<Occ>>, slots: seq<Option<Occ>>, owed: seq<Reply>) {
    && OnlyBusy(before, slots)
    && exists sent: seq<(nat, nat)>, ends: seq<nat> :: Sending(d, slots, sent, ends, owed)
  }

  lemma AreOrphans(d: Setup, before: seq<Option<Occ>>, slots: seq<Option<Occ>>, sent: seq<(nat, nat)>,
                   ends: seq<nat>, owed: seq<Reply>)
    requires OnlyBusy(before, slots) && Sending(d, slots, sent, ends, owed)
    ensures OrphansOf(d, before, slots, owed)
  {
    hide Sending;
  }

  lemma NoneSentYet(d: Setup, t: Table, shared: bool)
    requires t.Sized(|t.slots|)
    requires forall i :: 0 <= i < |t.slots| ==> RestsNow(d, t.slots[i], t.hm[i], t.wm[i], t.fed[i])
    ensures SentBelow(d, t.slots, t, [], 0, shared) && OnlyBusy(t.slots, t.slots)
    ensures BusyBelow(t.slots, 0) == {}
  {
    hide RestsNow;
  }

  lemma OnlyBusyNext(before: seq<Option<Occ>>, a: seq<Option<Occ>>, b: seq<Option<Occ>>, s: nat)
    requires OnlyBusy(before, a) && |a| == |b| && s < |a| && Busy(a, s) && Busy(b, s) && b == a[s := b[s]]
    requires StaysIn(a[s].value, b[s].value)
    ensures OnlyBusy(before, b)
  {
    hide Continues;
    assert Busy(before, s);
    ContinuesOn(before[s].value, a[s].value, b[s].value);
  }

  ghost predicate AllNoted(slots: seq<Option<Occ>>, sent: seq<(nat, nat)>) {
    forall i :: 0 <= i < |slots| && Busy(slots, i) ==> Noted(sent, 0, i)
  }

  /** Every occupied slot is ready for the replies listed in `rest`. */
  ghost predicate AllArrive(d: Setup, t: Table, rest: seq<(nat, nat)>) {
    && t.Sized(|t.slots|)
    && forall i :: 0 <= i < |t.slots| && t.slots[i].Some? ==>
         && Arriving(d, t.slots[i].value, t.fed[i], Noted(rest, 0, i))
         && StateHolds(d, t.slots[i], t.hm[i], t.wm[i], t.fed[i])
  }

  /** After the send phase every slot is ready to receive. */
  lemma SentArrives(d: Setup, before: Option<Occ>, so: Option<Occ>, hm: seq<LayerMem>, wm: seq<LayerMem>,
                    h0: seq<Token>, h: seq<Token>,
                    hm0: seq<LayerMem>, wm0: seq<LayerMem>, noted: bool)
    requires RestsNow(d, before, hm0, wm0, h0) && so.Some?
    requires !(before.Some? && !before.value.st.finished) ==> so == before
    requires before.Some? && !before.value.st.finished ==> !so.value.st.finished && FliesNow(d, so, hm, wm, h) && noted
    ensures Arriving(d, so.value, h, noted) && StateHolds(d, so, hm, wm, h)
  {
    hide FinishedRight, Resting, Flying, Landed, BothHold;
  }

  lemma SentAllArrive(d: Setup, t: Table, u: Table, sent: seq<(nat, nat)>, shared: bool)
    requires AllRest(d, t) && SentBelow(d, t.slots, u, sent, |t.slots|, shared) && OnlyBusy(t.slots, u.slots)
    ensures AllArrive(d, u, sent) && AllNoted(u.slots, sent)
  {
    hide RestsNow, FliesNow, SendAdvance, Arriving, StateHolds, Noted;
    forall i | 0 <= i < |u.slots| && u.slots[i].Some?
      ensures Arriving(d, u.slots[i].value, u.fed[i], Noted(sent, 0, i))
      ensures StateHolds(d, u.slots[i], u.hm[i], u.wm[i], u.fed[i])
      ensures Busy(u.slots, i) ==> Noted(sent, 0, i)
    {
      if Busy(t.slots, i) {
        assert SentOne(d, t.slots[i], u.slots[i], u.hm[i], u.wm[i], u.fed[i], sent, i, shared);
      }
      SentArrives(d, t.slots[i], u.slots[i], u.hm[i], u.wm[i], t.fed[i], u.fed[i], t.hm[i], t.wm[i], Noted(sent, 0, i));
    }
  }

  /** A failed send phase: whoever is finished was so before. */
  lemma FinishedBefore(d: Setup, t: Table, slots: seq<Option<Occ>>)
    requires AllRest(d, t) && OnlyBusy(t.slots, slots)
    ensures AllComplete(d, slots)
  {
    hide RestsNow, Complete;
    forall i | 0 <= i < |slots| && slots[i].Some? && slots[i].value.st.finished ensures Complete(d, slots[i].value) {
      FinishedComplete(d, t.slots[i], t.hm[i], t.wm[i], t.fed[i]);
    }
  }

  // ---- the receive phase ----

  /** The receive phase: busy slots advance, the others keep still. */
  ghost predicate Received(before: seq<Option<Occ>>, slots: seq<Option<Occ>>) {
    && |before| == |slots|
    && (forall i :: 0 <= i < |slots| && slots[i].Some? && Busy(before, i) ==>
          RecvAdvance(before[i].value, slots[i].value))
  }

  ghost predicate OthersStill(before: seq<Option<Occ>>, slots: seq<Option<Occ>>) {
    && |before| == |slots|
    && forall i :: 0 <= i < |slots| && !Busy(before, i) ==> slots[i] == before[i]
  }

  /** Part-way through the receive phase. */
  ghost predicate AllStepped(first: seq<Option<Occ>>, slots: seq<Option<Occ>>, rest: seq<(nat, nat)>) {
    && |first| == |slots|
    && forall i :: 0 <= i < |slots| && slots[i].Some? && Busy(first, i) ==>
         RecvStep(first[i].value, slots[i].value, Noted(rest, 0, i))
  }

  lemma NoneStepped(slots: seq<Option<Occ>>, sent: seq<(nat, nat)>)
    requires AllNoted(slots, sent)
    ensures AllStepped(slots, slots, sent) && OthersStill(slots, slots)
  {
    hide Noted, Spoken;
  }

  lemma SteppedNext(d: Setup, first: seq<Option<Occ>>, before: seq<Option<Occ>>, rest: seq<(nat, nat)>, ends: seq<nat>,
                    rs: seq<Reply>, after: seq<Option<Occ>>)
    requires AllStepped(first, before, rest) && OthersStill(first, before)
    requires Sending(d, before, rest, ends, rs) && rest != [] && rest[0].0 < |before| == |after|
    requires after == before[rest[0].0 := after[rest[0].0]]
    requires before[rest[0].0].Some? && !before[rest[0].0].value.st.finished
    requires after[rest[0].0].Some? ==> RecvAdvance(before[rest[0].0].value, after[rest[0].0].value)
    ensures AllStepped(first, after, rest[1..]) && OthersStill(first, after)
  {
    hide Noted, Sending, RecvStep, RecvAdvance;
    forall i | 0 <= i < |after| && after[i].Some? && Busy(first, i)
      ensures RecvStep(first[i].value, after[i].value, Noted(rest[1..], 0, i))
    {
      if i != rest[0].0 {
        assert after[i] == before[i];
      }
      RecvStepNext(d, before, rest, ends, rs, i, first[i].value, after);
    }
  }

  lemma AllReceived(first: seq<Option<Occ>>, slots: seq<Option<Occ>>)
    requires AllStepped(first, slots, [])
    ensures Received(first, slots)
  {
    hide RecvAdvance;
    forall i | 0 <= i < |slots| && slots[i].Some? && Busy(first, i)
      ensures RecvAdvance(first[i].value, slots[i].value)
    {
      NothingNoted(i);
    }
  }

  lemma StillItself(slots: seq<Option<Occ>>)
    ensures OthersStill(slots, slots)
  {
  }

  lemma BothStill(a: seq<Option<Occ>>, b: seq<Option<Occ>>, c: seq<Option<Occ>>)
    requires OnlyBusy(a, b) && OthersStill(b, c)
    ensures OthersStill(a, c)
  {
    hide Continues;
  }

  // ---- the barrier, and a whole pass ----

  /** The barrier: prefilling slots move on, the others keep still. */
  ghost predicate Barriered(before: seq<Option<Occ>>, slots: seq<Option<Occ>>) {
    && |before| == |slots|
    && (forall i :: 0 <= i < |slots| && slots[i].Some? ==>
          before[i].Some? && BarrierAdvance(before[i].value, slots[i].value))
    && (forall i :: 0 <= i < |slots| && !Filling(before, i) ==> slots[i] == before[i])
  }

  lemma AreBarriered(before: seq<Option<Occ>>, slots: seq<Option<Occ>>)
    requires |before| == |slots|
    requires forall i :: 0 <= i < |slots| && !Filling(before, i) ==> slots[i] == before[i]
    requires forall i :: 0 <= i < |slots| && slots[i].Some? ==>
      before[i].Some? && BarrierAdvance(before[i].value, slots[i].value)
    ensures Barriered(before, slots)
  {
    hide BarrierAdvance, Filling;
  }

  lemma SameFilling(first: seq<Option<Occ>>, before: seq<Option<Occ>>, s: nat)
    requires s < |first| == |before| && before[s] == first[s]
    ensures Filling(before, s) <==> Filling(first, s)
  {
  }

  lemma EmptyRests(d: Setup, so: Option<Occ>, hm: seq<LayerMem>, wm: seq<LayerMem>, h: seq<Token>)
    ensures so.None? ==> RestsNow(d, so, hm, wm, h)
  {
    hide OccOk, StateHolds;
  }

  /** A whole pass: busy slots advance, the others keep still. */
  ghost predicate AllAdvance(before: seq<Option<Occ>>, slots: seq<Option<Occ>>, shared: bool) {
    && |before| == |slots|
    && forall i :: 0 <= i < |slots| ==>
         if Busy(before, i) then slots[i].Some? ==> PassAdvance(before[i].value, slots[i].value, shared)
         else slots[i] == before[i]
  }

  /** The three phases of a failure-free pass, seen by one slot. */
  lemma PhasesAdvance(a: Occ, b: Occ, c: Occ, e: Occ, shared: bool)
    requires SendAdvance(a, b, shared) && RecvAdvance(b, c) && BarrierAdvance(c, e)
    ensures PassAdvance(a, e, shared)
  {
    hide Spoken;
  }

  /** Send, receive and barrier, for all slots. */
  lemma AllPhases(d: Setup, before: seq<Option<Occ>>, u: Table, sent: seq<(nat, nat)>, c: seq<Option<Occ>>,
                  e: seq<Option<Occ>>,
                  shared: bool)
    requires SentBelow(d, before, u, sent, |before|, shared) && OnlyBusy(before, u.slots)
    requires Received(u.slots, c) && OthersStill(u.slots, c) && Barriered(c, e)
    ensures AllAdvance(before, e, shared)
  {
    hide RestsNow, FliesNow, SendAdvance, RecvAdvance, BarrierAdvance, PassAdvance, Noted;
    forall i | 0 <= i < |e|
      ensures if Busy(before, i) then e[i].Some? ==> PassAdvance(before[i].value, e[i].value, shared)
              else e[i] == before[i]
    {
      if Busy(before, i) && e[i].Some? {
        assert SentOne(d, before[i], u.slots[i], u.hm[i], u.wm[i], u.fed[i], sent, i, shared);
        PhasesAdvance(before[i].value, u.slots[i].value, c[i].value, e[i].value, shared);
      }
    }
  }

  lemma OthersAreStill(a: seq<Option<Occ>>, b: seq<Option<Occ>>, shared: bool)
    requires AllAdvance(a, b, shared)
    ensures OthersStill(a, b)
  {
    hide PassAdvance;
  }

  /** What is kept after a failed pass was there before it failed, and finished. */
  lemma DroppedRest(d: Setup, before: seq<Option<Occ>>, t: Table)
    requires Dropped(before, t.slots) && AllComplete(d, before) && t.Sized(|before|)
    ensures AllRest(d, t)
  {
    hide Complete, Resting, BothHold;
  }

  // ---- where requests go ----

  ghost predicate Logged(d: Setup, log: seq<Handed<Phase>>) {
    forall i :: 0 <= i < |log| ==> Complete(d, log[i].occ) && log[i].occ.st.pending == []
  }

  lemma OnlyBusyAccounted(before: seq<Option<Occ>>, slots: seq<Option<Occ>>, log: seq<Handed<Phase>>)
    requires OnlyBusy(before, slots)
    ensures Accounted(before, log, slots, log)
  {
    hide Continues;
    forall i | 0 <= i < |slots| && slots[i].Some?
      ensures before[i].Some? && Continues(before[i].value, slots[i].value)
    {
      if !Busy(before, i) {
        ContinuesSelf(slots[i].value);
      }
    }
  }

  // ---- the registry ----

  predicate EntryPut(before: seq<Option<Entry>>, after: seq<Option<Entry>>, i: nat, e: Option<Entry>) {
    i < |before| && after == before[i := e]
  }

  predicate Restorable(e: Option<Entry>, prompt: seq<Token>) {
    e.Some? && 8 <= |e.value.tokens| < |prompt| && e.value.tokens <= prompt
  }

  /** `len` tokens of the prompt can be restored, and no registered prefix has more. */
  predicate BestLength(snaps: seq<Option<Entry>>, prompt: seq<Token>, len: nat) {
    && (len == 0 || exists i :: 0 <= i < |snaps| && Restorable(snaps[i], prompt) && |snaps[i].value.tokens| == len)
    && forall i :: 0 <= i < |snaps| && Restorable(snaps[i], prompt) ==> |snaps[i].value.tokens| <= len
  }

  // ---- admission ----

  /** The same prefixes are registered; only their ages may differ. */
  predicate SameTokens(a: seq<Option<Entry>>, b: seq<Option<Entry>>) {
    && |a| == |b|
    && forall i :: 0 <= i < |a| ==> a[i].Some? == b[i].Some? && (a[i].Some? ==> a[i].value.tokens == b[i].value.tokens)
  }

  /** The number of the next operation once a prompt has been admitted: a restore, if there is anything to restore,
      takes the head's operation and, if that succeeds and the worker is remote, the link's. */
  function RestoreOps(d: Setup, faults: nat -> bool, snaps: seq<Option<Entry>>, prompt: seq<Token>, ops: nat): nat {
    if forall i :: 0 <= i < |snaps| ==> !Restorable(snaps[i], prompt) then ops
    else if faults(ops) || !d.remote then ops + 1
    else ops + 2
  }

  /** The same once the first `n` slots have been filled from the queue. */
  function AdmitOps(d: Setup, faults: nat -> bool, snaps: seq<Option<Entry>>, slots: seq<Option<Occ>>, q: seq<Job>,
                    ops: nat, n: nat): nat
    requires n <= |slots|
  {
    if n == 0 then ops
    else
      var k := AdmitOps(d, faults, snaps, slots, q, ops, n - 1);
      if slots[n - 1].None? && FreeBelow(slots, n - 1) < |q| then
        RestoreOps(d, faults, snaps, q[FreeBelow(slots, n - 1)].prompt, k)
      else k
  }

  lemma RestoreSame(d: Setup, faults: nat -> bool, a: seq<Option<Entry>>, b: seq<Option<Entry>>, prompt: seq<Token>,
                    ops: nat)
    requires SameTokens(a, b)
    ensures RestoreOps(d, faults, a, prompt, ops) == RestoreOps(d, faults, b, prompt, ops)
  {
    assert forall i :: 0 <= i < |a| ==> (Restorable(a[i], prompt) <==> Restorable(b[i], prompt));
  }

  lemma SameTokensOn(a: seq<Option<Entry>>, b: seq<Option<Entry>>, c: seq<Option<Entry>>)
    requires SameTokens(a, b) && SameTokens(b, c)
    ensures SameTokens(a, c)
  {
  }

  lemma AdmitOpsNone(d: Setup, faults: nat -> bool, snaps: seq<Option<Entry>>, slots: seq<Option<Occ>>, q: seq<Job>,
                     ops: nat)
    ensures AdmitOps(d, faults, snaps, slots, q, ops, 0) == ops && SameTokens(snaps, snaps) && Newcomers(slots, slots)
  {
  }

  /** Slot `s` is filled, or not. */
  lemma AdmitOpsNext(d: Setup, faults: nat -> bool, snaps0: seq<Option<Entry>>, snaps: seq<Option<Entry>>,
                     before: seq<Option<Occ>>, q0: seq<Job>, s: nat, a: seq<Option<Occ>>, qa: seq<Job>, ops: nat)
    requires Admitted(before, q0, s, a, qa) && s < |before| && SameTokens(snaps0, snaps)
    ensures before[s].None? && qa != [] ==>
      AdmitOps(d, faults, snaps0, before, q0, ops, s + 1)
      == RestoreOps(d, faults, snaps, qa[0].prompt, AdmitOps(d, faults, snaps0, before, q0, ops, s))
    ensures before[s].Some? || qa == [] ==>
      AdmitOps(d, faults, snaps0, before, q0, ops, s + 1) == AdmitOps(d, faults, snaps0, before, q0, ops, s)
  {
    hide AdmittedAt, RestoreOps, SameTokens;
    if before[s].None? && qa != [] {
      RestoreSame(d, faults, snaps0, snaps, qa[0].prompt, AdmitOps(d, faults, snaps0, before, q0, ops, s));
    }
  }

  /** With the queue empty nobody else is admitted. */
  lemma {:induction false} AdmitOpsRest(d: Setup, faults: nat -> bool, snaps: seq<Option<Entry>>,
                                        before: seq<Option<Occ>>, q0: seq<Job>, ops: nat, m: nat, n: nat)
    requires m <= n <= |before| && FreeBelow(before, m) >= |q0|
    ensures AdmitOps(d, faults, snaps, before, q0, ops, n) == AdmitOps(d, faults, snaps, before, q0, ops, m)
  {
    hide RestoreOps;
    if m < n {
      AdmitOpsRest(d, faults, snaps, before, q0, ops, m, n - 1);
      FreeGrows(before, m, n - 1);
    }
  }

  lemma QueueUsedUp(before: seq<Option<Occ>>, q0: seq<Job>, s: nat, a: seq<Option<Occ>>)
    requires Admitted(before, q0, s, a, [])
    ensures FreeBelow(before, s) >= |q0|
  {
    hide AdmittedAt;
  }

  lemma NothingToRestore(d: Setup, faults: nat -> bool, snaps: seq<Option<Entry>>, slots: seq<Option<Occ>>,
                         q: seq<Job>, ops: nat, n: nat)
    requires NoEntries(snaps) && n <= |slots|
    ensures AdmitOps(d, faults, snaps, slots, q, ops, n) == ops
  {
  }

  /** Whoever was admitted has yet to be prefilled. */
  ghost predicate Newcomers(before: seq<Option<Occ>>, after: seq<Option<Occ>>) {
    && |before| == |after|
    && forall i :: 0 <= i < |after| && before[i].None? && after[i].Some? ==> after[i].value.phase.Prefilling?
  }

  lemma NewcomersNext(before: seq<Option<Occ>>, a: seq<Option<Occ>>, b: seq<Option<Occ>>, s: nat)
    requires Newcomers(before, a) && s < |a| == |b| && b == a[s := b[s]] && b[s].Some?
    requires b[s].value.phase.Prefilling?
    ensures Newcomers(before, b)
  {
  }

  lemma AdmittedRests(d: Setup, o: Occ, start: nat)
    requires JobOk(d, o.job) && start < |o.job.prompt| && o.st == SlotState(0, o.job.maxGen, false, [])
    requires o.ch == Chan([], [], o.job.gone)
    requires o.phase.Prefilling? && o.phase.done == o.phase.reuse == start && !o.phase.snapped && o.phase.cands == []
    requires o.phase.draws == 0
    requires o.phase.snapAt > 0 ==> d.nSnaps > 0 && start < o.phase.snapAt < |o.job.prompt|
    ensures Resting(d, o, o.job.prompt[..start]) && o.Produced() == []
  {
    assert o.Produced() == [];
  }
}
