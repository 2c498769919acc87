/** Iterations of the split driver: work left, requests served, and runs to the end. */
module SplitRuns {
  import opened Common
  import opened Network
  import opened Greedy
  import opened Deliveries
  import opened Events
  import opened Wire
  import opened Pipeline
  import opened SplitSlots
  import opened SplitTables

  // ---- the work left ----

  function SlotWork(so: Option<Occ>): nat {
    if so.None? then 0 else WorkLeft(so.value)
  }

  function Works(slots: seq<Option<Occ>>): (w: seq<nat>)
    ensures |w| == |slots|
  {
    seq(|slots|, i requires 0 <= i < |slots| => SlotWork(slots[i]))
  }

  /** Every slot has no more work left than before, a busy one less. */
  ghost predicate WorkDropped(before: seq<Option<Occ>>, after: seq<Option<Occ>>) {
    && |before| == |after|
    && forall i :: 0 <= i < |after| ==> SlotWork(after[i]) + (if Busy(before, i) then 1 else 0) <= SlotWork(before[i])
  }

  lemma SlotWorkDrops(d: Setup, t: Table, u: Table, shared: bool, i: nat)
    requires AllRest(d, t) && AllRest(d, u) && AllAdvance(t.slots, u.slots, shared) && i < |t.slots|
    ensures SlotWork(u.slots[i]) + (if Busy(t.slots, i) then 1 else 0) <= SlotWork(t.slots[i])
  {
    hide WorkLeft, Complete, Resting, PassAdvance, BothHold;
    assert RestsNow(d, t.slots[i], t.hm[i], t.wm[i], t.fed[i]) && RestsNow(d, u.slots[i], u.hm[i], u.wm[i], u.fed[i]);
    if Busy(t.slots, i) {
      WorkRemains(d, t.slots[i].value, t.fed[i]);
      if u.slots[i].Some? {
        WorkDecreases(d, t.slots[i].value, u.slots[i].value, t.fed[i], u.fed[i], shared);
      }
    }
  }

  /** A pass takes work off every slot that was busy. */
  lemma PassWork(d: Setup, t: Table, u: Table, shared: bool)
    requires AllRest(d, t) && AllRest(d, u) && AllAdvance(t.slots, u.slots, shared)
    ensures WorkDropped(t.slots, u.slots)
  {
    hide RestsNow, WorkLeft, PassAdvance, Busy, SlotWork;
    forall i | 0 <= i < |t.slots|
      ensures SlotWork(u.slots[i]) + (if Busy(t.slots, i) then 1 else 0) <= SlotWork(t.slots[i])
    {
      SlotWorkDrops(d, t, u, shared, i);
    }
  }

  lemma EmptyWork(so: Option<Occ>)
    ensures so.None? ==> SlotWork(so) == 0
  {
  }

  lemma BusyHaveWork(d: Setup, t: Table)
    requires AllRest(d, t)
    ensures forall i :: 0 <= i < |t.slots| && Busy(t.slots, i) ==> SlotWork(t.slots[i]) > 0
  {
    hide Resting, BothHold, WorkLeft, Complete;
    forall i | 0 <= i < |t.slots| && Busy(t.slots, i) ensures SlotWork(t.slots[i]) > 0 {
      assert RestsNow(d, t.slots[i], t.hm[i], t.wm[i], t.fed[i]);
      WorkRemains(d, t.slots[i].value, t.fed[i]);
    }
  }

  lemma FreshWork(o: Occ, j: Job)
    requires Fresh(o, j)
    ensures WorkLeft(o) <= JobWork(j)
  {
  }

  lemma WorksDone(before: seq<Option<Occ>>, after: seq<Option<Occ>>)
    requires WorkDropped(before, after)
    ensures WorkDone(before, Works(before), Works(after))
  {
    hide SlotWork;
  }

  lemma WorksTaken(before: seq<Option<Occ>>, r: seq<Option<Occ>>, q0: seq<Job>, admitted: seq<Option<Occ>>,
                   q1: seq<Job>)
    requires AllReadOut(before, r) && Admitted(r, q0, |r|, admitted, q1)
    ensures WorkTaken(r, admitted, Works(before), Works(admitted))
  {
    hide WorkLeft;
    forall i | 0 <= i < |r|
      ensures SlotWork(admitted[i])
           <= SlotWork(before[i]) + if r[i].None? && admitted[i].Some? then JobWork(admitted[i].value.job) else 0
    {
      assert ReadOut(before[i], r[i]) && AdmittedAt(r, q0, i, admitted[i]);
      if r[i].Some? {
        ReadWork(before[i].value, r[i].value);
      } else if admitted[i].Some? {
        FreshWork(admitted[i].value, q0[FreeBelow(r, i)]);
      }
    }
  }

  lemma ReadWork(a: Occ, b: Occ)
    requires ReadOut(Some(a), Some(b))
    ensures WorkLeft(b) == WorkLeft(a)
  {
    assert b.Produced() == a.Produced();
  }

  // ---- one iteration ----

  lemma FlushedBusy(a: Option<Occ>, f: Option<Occ>)
    requires Flushed(a, f)
    ensures f.Some? ==> a.Some? && f.value.st.finished == a.value.st.finished
    ensures SlotWork(f) <= SlotWork(a)
    ensures f.None? && a.Some? && !a.value.st.finished ==> a.value.ch.closed
  {
  }

  /** Delivery adds no work either. */
  lemma FlushedWork(a: seq<Option<Occ>>, f: seq<Option<Occ>>, b: seq<Option<Occ>>, active: bool)
    requires |a| == |f| && forall i :: 0 <= i < |f| ==> Flushed(a[i], f[i])
    requires active <==> exists i :: Busy(a, i)
    requires if active then WorkDropped(f, b) else b == f
    requires forall i :: 0 <= i < |a| && Busy(a, i) ==> SlotWork(a[i]) > 0
    ensures WorkDropped(a, b)
  {
    hide Flushed, SlotWork;
    forall i | 0 <= i < |a| ensures SlotWork(b[i]) + (if Busy(a, i) then 1 else 0) <= SlotWork(a[i]) {
      FlushedBusy(a[i], f[i]);
      assert f[i].None? ==> SlotWork(f[i]) == 0 by {
        EmptyWork(f[i]);
      }
      if Busy(a, i) && active && f[i].Some? {
        assert Busy(f, i);
      }
    }
  }

  /** What one iteration does to the request in one slot. */
  ghost predicate Turned(a: Option<Occ>, b: Option<Occ>, ok: bool, shared: bool) {
    if a.None? then b.None?
    else if a.value.st.finished then Flushed(a, b)
    else ok && b.Some? ==> PassAdvance(a.value, b.value, shared)
  }

  /** A delivery retry, then a pass or nothing. */
  lemma TurnAt(a: Option<Occ>, f: Option<Occ>, b: Option<Occ>, ok: bool, shared: bool)
    requires Flushed(a, f)
    requires if f.Some? && !f.value.st.finished then ok && b.Some? ==> PassAdvance(f.value, b.value, shared) else b == f
    ensures Turned(a, b, ok, shared)
  {
    hide Spoken;
  }

  lemma TurnAll(a: seq<Option<Occ>>, f: seq<Option<Occ>>, b: seq<Option<Occ>>, active: bool, ok: bool, shared: bool)
    requires |a| == |f| && forall i :: 0 <= i < |f| ==> Flushed(a[i], f[i])
    requires active <==> exists i :: Busy(a, i)
    requires if active then OthersStill(f, b) && (ok ==> AllAdvance(f, b, shared)) else b == f
    ensures |a| == |b| && forall i :: 0 <= i < |b| ==> Turned(a[i], b[i], ok, shared)
  {
    hide Flushed, PassAdvance, Turned;
    forall i | 0 <= i < |b| ensures Turned(a[i], b[i], ok, shared) {
      FlushedBusy(a[i], f[i]);
      assert Busy(f, i) ==> Busy(a, i);
      TurnAt(a[i], f[i], b[i], ok, shared);
    }
  }

  /** When nobody was busy before delivery, nobody sends after it. */
  lemma NobodySends(d: Setup, faults: nat -> bool, from: nat, a: seq<Option<Occ>>, f: seq<Option<Occ>>, shared: bool)
    requires |a| == |f| && (forall i :: 0 <= i < |f| ==> Flushed(a[i], f[i])) && !(exists i :: Busy(a, i))
    ensures !LeavesBehind(d, faults, from, f, shared)
  {
    hide Flushed, FramesOf, HeadFailsOn;
    forall i | 0 <= i < |f| ensures !Busy(f, i) {
      FlushedBusy(a[i], f[i]);
      assert !Busy(a, i);
    }
    IdleDue(f, |f|, shared);
  }

  lemma {:induction false} IdleDue(slots: seq<Option<Occ>>, n: nat, shared: bool)
    requires n <= |slots| && forall i :: 0 <= i < n ==> !Busy(slots, i)
    ensures FramesDue(slots, n, shared) == 0
  {
    if n > 0 {
      IdleDue(slots, n - 1, shared);
      DueNext(slots, n - 1, shared);
    }
  }

  // ---- serving one request ----

  /** One iteration without a failure: there is less work left in slot `s`, or fewer events are unread. */
  lemma OneTurnWork(s: nat, a: Option<Occ>, admitted: seq<Option<Occ>>, reached: seq<Option<Occ>>, shared: bool)
    requires s < |admitted| == |reached| && a.Some? && ReadOut(a, admitted[s])
    requires Turned(admitted[s], reached[s], true, shared) && WorkDropped(admitted, reached)
    ensures SlotWork(reached[s]) <= SlotWork(a)
    ensures SlotWork(reached[s]) < SlotWork(a) || Unread(reached[s]) < Unread(a)
  {
    hide PassAdvance, Flushed, WorkLeft;
    ReadWork(a.value, admitted[s].value);
    if a.value.st.finished {
      UnreadDrops(a, admitted[s], reached[s]);
    } else {
      assert Busy(admitted, s);
    }
  }

  lemma LoggedRight(d: Setup, log: seq<Handed<Phase>>, k: nat)
    requires Logged(d, log) && k < |log|
    ensures log[k].occ.job.prompt != []
    ensures exists reason :: FinishedRight(d, log[k].occ.job, log[k].occ.ch.taken + log[k].occ.ch.buf, reason)
  {
    hide FinishedRight;
    var o := log[k].occ;
    assert o.Produced() == o.ch.taken + o.ch.buf;
    var reason :| FinishedRight(d, o.job, o.Produced(), reason);
    assert FinishedRight(d, o.job, o.ch.taken + o.ch.buf, reason);
  }

  lemma TurnedIdle(admitted: seq<Option<Occ>>, reached: seq<Option<Occ>>, shared: bool)
    requires |admitted| == |reached| && forall i :: 0 <= i < |admitted| ==>
      Turned(admitted[i], reached[i], true, shared)
    ensures IdleFlushed(admitted, reached)
  {
    hide PassAdvance;
    forall i | 0 <= i < |admitted| && !Busy(admitted, i) ensures Flushed(admitted[i], reached[i]) {
      assert Turned(admitted[i], reached[i], true, shared);
    }
  }

  // ---- a reply left behind ----

  lemma StillFilling(slots: seq<Option<Occ>>, a: Occ, n: nat)
    requires slots != [] && a.phase.Prefilling? && !a.st.finished && slots[0] == Some(Cut(a, n))
    ensures Filling(slots, 0) && Busy(slots, 0) && slots[0].value.phase.Prefilling? && slots[0].value.job == a.job
  {
  }

  /** The request in slot 0 has recorded another one's reply. */
  lemma ReplyTaken(d: Setup, slots: seq<Option<Occ>>, o: Occ, b: Occ, n: nat, r: Reply, j: Job, own: Reply)
    requires o.phase.Prefilling? && Fresh(o, j) && b == Cut(o, n) && r.ids != [] && slots != []
    requires slots[0] == Some(WithReply(b, r)) && (j.greedy ==> o.phase.cands == [])
    requires Matches(d, b, b.phase.done, own) && 0 < n && o.phase.done + n <= |j.prompt|
    ensures Filling(slots, 0) && Fresh(slots[0].value, j) && 0 < slots[0].value.phase.done <= |j.prompt|
    ensures slots[0].value.phase.lastId == Some(r.ids[|r.ids| - 1])
    ensures j.greedy ==> slots[0].value.phase.cands == r.cands
    ensures Matches(d, slots[0].value, slots[0].value.phase.done, own)
  {
    hide Next, Candidates;
  }
}
