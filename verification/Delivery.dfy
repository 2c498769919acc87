/** Requests in slots: what is delivered of them, where they come from and where they go. Both engine threads keep
    their requests this way; `P` is what each of them knows of a request besides. */
module Deliveries {
  import opened Common
  import opened Network
  import opened Events

  /** A submitted request; `gone` says that its consumer has left by the time it is admitted. */
  datatype Job = Job(prompt: seq<Token>, maxGen: nat, snapPrefix: nat, greedy: bool, seed: nat, gone: bool)

  /** An occupied slot: request, delivery state, consumer channel, and how far it has got. */
  datatype Occupant<P> = Occupant(job: Job, st: SlotState, ch: Chan, phase: P)
  {
    /** Every event produced for the request so far, delivered or not. */
    function Produced(): seq<SlotEvent> { ch.taken + ch.buf + st.pending }

    function Said(): seq<Token> { Spoken(Produced()) }
  }

  type Row<P> = seq<Option<Occupant<P>>>

  // ---- faults ----

  /** No operation numbered from `a` up to `b` fails. */
  predicate Quiet(faults: nat -> bool, a: nat, b: nat) {
    forall k :: a <= k < b ==> !faults(k)
  }

  lemma QuietJoin(faults: nat -> bool, a: nat, b: nat, c: nat)
    requires a <= b <= c
    ensures Quiet(faults, a, c) <==> Quiet(faults, a, b) && Quiet(faults, b, c)
  {
  }

  lemma OneFault(faults: nat -> bool, a: nat)
    requires faults(a)
    ensures !Quiet(faults, a, a + 1)
  {
  }

  lemma QuietNone(faults: nat -> bool, a: nat)
    ensures Quiet(faults, a, a)
  {
  }

  lemma QuietFrom(faults: nat -> bool, from: nat, a: nat, b: nat)
    requires from <= a && forall k :: k >= from ==> !faults(k)
    ensures Quiet(faults, a, b)
  {
  }

  // ---- what goes on ----

  /** The same request later on: what was produced and read for it stays, and more may follow. */
  ghost predicate Continues<P>(a: Occupant<P>, b: Occupant<P>) {
    b.job == a.job && b.ch.closed == a.ch.closed && a.ch.taken <= b.ch.taken && a.Produced() <= b.Produced()
  }

  lemma ContinuesSelf<P>(o: Occupant<P>)
    ensures Continues(o, o)
  {
  }

  lemma ContinuesOn<P>(a: Occupant<P>, b: Occupant<P>, c: Occupant<P>)
    requires Continues(a, b) && Continues(b, c)
    ensures Continues(a, c)
  {
  }

  lemma SameChannel<P>(a: Occupant<P>, b: Occupant<P>)
    requires Continues(a, b)
    ensures b.job == a.job && b.ch.closed == a.ch.closed
  {
  }

  /** Events appended by a sample leave the earlier ones where they are. */
  lemma SampledOn<P>(o: Occupant<P>, b: Occupant<P>)
    requires b.job == o.job && b.ch == o.ch && o.st.pending <= b.st.pending
    ensures Continues(o, b)
  {
    assert b.Produced() == o.Produced() + b.st.pending[|o.st.pending|..];
  }

  lemma PhaseOnly<P>(o: Occupant<P>, b: Occupant<P>)
    requires b == o.(phase := b.phase)
    ensures Continues(o, b)
  {
    assert b.Produced() == o.Produced();
  }

  /** What a retried delivery does to one slot: it frees it when all is handed over or the consumer is gone; a
      request that stays has its events in order, and a full channel if some of them still wait. */
  ghost predicate Flushed<P>(a: Option<Occupant<P>>, b: Option<Occupant<P>>) {
    if a.None? then b.None?
    else if b.None? then a.value.ch.closed || a.value.st.finished
    else
      && b.value == a.value.(st := b.value.st, ch := b.value.ch)
      && b.value.st == a.value.st.(pending := b.value.st.pending)
      && b.value.ch == a.value.ch.(buf := b.value.ch.buf)
      && b.value.Produced() == a.value.Produced() && |b.value.st.pending| <= |a.value.st.pending|
      && (b.value.st.pending != [] ==> |b.value.ch.buf| == CHANNEL_CAP)
      && (b.value.st.finished ==> b.value.st.pending != [])
  }

  lemma FlushedNone<P>()
    ensures Flushed<P>(None, None)
  {
  }

  lemma FlushedFacts<P>(a: Occupant<P>, b: Occupant<P>)
    requires Flushed(Some(a), Some(b))
    ensures b == a.(st := b.st, ch := b.ch) && b.st == a.st.(pending := b.st.pending) && b.Produced() == a.Produced()
  {
  }

  // ---- occupied and busy slots ----

  /** Slot `i` holds a request that is not finished. */
  predicate Busy<P>(slots: Row<P>, i: nat) {
    i < |slots| && slots[i].Some? && !slots[i].value.st.finished
  }

  function BusyBelow<P>(slots: Row<P>, n: nat): set<nat>
    requires n <= |slots|
  {
    set i: nat | i < n && Busy(slots, i)
  }

  function OccupiedBelow<P>(slots: Row<P>, n: nat): set<nat>
    requires n <= |slots|
  {
    set i: nat | i < n && slots[i].Some?
  }

  lemma BusyCount<P>(slots: Row<P>, n: nat)
    requires n < |slots|
    ensures |BusyBelow(slots, n + 1)| == |BusyBelow(slots, n)| + if Busy(slots, n) then 1 else 0
  {
    assert BusyBelow(slots, n + 1) == BusyBelow(slots, n) + if Busy(slots, n) then {n} else {};
  }

  lemma SubsetCount<T>(a: set<T>, b: set<T>)
    requires a <= b
    ensures |a| <= |b|
  {
    if a != {} {
      var x :| x in a;
      SubsetCount(a - {x}, b - {x});
    }
  }

  lemma BusyGrows<P>(slots: Row<P>, m: nat, n: nat)
    requires m <= n <= |slots|
    ensures |BusyBelow(slots, m)| <= |BusyBelow(slots, n)|
  {
    SubsetCount(BusyBelow(slots, m), BusyBelow(slots, n));
  }

  lemma BusyAreOccupied<P>(slots: Row<P>)
    ensures |BusyBelow(slots, |slots|)| <= |OccupiedBelow(slots, |slots|)|
  {
    SubsetCount(BusyBelow(slots, |slots|), OccupiedBelow(slots, |slots|));
  }

  lemma BusyMember<P>(slots: Row<P>, i: nat)
    requires Busy(slots, i)
    ensures |BusyBelow(slots, |slots|)| > 0
  {
    assert i in BusyBelow(slots, |slots|);
  }

  /** Busy slots dropped, the others as they were. */
  ghost predicate Dropped<P>(before: Row<P>, slots: Row<P>) {
    && |before| == |slots|
    && forall i :: 0 <= i < |slots| ==> slots[i] == if Busy(before, i) then None else before[i]
  }

  // ---- where requests go ----

  /** A request all of whose events were handed over, and the slot it had. */
  datatype Handed<P> = Handed(slot: nat, occ: Occupant<P>)

  /** The request that left slot `i` was handed over: it is in the log, at or after `from`. */
  ghost predicate InLog<P>(log: seq<Handed<P>>, from: nat, i: nat) {
    exists k :: from <= k < |log| && log[k].slot == i
  }

  /** Entry `e` is the request that was in its slot, finished, with nothing left to hand over. */
  ghost predicate HandedFrom<P>(before: Row<P>, after: Row<P>, e: Handed<P>) {
    && e.slot < |before| == |after| && before[e.slot].Some? && after[e.slot].None?
    && Continues(before[e.slot].value, e.occ) && e.occ.st.finished && e.occ.st.pending == []
  }

  /** Nothing is lost and nothing made up: a slot's request is still there, or was handed over, or its consumer is
      gone; and each request handed over is that of one emptied slot. */
  ghost predicate Accounted<P>(before: Row<P>, log0: seq<Handed<P>>, after: Row<P>, log1: seq<Handed<P>>) {
    && |before| == |after| && log0 <= log1
    && (forall i :: 0 <= i < |after| && after[i].Some? ==>
          before[i].Some? && Continues(before[i].value, after[i].value))
    && (forall i :: 0 <= i < |after| && before[i].Some? && after[i].None? && !before[i].value.ch.closed ==>
          InLog(log1, |log0|, i))
    && (forall k :: |log0| <= k < |log1| ==> HandedFrom(before, after, log1[k]))
    && (forall k, l :: |log0| <= k < l < |log1| ==> log1[k].slot != log1[l].slot)
  }

  lemma NothingMoved<P>(slots: Row<P>, log: seq<Handed<P>>)
    ensures Accounted(slots, log, slots, log)
  {
  }

  lemma AccountedOn<P>(a: Row<P>, log0: seq<Handed<P>>, b: Row<P>, log1: seq<Handed<P>>,
                    c: Row<P>, log2: seq<Handed<P>>)
    requires Accounted(a, log0, b, log1) && Accounted(b, log1, c, log2)
    ensures Accounted(a, log0, c, log2)
  {
    hide Continues;
    forall i | 0 <= i < |c| && c[i].Some? ensures a[i].Some? && Continues(a[i].value, c[i].value) {
      ContinuesOn(a[i].value, b[i].value, c[i].value);
    }
    forall i | 0 <= i < |c| && a[i].Some? && c[i].None? && !a[i].value.ch.closed ensures InLog(log2, |log0|, i) {
      if b[i].Some? {
        SameChannel(a[i].value, b[i].value);
        var k :| |log1| <= k < |log2| && log2[k].slot == i;
      } else {
        var k :| |log0| <= k < |log1| && log1[k].slot == i;
        assert log2[k] == log1[k];
      }
    }
    forall k | |log0| <= k < |log2| ensures HandedFrom(a, c, log2[k]) {
      if k < |log1| {
        assert log2[k] == log1[k] && HandedFrom(a, b, log1[k]);
      } else {
        assert HandedFrom(b, c, log2[k]);
        ContinuesOn(a[log2[k].slot].value, b[log2[k].slot].value, log2[k].occ);
      }
    }
    forall k, l | |log0| <= k < l < |log2| ensures log2[k].slot != log2[l].slot {
      if k < |log1| <= l {
        assert HandedFrom(a, b, log1[k]) && HandedFrom(b, c, log2[l]);
        assert log2[k] == log1[k];
      } else if l < |log1| {
        assert log2[k] == log1[k] && log2[l] == log1[l];
      }
    }
  }

  lemma AccountedGrows<P>(before: Row<P>, log0: seq<Handed<P>>, after: Row<P>, log1: seq<Handed<P>>)
    requires Accounted(before, log0, after, log1)
    ensures |before| == |after| && log0 <= log1 && log1 == log0 + log1[|log0|..]
  {
    hide Continues, HandedFrom, InLog;
  }

  /** One slot's request goes on. */
  lemma SlotGoesOn<P>(before: Row<P>, s: nat, b: Occupant<P>, log: seq<Handed<P>>)
    requires s < |before| && before[s].Some? && Continues(before[s].value, b)
    ensures Accounted(before, log, before[s := Some(b)], log)
  {
    hide Continues;
    forall i | 0 <= i < |before| && before[i].Some? ensures Continues(before[i].value, before[i].value) {
      ContinuesSelf(before[i].value);
    }
  }

  /** One slot is emptied: its request has been handed over as `b`, or its consumer is gone. */
  lemma SlotLeft<P>(before: Row<P>, s: nat, b: Occupant<P>, log0: seq<Handed<P>>, log1: seq<Handed<P>>)
    requires s < |before| && before[s].Some?
    requires if log1 == log0 then before[s].value.ch.closed
             else log1 == log0 + [Handed(s, b)] && Continues(before[s].value, b) && b.st.finished && b.st.pending == []
    ensures Accounted(before, log0, before[s := None], log1)
  {
    hide Continues;
    forall i | 0 <= i < |before| && before[i].Some? ensures Continues(before[i].value, before[i].value) {
      ContinuesSelf(before[i].value);
    }
    if log1 != log0 {
      assert log1[|log0|].slot == s;
    }
  }

  // ---- admission ----

  /** A request just admitted for job `j`: nothing produced yet. */
  ghost predicate Fresh<P>(o: Occupant<P>, j: Job) {
    o.job == j && o.st == SlotState(0, j.maxGen, false, []) && o.ch == Chan([], [], j.gone)
  }

  function FreeBelow<P>(slots: Row<P>, n: nat): nat
    requires n <= |slots|
  {
    if n == 0 then 0 else FreeBelow(slots, n - 1) + if slots[n - 1].None? then 1 else 0
  }

  /** The free slots below `n` took the first queued jobs, in order; the occupied ones are untouched. */
  ghost predicate AdmittedAt<P>(before: Row<P>, q0: seq<Job>, i: nat, so: Option<Occupant<P>>)
    requires i < |before|
  {
    if before[i].Some? then so == before[i]
    else if FreeBelow(before, i) < |q0| then so.Some? && Fresh(so.value, q0[FreeBelow(before, i)])
    else so.None?
  }

  /** The queue once the first `n` slots have been filled. */
  function Waiting<P>(before: Row<P>, q0: seq<Job>, n: nat): seq<Job>
    requires n <= |before|
  {
    q0[Min(FreeBelow(before, n), |q0|)..]
  }

  ghost predicate Admitted<P>(before: Row<P>, q0: seq<Job>, n: nat, after: Row<P>, q1: seq<Job>) {
    && n <= |before| == |after|
    && (forall i :: 0 <= i < n ==> AdmittedAt(before, q0, i, after[i]))
    && (forall i :: n <= i < |after| ==> after[i] == before[i])
    && q1 == Waiting(before, q0, n)
  }

  lemma NoneAdmitted<P>(slots: Row<P>, q: seq<Job>)
    ensures Admitted(slots, q, 0, slots, q)
  {
  }

  lemma {:induction false} FreeGrows<P>(slots: Row<P>, m: nat, n: nat)
    requires m <= n <= |slots|
    ensures FreeBelow(slots, m) <= FreeBelow(slots, n)
  {
    if m < n {
      FreeGrows(slots, m, n - 1);
    }
  }

  /** With the queue empty the remaining free slots stay free. */
  lemma AdmittedRest<P>(before: Row<P>, q0: seq<Job>, s: nat, after: Row<P>)
    requires Admitted(before, q0, s, after, [])
    ensures Admitted(before, q0, |before|, after, [])
  {
    hide Fresh;
    forall i | s <= i <= |before| ensures |q0| <= FreeBelow(before, i) {
      FreeGrows(before, s, i);
    }
  }

  lemma AdmittedNext<P>(before: Row<P>, q0: seq<Job>, s: nat, a: Row<P>, qa: seq<Job>,
                     b: Row<P>, qb: seq<Job>)
    requires Admitted(before, q0, s, a, qa) && s < |before|
    requires if before[s].Some? then b == a && qb == qa
             else qa != [] && qb == qa[1..] && |b| == |a| && b == a[s := b[s]] && b[s].Some? && Fresh(b[s].value, qa[0])
    ensures Admitted(before, q0, s + 1, b, qb)
  {
    hide Fresh;
  }

  lemma AdmittedKeeps<P>(before: Row<P>, q0: seq<Job>, after: Row<P>, q1: seq<Job>, s: nat)
    requires Admitted(before, q0, |before|, after, q1) && s < |before|
    ensures |after| == |before| && (before[s].Some? ==> after[s] == before[s])
  {
    hide Fresh;
    assert AdmittedAt(before, q0, s, after[s]);
  }

  // ---- reading ----

  /** Events a consumer has yet to read, those not even in its channel counted twice. */
  function Unread<P>(so: Option<Occupant<P>>): nat {
    if so.None? then 0 else 1 + 2 * |so.value.st.pending| + |so.value.ch.buf|
  }

  /** The consumer has read its whole channel. */
  ghost predicate ReadOut<P>(a: Option<Occupant<P>>, b: Option<Occupant<P>>) {
    if a.None? then b.None?
    else b == Some(a.value.(ch := Chan(a.value.ch.taken + a.value.ch.buf, [], a.value.ch.closed)))
  }

  lemma ReadContinues<P>(a: Occupant<P>, b: Occupant<P>)
    requires ReadOut(Some(a), Some(b))
    ensures Continues(a, b) && b.Produced() == a.Produced()
  {
    assert b.Produced() == a.Produced();
  }

  lemma ReadSome<P>(a: Option<Occupant<P>>, b: Option<Occupant<P>>)
    requires ReadOut(a, b)
    ensures a.Some? ==> b.Some?
  {
  }

  lemma WholeChannel<P>(a: Option<Occupant<P>>, b: Option<Occupant<P>>)
    requires if a.None? then b.None?
             else && b.Some? && b.value == a.value.(ch := b.value.ch) && b.value.ch.closed == a.value.ch.closed
                  && b.value.ch.taken == a.value.ch.taken + a.value.ch.buf[..|a.value.ch.buf|]
                  && b.value.ch.buf == a.value.ch.buf[|a.value.ch.buf|..]
    ensures ReadOut(a, b)
  {
    if a.Some? {
      assert a.value.ch.buf[..|a.value.ch.buf|] == a.value.ch.buf;
    }
  }

  /** A finished request whose consumer keeps reading is a channel's worth nearer its end, or gone. */
  lemma UnreadDrops<P>(a: Option<Occupant<P>>, r: Option<Occupant<P>>, b: Option<Occupant<P>>)
    requires a.Some? && a.value.st.finished && ReadOut(a, r) && Flushed(r, b)
    ensures Unread(b) < Unread(a)
  {
    if b.Some? {
      assert |b.value.Produced()| == |r.value.Produced()|;
    }
  }

  /** Entry `e` is request `first`, which had slot `s`, finished and handed over. */
  ghost predicate ServedAs<P>(first: Occupant<P>, s: nat, e: Handed<P>) {
    e.slot == s && Continues(first, e.occ) && e.occ.st.finished && e.occ.st.pending == []
  }

  lemma ServedFacts<P>(first: Occupant<P>, s: nat, e: Handed<P>)
    requires ServedAs(first, s, e)
    ensures e.slot == s && Continues(first, e.occ) && e == Handed(s, e.occ)
  {
  }

  /** One iteration, for a request whose consumer reads: it goes on, or it has been handed over. */
  lemma OneTurn<P>(first: Occupant<P>, s: nat, a: Option<Occupant<P>>, admitted: Row<P>, reached: Row<P>,
                   log1: seq<Handed<P>>, log2: seq<Handed<P>>)
    requires s < |admitted| == |reached| && a.Some? && Continues(first, a.value) && !a.value.ch.closed
    requires ReadOut(a, admitted[s]) && Accounted(admitted, log1, reached, log2)
    ensures reached[s].Some? ==> Continues(first, reached[s].value)
    ensures reached[s].None? ==> exists k :: |log1| <= k < |log2| && ServedAs(first, s, log2[k])
  {
    hide Continues;
    var r := admitted[s].value;
    ReadContinues(a.value, r);
    ContinuesOn(first, a.value, r);
    if reached[s].Some? {
      ContinuesOn(first, r, reached[s].value);
    } else {
      SameChannel(a.value, r);
      var k :| |log1| <= k < |log2| && log2[k].slot == s;
      assert HandedFrom(admitted, reached, log2[k]);
      ContinuesOn(first, r, log2[k].occ);
      assert ServedAs(first, s, log2[k]);
    }
  }

  // ---- conservation of requests ----

  /** The jobs in the first `n` slots. */
  function JobsIn<P>(slots: Row<P>, n: nat): multiset<Job>
    requires n <= |slots|
  {
    if n == 0 then multiset{}
    else JobsIn(slots, n - 1) + if slots[n - 1].Some? then multiset{slots[n - 1].value.job} else multiset{}
  }

  function JobsOf<P>(log: seq<Handed<P>>): multiset<Job> {
    if log == [] then multiset{} else JobsOf(log[..|log| - 1]) + multiset{log[|log| - 1].occ.job}
  }

  lemma {:induction false} JobsOfAppend<P>(a: seq<Handed<P>>, b: seq<Handed<P>>)
    ensures JobsOf(a + b) == JobsOf(a) + JobsOf(b)
    decreases |b|
  {
    if b == [] {
      assert a + b == a;
    } else {
      assert (a + b)[..|a + b| - 1] == a + b[..|b| - 1];
      JobsOfAppend(a, b[..|b| - 1]);
    }
  }

  lemma AdmittedOne<P>(before: Row<P>, q0: seq<Job>, i: nat, so: Option<Occupant<P>>)
    requires i < |before| && AdmittedAt(before, q0, i, so)
    ensures if before[i].None? && so.Some? then
              Waiting(before, q0, i) == [so.value.job] + Waiting(before, q0, i + 1)
            else so == before[i] && Waiting(before, q0, i + 1) == Waiting(before, q0, i)
  {
  }

  lemma NoneTaken<P>(before: Row<P>, q0: seq<Job>)
    ensures Waiting(before, q0, 0) == q0
  {
  }

  lemma OneMoved<T>(a: multiset<T>, x: T, now: seq<T>, all: multiset<T>)
    requires a + multiset([x] + now) == all
    ensures (a + multiset{x}) + multiset(now) == all
  {
    assert multiset([x] + now) == multiset{x} + multiset(now);
  }

  lemma BothGrow<T>(a: multiset<T>, b: multiset<T>, c: multiset<T>, e: multiset<T>, more: multiset<T>)
    requires a + b == c + e
    ensures (a + more) + b == (c + more) + e
  {
    assert (a + more) + b == (a + b) + more && (c + more) + e == (c + e) + more;
  }

  /** Admission moves jobs from the queue into slots. */
  lemma {:induction false} AdmittedJobs<P>(before: Row<P>, q0: seq<Job>, n: nat, after: Row<P>)
    requires n <= |before| == |after| && forall i :: 0 <= i < n ==> AdmittedAt(before, q0, i, after[i])
    ensures JobsIn(after, n) + multiset(Waiting(before, q0, n)) == JobsIn(before, n) + multiset(q0)
  {
    hide AdmittedAt, Waiting;
    if n == 0 {
      NoneTaken(before, q0);
    } else {
      AdmittedJobs(before, q0, n - 1, after);
      var was, now := Waiting(before, q0, n - 1), Waiting(before, q0, n);
      AdmittedOne(before, q0, n - 1, after[n - 1]);
      if before[n - 1].None? && after[n - 1].Some? {
        OneMoved(JobsIn(after, n - 1), after[n - 1].value.job, now, JobsIn(before, n - 1) + multiset(q0));
      } else {
        var same := if before[n - 1].Some? then multiset{before[n - 1].value.job} else multiset{};
        BothGrow(JobsIn(after, n - 1), multiset(was), JobsIn(before, n - 1), multiset(q0), same);
      }
    }
  }

  ghost predicate AllOpen<P>(slots: Row<P>) {
    forall i :: 0 <= i < |slots| && slots[i].Some? ==> !slots[i].value.ch.closed
  }

  lemma {:induction false} JobsAdded<P>(slots: Row<P>, s: nat, o: Occupant<P>, n: nat)
    requires s < |slots| && n <= |slots| && slots[s].None?
    ensures JobsIn(slots[s := Some(o)], n) == JobsIn(slots, n) + if s < n then multiset{o.job} else multiset{}
  {
    if n > 0 {
      JobsAdded(slots, s, o, n - 1);
      var now := slots[s := Some(o)];
      if n - 1 == s {
        assert now[n - 1] == Some(o) && JobsIn(now, n) == JobsIn(now, n - 1) + multiset{o.job};
        assert JobsIn(now, n - 1) == JobsIn(slots, n - 1) + multiset{};
        assert JobsIn(slots, n - 1) + multiset{} == JobsIn(slots, n - 1);
        assert JobsIn(slots, n) == JobsIn(slots, n - 1);
      } else {
        assert now[n - 1] == slots[n - 1];
        var more := if s < n - 1 then multiset{o.job} else multiset{};
        assert JobsIn(now, n - 1) == JobsIn(slots, n - 1) + more;
      }
    }
  }

  lemma {:induction false} JobsKept<P>(before: Row<P>, after: Row<P>, n: nat)
    requires n <= |before| == |after|
    requires forall i :: 0 <= i < |after| ==> before[i].Some? == after[i].Some?
    requires forall i :: 0 <= i < |after| && after[i].Some? ==> Continues(before[i].value, after[i].value)
    ensures JobsIn(after, n) == JobsIn(before, n)
  {
    hide Continues;
    if n > 0 {
      JobsKept(before, after, n - 1);
      if after[n - 1].Some? {
        SameChannel(before[n - 1].value, after[n - 1].value);
      }
    }
  }

  /** The last request handed over put back into its slot. */
  lemma PutBack<P>(before: Row<P>, log0: seq<Handed<P>>, after: Row<P>, fewer: seq<Handed<P>>, e: Handed<P>)
    requires Accounted(before, log0, after, log0 + (fewer + [e]))
    ensures HandedFrom(before, after, e)
    ensures Accounted(before, log0, after[e.slot := before[e.slot]], log0 + fewer)
  {
    hide Continues;
    var all, most := log0 + (fewer + [e]), log0 + fewer;
    assert forall k :: 0 <= k < |most| ==> most[k] == all[k];
    assert all[|most|] == e && HandedFrom(before, after, e);
    ContinuesSelf(before[e.slot].value);
    var earlier := after[e.slot := before[e.slot]];
    forall k | |log0| <= k < |most| ensures HandedFrom(before, earlier, most[k]) {
      assert HandedFrom(before, after, all[k]) && all[k].slot != all[|most|].slot;
    }
    forall i | 0 <= i < |earlier| && before[i].Some? && earlier[i].None? && !before[i].value.ch.closed
      ensures InLog(most, |log0|, i)
    {
      var k :| |log0| <= k < |all| && all[k].slot == i;
      assert most[k].slot == i;
    }
  }

  lemma OpenStays<P>(before: Row<P>, log0: seq<Handed<P>>, after: Row<P>, log1: seq<Handed<P>>)
    requires Accounted(before, log0, after, log1) && AllOpen(before)
    ensures AllOpen(after)
  {
    hide Continues;
    forall i | 0 <= i < |after| && after[i].Some? ensures !after[i].value.ch.closed {
      SameChannel(before[i].value, after[i].value);
    }
  }

  lemma NoneHandedOver<P>(before: Row<P>, log: seq<Handed<P>>, after: Row<P>)
    requires Accounted(before, log, after, log) && AllOpen(before)
    ensures forall i :: 0 <= i < |after| ==> before[i].Some? == after[i].Some?
  {
    hide Continues;
  }

  /** While every consumer is there, a request leaves its slot only by being handed over, and once. */
  lemma {:induction false} AccountedJobs<P>(before: Row<P>, log0: seq<Handed<P>>, after: Row<P>,
                                         more: seq<Handed<P>>)
    requires Accounted(before, log0, after, log0 + more) && AllOpen(before)
    ensures JobsIn(before, |before|) == JobsIn(after, |after|) + JobsOf(more) && AllOpen(after)
    decreases |more|
  {
    hide Continues, AllOpen;
    OpenStays(before, log0, after, log0 + more);
    if more == [] {
      assert log0 + more == log0;
      NoneHandedOver(before, log0, after);
      JobsKept(before, after, |after|);
    } else {
      hide Accounted;
      var e, fewer := more[|more| - 1], more[..|more| - 1];
      assert more == fewer + [e];
      PutBack(before, log0, after, fewer, e);
      AccountedJobs(before, log0, after[e.slot := before[e.slot]], fewer);
      SameChannel(before[e.slot].value, e.occ);
      JobsAdded(after, e.slot, before[e.slot].value, |after|);
    }
  }

  // ---- work ----

  /** The most work an admitted job can bring. */
  function JobWork(j: Job): nat { |j.prompt| + j.maxGen + 1 }

  function QueueWork(q: seq<Job>): nat {
    if q == [] then 0 else JobWork(q[0]) + QueueWork(q[1..])
  }

  function Total(w: seq<nat>, n: nat): nat
    requires n <= |w|
  {
    if n == 0 then 0 else Total(w, n - 1) + w[n - 1]
  }

  /** Reading and admission: the only new work is that of the jobs admitted. */
  ghost predicate WorkTaken<P>(before: Row<P>, admitted: Row<P>, w: seq<nat>, wa: seq<nat>) {
    && |before| == |admitted| == |w| == |wa|
    && forall i :: 0 <= i < |w| ==>
         wa[i] <= w[i] + if before[i].None? && admitted[i].Some? then JobWork(admitted[i].value.job) else 0
  }

  lemma TakenAt<P>(before: Row<P>, admitted: Row<P>, w: seq<nat>, wa: seq<nat>, s: nat)
    requires WorkTaken(before, admitted, w, wa) && s < |before| && before[s].Some?
    ensures |w| == |wa| == |before| && wa[s] <= w[s]
  {
  }

  /** No slot has more work left than before, and a busy one has less. */
  ghost predicate WorkDone<P>(admitted: Row<P>, wa: seq<nat>, w1: seq<nat>) {
    && |admitted| == |wa| == |w1|
    && forall i :: 0 <= i < |wa| ==> w1[i] + (if Busy(admitted, i) then 1 else 0) <= wa[i]
  }

  /** The sum over all slots drops by at least the number of busy ones. */
  lemma {:induction false} TotalDrops<P>(admitted: Row<P>, wa: seq<nat>, w1: seq<nat>, n: nat)
    requires WorkDone(admitted, wa, w1) && n <= |admitted|
    ensures Total(w1, n) + |BusyBelow(admitted, n)| <= Total(wa, n)
  {
    hide Busy;
    if n == 0 {
      assert BusyBelow(admitted, 0) == {};
    } else {
      TotalDrops(admitted, wa, w1, n - 1);
      BusyCount(admitted, n - 1);
    }
  }

  /** Admission adds no work to what slots and queue hold together. */
  lemma {:induction false} TotalTaken<P>(before: Row<P>, q0: seq<Job>, n: nat, admitted: Row<P>, w: seq<nat>,
                                         wa: seq<nat>)
    requires WorkTaken(before, admitted, w, wa) && n <= |before|
    requires forall i :: 0 <= i < n ==> AdmittedAt(before, q0, i, admitted[i])
    ensures Total(wa, n) + QueueWork(Waiting(before, q0, n)) <= Total(w, n) + QueueWork(q0)
  {
    hide AdmittedAt, Waiting;
    if n == 0 {
      NoneTaken(before, q0);
    } else {
      TotalTaken(before, q0, n - 1, admitted, w, wa);
      AdmittedOne(before, q0, n - 1, admitted[n - 1]);
      var now := Waiting(before, q0, n);
      if before[n - 1].None? && admitted[n - 1].Some? {
        assert ([admitted[n - 1].value.job] + now)[1..] == now;
      }
    }
  }

  // ---- running everything to its end ----

  function TotalUnread<P>(slots: Row<P>, n: nat): nat
    requires n <= |slots|
  {
    if n == 0 then 0 else TotalUnread(slots, n - 1) + Unread(slots[n - 1])
  }

  ghost predicate AllReadOut<P>(before: Row<P>, after: Row<P>) {
    |before| == |after| && forall i :: 0 <= i < |after| ==> ReadOut(before[i], after[i])
  }

  lemma AreReadOut<P>(before: Row<P>, after: Row<P>)
    requires |before| == |after| && forall i :: 0 <= i < |after| ==> ReadOut(before[i], after[i])
    ensures AllReadOut(before, after)
  {
  }

  lemma NoneHanded<P>()
    ensures JobsOf<P>([]) == multiset{}
  {
  }

  lemma {:induction false} NoneLeft<P>(slots: Row<P>, n: nat)
    requires n <= |slots| && forall i :: 0 <= i < n ==> slots[i].None?
    ensures JobsIn(slots, n) == multiset{}
  {
    if n > 0 {
      NoneLeft(slots, n - 1);
    }
  }

  lemma {:induction false} ReadKeeps<P>(before: Row<P>, after: Row<P>, n: nat)
    requires AllReadOut(before, after) && n <= |before|
    ensures JobsIn(after, n) == JobsIn(before, n)
    ensures AllOpen(before) ==> AllOpen(after)
  {
    hide Continues;
    if n > 0 {
      ReadKeeps(before, after, n - 1);
      assert ReadOut(before[n - 1], after[n - 1]);
      if after[n - 1].Some? {
        ReadContinues(before[n - 1].value, after[n - 1].value);
      }
    }
  }

  lemma AdmittedOpen<P>(before: Row<P>, q0: seq<Job>, after: Row<P>, q1: seq<Job>)
    requires Admitted(before, q0, |before|, after, q1) && AllOpen(before) && NoneGone(q0)
    ensures AllOpen(after) && NoneGone(q1)
  {
    forall i | 0 <= i < |after| && after[i].Some? ensures !after[i].value.ch.closed {
      assert AdmittedAt(before, q0, i, after[i]);
    }
  }

  predicate NoneGone(q: seq<Job>) {
    forall i :: 0 <= i < |q| ==> !q[i].gone
  }

  lemma AdmittedBusy<P>(before: Row<P>, q0: seq<Job>, after: Row<P>, i: nat)
    requires i < |before| == |after| && AdmittedAt(before, q0, i, after[i])
    ensures before[i].None? && FreeBelow(before, i) < |q0| ==> Busy(after, i)
  {
  }

  lemma {:induction false} NoneFree<P>(before: Row<P>, q0: seq<Job>, n: nat)
    requires n <= |before|
    requires forall i :: 0 <= i < |before| && before[i].None? ==> FreeBelow(before, i) >= |q0|
    ensures q0 == [] || FreeBelow(before, n) == 0
  {
    if n > 0 {
      NoneFree(before, q0, n - 1);
    }
  }

  /** If nobody is busy after admission, nobody was admitted, and nobody is waiting for a free slot. */
  lemma NobodyAdmitted<P>(before: Row<P>, q0: seq<Job>, after: Row<P>, q1: seq<Job>)
    requires Admitted(before, q0, |before|, after, q1) && forall i :: 0 <= i < |after| ==> !Busy(after, i)
    ensures after == before && (q0 == [] || FreeBelow(before, |before|) == 0)
  {
    hide Fresh;
    assert forall i :: 0 <= i < |after| ==> AdmittedAt(before, q0, i, after[i]);
    forall i | 0 <= i < |before| && before[i].None? ensures after[i].None? && FreeBelow(before, i) >= |q0| {
      AdmittedBusy(before, q0, after, i);
    }
    NoneFree(before, q0, |before|);
  }

  lemma NothingUnread<P>(so: Option<Occupant<P>>)
    ensures so.None? ==> Unread(so) == 0
  {
  }

  /** Who is not busy has had a delivery retry. */
  ghost predicate IdleFlushed<P>(admitted: Row<P>, after: Row<P>) {
    |admitted| == |after| && forall i :: 0 <= i < |after| && !Busy(admitted, i) ==> Flushed(admitted[i], after[i])
  }

  lemma {:induction false} AllUnreadDrops<P>(before: Row<P>, r: Row<P>, after: Row<P>, n: nat)
    requires AllReadOut(before, r) && IdleFlushed(r, after) && n <= |before|
    requires forall i :: 0 <= i < |r| ==> !Busy(r, i)
    ensures TotalUnread(after, n) + (n - FreeBelow(before, n)) <= TotalUnread(before, n)
  {
    hide Unread;
    if n > 0 {
      AllUnreadDrops(before, r, after, n - 1);
      assert ReadOut(before[n - 1], r[n - 1]) && !Busy(r, n - 1) && Flushed(r[n - 1], after[n - 1]);
      if before[n - 1].Some? {
        UnreadDrops(before[n - 1], r[n - 1], after[n - 1]);
      } else {
        NothingUnread(after[n - 1]);
      }
    }
  }

  lemma {:induction false} SomeOccupied<P>(slots: Row<P>, n: nat)
    requires n <= |slots|
    ensures FreeBelow(slots, n) <= n
    ensures FreeBelow(slots, n) == n ==> forall i :: 0 <= i < n ==> slots[i].None?
  {
    if n > 0 {
      SomeOccupied(slots, n - 1);
    }
  }

  lemma RunSizes<P>(before: Row<P>, q0: seq<Job>, r: Row<P>, admitted: Row<P>, q1: seq<Job>, after: Row<P>)
    requires AllReadOut(before, r) && Admitted(r, q0, |r|, admitted, q1) && IdleFlushed(admitted, after)
    ensures |before| == |r| == |admitted| == |after| && q1 == Waiting(r, q0, |r|)
    ensures forall i :: 0 <= i < |r| ==> AdmittedAt(r, q0, i, admitted[i])
  {
    hide ReadOut, Flushed, AdmittedAt, Waiting;
  }

  lemma {:induction false} ReadFree<P>(before: Row<P>, r: Row<P>, n: nat)
    requires AllReadOut(before, r) && n <= |r|
    ensures FreeBelow(r, n) == FreeBelow(before, n)
  {
    if n > 0 {
      ReadFree(before, r, n - 1);
      assert ReadOut(before[n - 1], r[n - 1]);
    }
  }

  /** One iteration while every consumer is there: no request is lost and none appears. */
  lemma RunKeeps<P>(before: Row<P>, q0: seq<Job>, r: Row<P>, admitted: Row<P>, q1: seq<Job>, after: Row<P>,
                    log1: seq<Handed<P>>, more: seq<Handed<P>>)
    requires AllReadOut(before, r) && Admitted(r, q0, |r|, admitted, q1) && IdleFlushed(admitted, after)
    requires Accounted(admitted, log1, after, log1 + more) && AllOpen(before) && NoneGone(q0)
    ensures |after| == |before| && AllOpen(after) && NoneGone(q1)
    ensures JobsIn(after, |after|) + multiset(q1) + JobsOf(more) == JobsIn(before, |before|) + multiset(q0)
  {
    hide *;
    RunSizes<P>(before, q0, r, admitted, q1, after);
    ReadKeeps<P>(before, r, |r|);
    AdmittedOpen<P>(r, q0, admitted, q1);
    AdmittedJobs<P>(r, q0, |r|, admitted);
    AccountedJobs<P>(admitted, log1, after, more);
  }

  /** One iteration in which nothing fails and every consumer reads: there is less work left, or fewer events
      are unread. */
  lemma RunProgresses<P>(before: Row<P>, q0: seq<Job>, r: Row<P>, admitted: Row<P>, q1: seq<Job>, after: Row<P>,
                         w: seq<nat>, wa: seq<nat>, w1: seq<nat>)
    requires AllReadOut(before, r) && Admitted(r, q0, |r|, admitted, q1) && IdleFlushed(admitted, after)
    requires WorkTaken(r, admitted, w, wa) && WorkDone(admitted, wa, w1)
    requires (q0 != [] && before != []) || exists i :: 0 <= i < |before| && before[i].Some?
    ensures |after| == |before| == |w| == |w1|
    ensures Total(w1, |w1|) + QueueWork(q1) <= Total(w, |w|) + QueueWork(q0)
    ensures Total(w1, |w1|) + QueueWork(q1) == Total(w, |w|) + QueueWork(q0) ==>
      TotalUnread(after, |after|) < TotalUnread(before, |before|)
  {
    hide *;
    WorkFalls<P>(before, q0, r, admitted, q1, after, w, wa, w1);
    if NoneBusy<P>(admitted) {
      IdleReads<P>(before, q0, r, admitted, q1, after);
    } else {
      SomeBusy<P>(admitted);
    }
  }

  /** What slots and queue have left together drops by at least the number of busy slots. */
  lemma WorkFalls<P>(before: Row<P>, q0: seq<Job>, r: Row<P>, admitted: Row<P>, q1: seq<Job>, after: Row<P>,
                     w: seq<nat>, wa: seq<nat>, w1: seq<nat>)
    requires AllReadOut(before, r) && Admitted(r, q0, |r|, admitted, q1) && IdleFlushed(admitted, after)
    requires WorkTaken(r, admitted, w, wa) && WorkDone(admitted, wa, w1)
    ensures |after| == |before| == |w| == |w1| == |admitted|
    ensures Total(w1, |w1|) + QueueWork(q1) + |BusyBelow(admitted, |admitted|)| <= Total(w, |w|) + QueueWork(q0)
  {
    hide *;
    RunSizes<P>(before, q0, r, admitted, q1, after);
    WorkSizes<P>(r, admitted, w, wa, w1);
    TotalTaken<P>(r, q0, |r|, admitted, w, wa);
    TotalDrops<P>(admitted, wa, w1, |admitted|);
  }

  ghost predicate NoneBusy<P>(slots: Row<P>) {
    forall i :: 0 <= i < |slots| ==> !Busy(slots, i)
  }

  lemma SomeBusy<P>(slots: Row<P>)
    requires !NoneBusy(slots)
    ensures |BusyBelow(slots, |slots|)| > 0
  {
    var i :| 0 <= i < |slots| && Busy(slots, i);
    BusyMember(slots, i);
  }

  /** With nobody busy every occupied slot has fewer events unread. */
  lemma IdleReads<P>(before: Row<P>, q0: seq<Job>, r: Row<P>, admitted: Row<P>, q1: seq<Job>, after: Row<P>)
    requires AllReadOut(before, r) && Admitted(r, q0, |r|, admitted, q1) && IdleFlushed(admitted, after)
    requires NoneBusy(admitted)
    requires (q0 != [] && before != []) || exists i :: 0 <= i < |before| && before[i].Some?
    ensures |after| == |before| && TotalUnread(after, |after|) < TotalUnread(before, |before|)
  {
    hide Busy, Flushed, ReadOut, AdmittedAt, Waiting, TotalUnread, FreeBelow;
    RunSizes<P>(before, q0, r, admitted, q1, after);
    NobodyAdmitted<P>(r, q0, admitted, q1);
    AllUnreadDrops<P>(before, r, after, |before|);
    SomeOccupied<P>(before, |before|);
    ReadFree<P>(before, r, |r|);
  }

  lemma WorkSizes<P>(before: Row<P>, admitted: Row<P>, w: seq<nat>, wa: seq<nat>, w1: seq<nat>)
    requires WorkTaken(before, admitted, w, wa) && WorkDone(admitted, wa, w1)
    ensures |w| == |wa| == |w1| == |before| == |admitted|
  {
    hide Busy;
  }
}
