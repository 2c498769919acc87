/** The books of the slot engine: which calls were made, and what became of the requests they began. */
module Ledgers {
  import opened Network
  import opened Slots

  datatype Call =
    | StartReq(slot: nat, prompt: seq<Token>, maxGen: nat, snapPrefix: nat)
    | CancelReq(slot: nat)
    | StepReq

  datatype Asked = Asked(prompt: seq<Token>, maxGen: nat)

  /** A request whose finished bit was raised, with all it was delivered. */
  datatype Finished = Finished(prompt: seq<Token>, maxGen: nat, tokens: seq<Token>)

  /** All calls so far; the requests accepted, finished (in the order of their bits) and cancelled. */
  datatype Ledger = Ledger(calls: seq<Call>, begun: multiset<Asked>, ended: seq<Finished>, dropped: multiset<Asked>)

  // ---- finished bits ----

  /** How many of the first `n` finished bits are up. */
  function Raised(fin: seq<bool>, n: nat): nat
    requires n <= |fin|
  {
    if n == 0 then 0 else Raised(fin, n - 1) + if fin[n - 1] then 1 else 0
  }

  /** The requests below slot `n` whose finished bit is up, in slot order, with all they were delivered. */
  function Reports(slots: seq<Slot>, delivered: seq<seq<Token>>, fin: seq<bool>, n: nat): (r: seq<Finished>)
    requires n <= |slots| && n <= |delivered| && n <= |fin|
    ensures |r| == Raised(fin, n)
  {
    if n == 0 then []
    else
      Reports(slots, delivered, fin, n - 1)
      + if fin[n - 1] then [Finished(slots[n - 1].prompt, slots[n - 1].maxGen, delivered[n - 1])] else []
  }

  lemma NoReports(slots: seq<Slot>, delivered: seq<seq<Token>>, fin: seq<bool>)
    ensures Reports(slots, delivered, fin, 0) == []
  {
  }

  lemma NextReport(slots: seq<Slot>, delivered: seq<seq<Token>>, fin: seq<bool>, n: nat)
    requires n < |slots| && n < |delivered| && n < |fin|
    ensures Reports(slots, delivered, fin, n + 1)
         == Reports(slots, delivered, fin, n)
            + if fin[n] then [Finished(slots[n].prompt, slots[n].maxGen, delivered[n])] else []
  {
  }

  // ---- conservation of requests ----

  function AskedAt(sl: Slot): multiset<Asked> {
    if sl.active then multiset{Asked(sl.prompt, sl.maxGen)} else multiset{}
  }

  /** The requests in the first `n` slots. */
  function AskedIn(slots: seq<Slot>, n: nat): multiset<Asked>
    requires n <= |slots|
  {
    if n == 0 then multiset{} else AskedIn(slots, n - 1) + AskedAt(slots[n - 1])
  }

  function AskedOf(done: seq<Finished>): multiset<Asked> {
    if done == [] then multiset{}
    else AskedOf(done[..|done| - 1]) + multiset{Asked(done[|done| - 1].prompt, done[|done| - 1].maxGen)}
  }

  predicate HoldsAsked(sl: Slot, a: Asked) {
    sl.active && sl.prompt == a.prompt && sl.maxGen == a.maxGen
  }

  /** The slots below `n` that hold the request `a`. */
  function Holding(slots: seq<Slot>, n: nat, a: Asked): set<nat>
    requires n <= |slots|
  {
    set i: nat | i < n && HoldsAsked(slots[i], a)
  }

  /** The reports about `a`. */
  function Reporting(done: seq<Finished>, a: Asked): set<nat> {
    set i: nat | i < |done| && done[i].prompt == a.prompt && done[i].maxGen == a.maxGen
  }

  /** A request counts once for every slot it is in ... */
  lemma {:induction false} HeldCount(slots: seq<Slot>, n: nat, a: Asked)
    requires n <= |slots|
    ensures AskedIn(slots, n)[a] == |Holding(slots, n, a)|
  {
    hide Holding, AskedAt, HoldsAsked;
    if n > 0 {
      HeldCount(slots, n - 1, a);
      HoldingNext(slots, n - 1, a);
      HeldOne(slots[n - 1], a);
    } else {
      HoldingNone(slots, a);
    }
  }

  lemma HoldingNone(slots: seq<Slot>, a: Asked)
    ensures Holding(slots, 0, a) == {}
  {
  }

  lemma HoldingNext(slots: seq<Slot>, n: nat, a: Asked)
    requires n < |slots|
    ensures |Holding(slots, n + 1, a)| == |Holding(slots, n, a)| + if HoldsAsked(slots[n], a) then 1 else 0
  {
    hide HoldsAsked;
    assert Holding(slots, n + 1, a) == Holding(slots, n, a) + if HoldsAsked(slots[n], a) then {n} else {};
  }

  lemma HeldOne(sl: Slot, a: Asked)
    ensures AskedAt(sl)[a] == if HoldsAsked(sl, a) then 1 else 0
  {
  }

  /** ... and once for every report about it. */
  lemma {:induction false} ReportCount(done: seq<Finished>, a: Asked)
    ensures AskedOf(done)[a] == |Reporting(done, a)|
  {
    if done != [] {
      var n := |done| - 1;
      ReportCount(done[..n], a);
      assert Reporting(done, a)
          == Reporting(done[..n], a) + if Asked(done[n].prompt, done[n].maxGen) == a then {n} else {};
    } else {
      assert Reporting(done, a) == {};
    }
  }

  /** Every request accepted has ended, or was cancelled, or is still in its slot. */
  ghost predicate Balanced(book: Ledger, slots: seq<Slot>) {
    book.begun == AskedOf(book.ended) + book.dropped + AskedIn(slots, |slots|)
  }

  lemma {:induction false} AskedOfAppend(a: seq<Finished>, b: seq<Finished>)
    ensures AskedOf(a + b) == AskedOf(a) + AskedOf(b)
    decreases |b|
  {
    if b == [] {
      assert a + b == a;
    } else {
      assert (a + b)[..|a + b| - 1] == a + b[..|b| - 1];
      AskedOfAppend(a, b[..|b| - 1]);
    }
  }

  lemma Swapped<T>(a: multiset<T>, b: multiset<T>, c: multiset<T>)
    ensures (a + b) + c == (a + c) + b
  {
  }

  lemma AddedOn<T>(a: multiset<T>, x: multiset<T>, b: multiset<T>, y: multiset<T>, more: multiset<T>)
    requires a + x == b + y
    ensures (a + more) + x == (b + more) + y
  {
    Swapped(a, more, x);
    Swapped(b, more, y);
  }

  /** One slot changed. */
  lemma {:induction false} AskedUpdate(slots: seq<Slot>, s: nat, b: Slot, n: nat)
    requires s < |slots| && n <= |slots|
    ensures if s < n then AskedIn(slots[s := b], n) + AskedAt(slots[s]) == AskedIn(slots, n) + AskedAt(b)
            else AskedIn(slots[s := b], n) == AskedIn(slots, n)
  {
    hide AskedAt;
    if n > 0 {
      var now := slots[s := b];
      AskedUpdate(slots, s, b, n - 1);
      if n - 1 == s {
        assert now[n - 1] == b;
        Swapped(AskedIn(slots, n - 1), AskedAt(b), AskedAt(slots[s]));
      } else {
        assert now[n - 1] == slots[n - 1];
        if s < n {
          AddedOn(AskedIn(now, n - 1), AskedAt(slots[s]), AskedIn(slots, n - 1), AskedAt(b), AskedAt(slots[n - 1]));
        }
      }
    }
  }

  lemma {:induction false} NobodyAsked(slots: seq<Slot>, n: nat)
    requires n <= |slots| && forall s :: 0 <= s < n ==> !slots[s].active
    ensures AskedIn(slots, n) == multiset{}
  {
    if n > 0 {
      NobodyAsked(slots, n - 1);
    }
  }

  /** A call: whoever leaves a slot is reported, and nobody else is. */
  lemma {:induction false} CallBalance(c: Config, before: seq<Slot>, slots: seq<Slot>, delivered: seq<seq<Token>>,
                                       out: seq<seq<Token>>, fin: seq<bool>, n: nat)
    requires n <= |before| == |slots| == |delivered| == |out| == |fin|
    requires forall s :: 0 <= s < n ==>
      if before[s].active then
        SameRequest(before[s], slots[s]) && Piece(c, before[s], slots[s], delivered[s], out[s], fin[s])
      else !fin[s] && slots[s] == before[s]
    ensures AskedIn(before, n) == AskedIn(slots, n) + AskedOf(Reports(slots, delivered, fin, n))
  {
    hide AskedIn, AskedOf, Reports, Piece, SameRequest;
    if n == 0 {
      NobodyAsked(before, 0);
      NobodyAsked(slots, 0);
      NoReports(slots, delivered, fin);
      NothingAsked();
    } else {
      CallBalance(c, before, slots, delivered, out, fin, n - 1);
      var x := Finished(slots[n - 1].prompt, slots[n - 1].maxGen, delivered[n - 1]);
      var more: seq<Finished> := if fin[n - 1] then [x] else [];
      var was := Reports(slots, delivered, fin, n - 1);
      NextReport(slots, delivered, fin, n - 1);
      AskedOfAppend(was, more);
      NextAsked(before, n);
      NextAsked(slots, n);
      SlotBalance(c, before[n - 1], slots[n - 1], delivered[n - 1], out[n - 1], fin[n - 1]);
      Regrouped(AskedIn(slots, n - 1), AskedOf(was), AskedAt(slots[n - 1]), AskedOf(more));
    }
  }

  lemma Regrouped<T>(a: multiset<T>, b: multiset<T>, x: multiset<T>, y: multiset<T>)
    ensures (a + b) + (x + y) == (a + x) + (b + y)
  {
  }

  lemma NothingAsked()
    ensures AskedOf([]) == multiset{}
  {
  }

  lemma NextAsked(slots: seq<Slot>, n: nat)
    requires 0 < n <= |slots|
    ensures AskedIn(slots, n) == AskedIn(slots, n - 1) + AskedAt(slots[n - 1])
  {
  }

  lemma SlotBalance(c: Config, a: Slot, b: Slot, total: seq<Token>, o: seq<Token>, f: bool)
    requires if a.active then SameRequest(a, b) && Piece(c, a, b, total, o, f) else !f && b == a
    ensures AskedAt(a) == AskedAt(b) + AskedOf(if f then [Finished(b.prompt, b.maxGen, total)] else [])
  {
    hide Answer;
    var done := [Finished(b.prompt, b.maxGen, total)];
    assert done[..0] == [];
  }

  // ---- the three calls ----

  function AfterStart(book: Ledger, s: nat, prompt: seq<Token>, maxGen: nat, snapPrefix: nat, ok: bool): Ledger {
    book.(calls := book.calls + [StartReq(s, prompt, maxGen, snapPrefix)],
          begun := book.begun + if ok then multiset{Asked(prompt, maxGen)} else multiset{})
  }

  function AfterCancel(book: Ledger, s: nat, slots: seq<Slot>): Ledger {
    book.(calls := book.calls + [CancelReq(s)],
          dropped := book.dropped + if s < |slots| then AskedAt(slots[s]) else multiset{})
  }

  function AfterStep(book: Ledger, slots: seq<Slot>, delivered: seq<seq<Token>>, fin: seq<bool>): Ledger
    requires |slots| == |delivered| == |fin|
  {
    book.(calls := book.calls + [StepReq], ended := book.ended + Reports(slots, delivered, fin, |slots|))
  }

  lemma StartBalance(book: Ledger, slots: seq<Slot>, s: nat, b: Slot, snapPrefix: nat)
    requires Balanced(book, slots) && s < |slots| && !slots[s].active && b.active
    ensures Balanced(AfterStart(book, s, b.prompt, b.maxGen, snapPrefix, true), slots[s := b])
  {
    hide AskedIn, AskedOf;
    AskedUpdate(slots, s, b, |slots|);
    var now, x := AskedIn(slots[s := b], |slots|), AskedAt(b);
    assert now + multiset{} == now;
    assert now == AskedIn(slots, |slots|) + x;
    Regrouped(AskedOf(book.ended) + book.dropped, AskedIn(slots, |slots|), multiset{}, x);
    assert AskedOf(book.ended) + book.dropped + multiset{} == AskedOf(book.ended) + book.dropped;
    assert multiset{} + x == x;
  }

  lemma CancelBalance(book: Ledger, slots: seq<Slot>, s: nat, b: Slot)
    requires Balanced(book, slots) && s < |slots| && !b.active
    ensures Balanced(AfterCancel(book, s, slots), slots[s := b])
  {
    hide AskedIn, AskedOf;
    AskedUpdate(slots, s, b, |slots|);
    var was, now, x := AskedIn(slots, |slots|), AskedIn(slots[s := b], |slots|), AskedAt(slots[s]);
    assert was + multiset{} == was;
    assert was == now + x;
    assert (AskedOf(book.ended) + book.dropped) + (now + x) == AskedOf(book.ended) + (book.dropped + x) + now;
  }

  lemma RefusedBook(book: Ledger, s: nat, prompt: seq<Token>, maxGen: nat, snapPrefix: nat, slots: seq<Slot>)
    requires Balanced(book, slots)
    ensures Balanced(AfterStart(book, s, prompt, maxGen, snapPrefix, false), slots)
  {
    assert book.begun + multiset{} == book.begun;
  }

  /** A call for a slot that does not exist changes nothing but the list of calls. */
  lemma SameBalance(book: Ledger, more: Ledger, slots: seq<Slot>)
    requires Balanced(book, slots) && more.ended == book.ended && more.begun == book.begun
    requires more.dropped == book.dropped + multiset{}
    ensures Balanced(more, slots)
  {
  }

  lemma StepBalance(c: Config, book: Ledger, before: seq<Slot>, slots: seq<Slot>, delivered: seq<seq<Token>>,
                    out: seq<seq<Token>>, fin: seq<bool>)
    requires Balanced(book, before)
    requires |before| == |slots| == |delivered| == |out| == |fin|
    requires forall s :: 0 <= s < |slots| ==>
      if before[s].active then
        SameRequest(before[s], slots[s]) && Piece(c, before[s], slots[s], delivered[s], out[s], fin[s])
      else !fin[s] && slots[s] == before[s]
    ensures Balanced(AfterStep(book, slots, delivered, fin), slots)
  {
    hide Reports, AskedIn, AskedOf, Piece, SameRequest;
    CallBalance(c, before, slots, delivered, out, fin, |slots|);
    AskedOfAppend(book.ended, Reports(slots, delivered, fin, |slots|));
  }
}
