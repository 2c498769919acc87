/** Slot events and their delivery to a consumer that may be slow or gone (engine.rs). */
module Events {
  import opened Network

  datatype FinishReason = Eos | Limit

  datatype SlotEvent = Tokens(ids: seq<Token>) | Done(reason: FinishReason) | Error

  datatype SlotState = SlotState(emitted: nat, maxGen: nat, finished: bool, pending: seq<SlotEvent>)

  /** The bounded channel to one consumer; `taken` is what the consumer has read. */
  datatype Chan = Chan(taken: seq<SlotEvent>, buf: seq<SlotEvent>, closed: bool)

  const CHANNEL_CAP: nat := 64

  datatype FlushOutcome = StillLive | Drained | Closed

  /** Hands buffered events over without ever blocking. */
  method FlushSlot(st: SlotState, ch: Chan) returns (st1: SlotState, ch1: Chan, o: FlushOutcome)
    requires |ch.buf| <= CHANNEL_CAP
    ensures st1 == st.(pending := st1.pending) && ch1 == ch.(buf := ch1.buf) && |ch1.buf| <= CHANNEL_CAP
    ensures o == Closed <==> ch.closed && st.pending != []
    ensures o != Closed ==> ch1.buf + st1.pending == ch.buf + st.pending
    ensures o == Drained ==> st.finished && st1.pending == []
    ensures o == StillLive && st.finished ==> st1.pending != [] && |ch1.buf| == CHANNEL_CAP
    ensures o == StillLive && st1.pending != [] ==> |ch1.buf| == CHANNEL_CAP == 64
  {
    st1, ch1 := st, ch;
    while st1.pending != []
      invariant st1 == st.(pending := st1.pending) && ch1 == ch.(buf := ch1.buf) && |ch1.buf| <= CHANNEL_CAP
      invariant ch1.buf + st1.pending == ch.buf + st.pending
      invariant ch.closed ==> st1 == st
      decreases |st1.pending|
    {
      var ev := st1.pending[0];
      if ch1.closed {
        st1 := st1.(pending := st1.pending[1..]);
        return st1, ch1, Closed;
      }
      if |ch1.buf| >= CHANNEL_CAP {
        return st1, ch1, StillLive;
      }
      assert [ev] + st1.pending[1..] == st1.pending;
      assert (ch1.buf + [ev]) + st1.pending[1..] == ch1.buf + st1.pending;
      st1, ch1 := st1.(pending := st1.pending[1..]), ch1.(buf := ch1.buf + [ev]);
    }
    o := if st1.finished then Drained else StillLive;
  }

  // ---- what a list of events says ----

  function Spoken(evs: seq<SlotEvent>): seq<Token> {
    if evs == [] then [] else (if evs[0].Tokens? then evs[0].ids else []) + Spoken(evs[1..])
  }

  predicate AllTokens(evs: seq<SlotEvent>) {
    forall i :: 0 <= i < |evs| ==> evs[i].Tokens?
  }

  /** The events of a request so far: its tokens, and once finished exactly one Done, last. */
  predicate Says(evs: seq<SlotEvent>, toks: seq<Token>, finished: bool, reason: FinishReason) {
    if finished then
      evs != [] && evs[|evs| - 1] == Done(reason) && AllTokens(evs[..|evs| - 1]) && Spoken(evs[..|evs| - 1]) == toks
    else AllTokens(evs) && Spoken(evs) == toks
  }

  lemma {:induction false} SpokenAppend(a: seq<SlotEvent>, b: seq<SlotEvent>)
    ensures Spoken(a + b) == Spoken(a) + Spoken(b)
  {
    if a == [] {
      assert a + b == b;
    } else {
      assert (a + b)[1..] == a[1..] + b;
      SpokenAppend(a[1..], b);
    }
  }

  lemma SayTokens(evs: seq<SlotEvent>, toks: seq<Token>, ids: seq<Token>, r: FinishReason)
    requires Says(evs, toks, false, r)
    ensures Says(evs + [Tokens(ids)], toks + ids, false, r)
  {
    SpokenAppend(evs, [Tokens(ids)]);
    assert Spoken([Tokens(ids)]) == ids;
  }

  lemma SayDone(evs: seq<SlotEvent>, toks: seq<Token>, r: FinishReason)
    requires Says(evs, toks, false, r)
    ensures Says(evs + [Done(r)], toks, true, r)
  {
    assert (evs + [Done(r)])[..|evs + [Done(r)]| - 1] == evs;
  }
}
