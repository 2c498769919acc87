/** How long a prefix cache keeps an entry: fewer uses of other entries than there are entries. */
module CacheAges {
  import opened Network
  import opened Slots

  /** Entries were used at different times, none of them later than now. Every snapshot and every restore is one use,
      and the clock counts them. */
  predicate Aged(es: seq<CacheEntry>, clock: nat) {
    && (forall i :: 0 <= i < |es| && es[i].valid ==> es[i].lru <= clock)
    && forall i, j :: 0 <= i < j < |es| && es[i].valid && es[j].valid ==> es[i].lru != es[j].lru
  }

  /** An entry last used fewer than |cache| uses ago is still there, and not older. */
  ghost predicate Kept(before: seq<CacheEntry>, clock0: nat, after: seq<CacheEntry>, clock1: nat) {
    && |before| == |after| && clock0 <= clock1
    && forall i :: 0 <= i < |before| && before[i].valid && clock1 < before[i].lru + |before| ==>
         after[i].valid && after[i].tokens == before[i].tokens && before[i].lru <= after[i].lru
  }

  lemma KeptSelf(es: seq<CacheEntry>, clock: nat)
    ensures Kept(es, clock, es, clock)
  {
  }

  lemma KeptOn(a: seq<CacheEntry>, t0: nat, b: seq<CacheEntry>, t1: nat, c: seq<CacheEntry>, t2: nat)
    requires Kept(a, t0, b, t1) && Kept(b, t1, c, t2)
    ensures Kept(a, t0, c, t2)
  {
  }

  function Numbers(lo: nat, n: nat): (r: set<nat>)
    ensures |r| == n && forall k: nat :: k in r <==> lo <= k < lo + n
  {
    if n == 0 then {} else Numbers(lo, n - 1) + {lo + n - 1}
  }

  function Ages(es: seq<CacheEntry>, n: nat): set<nat>
    requires n <= |es|
  {
    set i: nat | i < n :: es[i].lru
  }

  lemma {:induction false} AgesCount(es: seq<CacheEntry>, clock: nat, n: nat)
    requires n <= |es| && Aged(es, clock) && forall i :: 0 <= i < |es| ==> es[i].valid
    ensures |Ages(es, n)| == n
  {
    if n == 0 {
      assert Ages(es, 0) == {};
    } else {
      AgesCount(es, clock, n - 1);
      assert Ages(es, n) == Ages(es, n - 1) + {es[n - 1].lru};
      assert es[n - 1].lru !in Ages(es, n - 1);
    }
  }

  lemma {:induction false} SubsetSize<T>(a: set<T>, b: set<T>)
    requires a <= b
    ensures |a| <= |b|
  {
    if a != {} {
      var x :| x in a;
      SubsetSize(a - {x}, b - {x});
    }
  }

  /** What is replaced has not been used for as many uses as there are entries. */
  lemma VictimIsOld(es: seq<CacheEntry>, clock: nat, idx: nat)
    requires Aged(es, clock) && IsVictim(es, idx) && es[idx].valid
    ensures es[idx].lru + |es| <= clock + 1
  {
    var lo := es[idx].lru;
    AgesCount(es, clock, |es|);
    SubsetSize(Ages(es, |es|), Numbers(lo, clock + 1 - lo));
  }

  /** A snapshot. */
  lemma CachedKept(before: seq<CacheEntry>, clock0: nat, after: seq<CacheEntry>, clock1: nat, key: seq<Token>)
    requires Aged(before, clock0) && Cached(before, clock0, after, clock1, key)
    ensures Aged(after, clock1) && Kept(before, clock0, after, clock1)
  {
    if before != [] && |key| >= 8 {
      var idx: nat :| IsVictim(before, idx) && Replaced(before, after, idx, key, clock1);
      if before[idx].valid {
        VictimIsOld(before, clock0, idx);
      }
    }
  }

  /** A restore. */
  lemma TouchedKept(before: seq<CacheEntry>, clock: nat, idx: nat)
    requires Aged(before, clock) && idx < |before| && before[idx].valid
    ensures var after := before[idx := before[idx].(lru := clock + 1)];
      Aged(after, clock + 1) && Kept(before, clock, after, clock + 1)
  {
  }

  /** The end of a request. */
  lemma EndKept(before: seq<CacheEntry>, clock0: nat, after: seq<CacheEntry>, clock1: nat, sl: Slot)
    requires Aged(before, clock0) && EndCached(before, clock0, after, clock1, sl)
    ensures Kept(before, clock0, after, clock1)
  {
    hide Cached, Live;
    if Live(sl) {
      KeptSelf(before, clock0);
    } else {
      CachedKept(before, clock0, after, clock1, sl.History()[..sl.pos]);
    }
  }

  /** The newest entry of a cache of `n` entries is still there after fewer than `n` further uses. */
  lemma NewestStays(before: seq<CacheEntry>, clock0: nat, after: seq<CacheEntry>, clock1: nat, key: seq<Token>)
    requires Newest(before, clock0, key) && Kept(before, clock0, after, clock1) && clock1 < clock0 + |before|
    ensures exists i :: 0 <= i < |after| && after[i].valid && after[i].tokens == key
  {
    var idx :| 0 <= idx < |before| && before[idx].valid && before[idx].tokens == key && before[idx].lru == clock0;
    assert after[idx].valid && after[idx].tokens == key;
  }
}
