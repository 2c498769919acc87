/** Nucleus sampling over exact reals (split.rs). */
module Sampling {
  import opened Network

  function Sum(w: seq<real>): real {
    if w == [] then 0.0 else Sum(w[..|w| - 1]) + w[|w| - 1]
  }

  predicate InRange(w: seq<real>, order: seq<nat>) {
    forall i :: 0 <= i < |order| ==> order[i] < |w|
  }

  /** The mass of the candidates picked by `order`. */
  function Mass(w: seq<real>, order: seq<nat>): real
    requires InRange(w, order)
  {
    if order == [] then 0.0 else Mass(w, order[..|order| - 1]) + w[order[|order| - 1]]
  }

  predicate Distinct(order: seq<nat>) {
    forall i, j :: 0 <= i < j < |order| ==> order[i] != order[j]
  }

  /** Every candidate once, heaviest first; ties in any order, as an unstable sort leaves them. */
  predicate Descending(w: seq<real>, order: seq<nat>) {
    && |order| == |w| && InRange(w, order) && Distinct(order)
    && forall i, j :: 0 <= i < j < |order| ==> w[order[i]] >= w[order[j]]
  }

  function Insert(order: seq<nat>, p: nat, n: nat): (r: seq<nat>)
    requires p <= |order|
    ensures |r| == |order| + 1
    ensures forall i :: 0 <= i < |r| ==> r[i] == if i < p then order[i] else if i == p then n else order[i - 1]
  {
    order[..p] + [n] + order[p..]
  }

  lemma Inserted(w: seq<real>, before: seq<nat>, p: nat)
    requires w != [] && Descending(w[..|w| - 1], before) && p <= |before|
    requires forall i :: 0 <= i < p ==> w[before[i]] >= w[|w| - 1]
    requires p < |before| ==> w[|w| - 1] >= w[before[p]]
    ensures Descending(w, Insert(before, p, |w| - 1))
  {
    var n := |w| - 1;
    var order := Insert(before, p, n);
    forall i | 0 <= i < n ensures w[before[i]] == w[..n][before[i]] {
    }
    forall i, j | 0 <= i < j < |order| ensures order[i] != order[j] && w[order[i]] >= w[order[j]] {
      var a := if i <= p then i else i - 1;
      var b := if j <= p then j else j - 1;
      if i != p && j != p {
        assert order[i] == before[a] && order[j] == before[b];
      } else if i == p {
        assert order[j] == before[b] && (p < b ==> w[before[p]] >= w[before[b]]);
      }
    }
  }

  lemma {:induction false} OrderExists(w: seq<real>)
    ensures exists order :: Descending(w, order)
  {
    if w == [] {
      assert Descending(w, []);
    } else {
      var n := |w| - 1;
      OrderExists(w[..n]);
      var before :| Descending(w[..n], before);
      var p := 0;
      while p < n && w[before[p]] >= w[n]
        invariant p <= n
        invariant forall i :: 0 <= i < p ==> w[before[i]] >= w[n]
      {
        p := p + 1;
      }
      Inserted(w, before, p);
    }
  }

  lemma {:induction false} MassSplit(w: seq<real>, a: seq<nat>, b: seq<nat>)
    requires InRange(w, a + b)
    ensures InRange(w, a) && InRange(w, b) && Mass(w, a + b) == Mass(w, a) + Mass(w, b)
  {
    forall i | 0 <= i < |a| ensures a[i] < |w| {
      assert (a + b)[i] == a[i];
    }
    forall i | 0 <= i < |b| ensures b[i] < |w| {
      assert (a + b)[|a| + i] == b[i];
    }
    if b == [] {
      assert a + b == a;
    } else {
      assert (a + b)[..|a + b| - 1] == a + b[..|b| - 1];
      MassSplit(w, a, b[..|b| - 1]);
    }
  }

  lemma {:induction false} MassShorter(w: seq<real>, n: nat, order: seq<nat>)
    requires n <= |w| && InRange(w[..n], order)
    ensures InRange(w, order) && Mass(w, order) == Mass(w[..n], order)
  {
    if order != [] {
      MassShorter(w, n, order[..|order| - 1]);
    }
  }

  lemma WithoutOne(w: seq<real>, order: seq<nat>, p: nat)
    requires w != [] && |order| == |w| && InRange(w, order) && Distinct(order)
    requires p < |order| && order[p] == |w| - 1
    ensures var rest := order[..p] + order[p + 1..];
      InRange(w[..|w| - 1], rest) && Distinct(rest) && Mass(w, order) == Mass(w[..|w| - 1], rest) + w[|w| - 1]
  {
    hide Mass;
    var rest := order[..p] + order[p + 1..];
    forall i | 0 <= i < |rest| ensures rest[i] == order[if i < p then i else i + 1] && rest[i] < |w| - 1 {
      assert rest[i] == order[if i < p then i else i + 1];
    }
    MassShorter(w, |w| - 1, rest);
    MassMiddle(w, order[..p], |w| - 1, order[p + 1..]);
    assert order == order[..p] + [|w| - 1] + order[p + 1..];
  }

  lemma MassMiddle(w: seq<real>, a: seq<nat>, x: nat, b: seq<nat>)
    requires InRange(w, a + [x] + b) && InRange(w, a + b) && x < |w|
    ensures Mass(w, a + [x] + b) == Mass(w, a + b) + w[x]
  {
    MassSplit(w, a + [x], b);
    MassSplit(w, a, b);
    assert (a + [x])[..|a|] == a;
  }

  /** Taking every candidate takes the whole mass, in whatever order. */
  lemma {:induction false} WholeMass(w: seq<real>, order: seq<nat>)
    requires |order| == |w| && InRange(w, order) && Distinct(order)
    ensures Mass(w, order) == Sum(w)
    decreases |w|
  {
    if w != [] {
      var p := Position(order, |w| - 1);
      WithoutOne(w, order, p);
      WholeMass(w[..|w| - 1], order[..p] + order[p + 1..]);
    }
  }

  /** |order| distinct numbers below |order| include every one of them. */
  lemma Position(order: seq<nat>, x: nat) returns (p: nat)
    requires Distinct(order) && x < |order| && forall i :: 0 <= i < |order| ==> order[i] < |order|
    ensures p < |order| && order[p] == x
  {
    p := 0;
    if i :| 0 <= i < |order| && order[i] == x {
      p := i;
    } else {
      TooFew(order, Upto(|order|) - {x});
    }
  }

  lemma {:induction false} TooFew(order: seq<nat>, among: set<nat>)
    requires Distinct(order) && forall i :: 0 <= i < |order| ==> order[i] in among
    ensures |order| <= |among|
  {
    if order != [] {
      var n := |order| - 1;
      TooFew(order[..n], among - {order[n]});
    }
  }

  function Upto(n: nat): (r: set<nat>)
    ensures |r| == n && forall x: nat :: x in r <==> x < n
  {
    if n == 0 then {} else Upto(n - 1) + {n - 1}
  }

  predicate Positive(w: seq<real>) {
    forall i :: 0 <= i < |w| ==> w[i] > 0.0
  }

  lemma {:induction false} MassGrows(w: seq<real>, order: seq<nat>, a: nat, b: nat)
    requires Positive(w) && InRange(w, order) && a <= b <= |order|
    ensures Mass(w, order[..a]) <= Mass(w, order[..b])
    ensures a < b ==> Mass(w, order[..a]) < Mass(w, order[..b])
    decreases b - a
  {
    if a < b {
      assert order[..b][..b - 1] == order[..b - 1];
      MassGrows(w, order, a, b - 1);
    }
  }

  /** `kept` candidates are the smallest prefix of the order whose mass reaches the threshold. */
  predicate Nucleus(w: seq<real>, order: seq<nat>, threshold: real, kept: nat)
    requires InRange(w, order)
  {
    && 1 <= kept <= |order|
    && Mass(w, order[..kept]) >= threshold
    && forall m :: 1 <= m < kept ==> Mass(w, order[..m]) < threshold
  }

  /** Candidate `k` of the order is the one whose share of the kept mass holds the draw. */
  predicate Drawn(w: seq<real>, order: seq<nat>, kept: nat, r: real, k: nat)
    requires InRange(w, order)
  {
    && k < kept <= |order|
    && Mass(w, order[..k]) <= r * Mass(w, order[..kept]) < Mass(w, order[..k + 1])
  }

  function Clamp(x: real, lo: real, hi: real): real {
    if x < lo then lo else if x > hi then hi else x
  }

  const F64_EPSILON: real := 1.0 / 4503599627370496.0

  /** The softmax weights; `exp` is any positive function. */
  function Weights(logits: seq<real>, max: real, temp: real, exp: real -> real): (w: seq<real>)
    requires temp > 0.0
    ensures |w| == |logits|
  {
    seq(|logits|, i requires 0 <= i < |logits| => exp((logits[i] - max) / temp))
  }

  function MaxOf(logits: seq<real>): real
    requires logits != []
  {
    if |logits| == 1 then logits[0]
    else var m := MaxOf(logits[..|logits| - 1]); if logits[|logits| - 1] > m then logits[|logits| - 1] else m
  }

  function WeightsOf(logits: seq<real>, temp: real, exp: real -> real): (w: seq<real>)
    requires logits != []
  {
    Weights(logits, MaxOf(logits), if temp > 0.0001 then temp else 0.0001, exp)
  }

  /** The softmax of the logits: each weight is the exponential of how far its logit lies below a largest one, divided
      by the temperature. */
  ghost predicate Softmax(w: seq<real>, logits: seq<real>, temp: real, exp: real -> real) {
    |w| == |logits| && exists top :: 0 <= top < |logits| && SoftmaxFrom(w, logits, temp, exp, top)
  }

  ghost predicate SoftmaxFrom(w: seq<real>, logits: seq<real>, temp: real, exp: real -> real, top: nat)
    requires |w| == |logits| && top < |logits|
  {
    var t := if temp > 0.0001 then temp else 0.0001;
    forall i :: 0 <= i < |logits| ==> logits[i] <= logits[top] && w[i] == exp((logits[i] - logits[top]) / t)
  }

  lemma {:induction false} MaxIsLargest(logits: seq<real>)
    requires logits != []
    ensures exists top :: 0 <= top < |logits| && logits[top] == MaxOf(logits)
    ensures forall i :: 0 <= i < |logits| ==> logits[i] <= MaxOf(logits)
  {
    var n := |logits| - 1;
    if n > 0 {
      MaxIsLargest(logits[..n]);
      var top :| 0 <= top < n && logits[..n][top] == MaxOf(logits[..n]);
      assert logits[top] == MaxOf(logits[..n]) && logits[n] == logits[|logits| - 1];
      forall i | 0 <= i < |logits| ensures logits[i] <= MaxOf(logits) {
        assert i < n ==> logits[..n][i] == logits[i];
      }
    } else {
      assert logits[0] == MaxOf(logits);
    }
  }

  lemma WeightsAreSoftmax(logits: seq<real>, temp: real, exp: real -> real)
    requires logits != []
    ensures Softmax(WeightsOf(logits, temp, exp), logits, temp, exp)
  {
    MaxIsLargest(logits);
    var top :| 0 <= top < |logits| && logits[top] == MaxOf(logits);
    assert SoftmaxFrom(WeightsOf(logits, temp, exp), logits, temp, exp, top);
  }

  lemma Divided(a: real, b: real, t: real)
    requires t > 0.0
    ensures a < b <==> a / t < b / t
  {
    Scaled(b, a / t, t);
    assert a / t * t == a;
  }

  /** Heavier exactly where the logit is larger; and some largest logit has weight exp(0). */
  lemma HeavierIsLikelier(w: seq<real>, logits: seq<real>, temp: real, exp: real -> real, i: nat, j: nat)
    requires Softmax(w, logits, temp, exp) && i < |logits| && j < |logits|
    requires forall x: real, y: real :: x < y ==> exp(x) < exp(y)
    ensures w[i] < w[j] <==> logits[i] < logits[j]
    ensures exists top :: 0 <= top < |logits| && w[top] == exp(0.0) && logits[top] >= logits[i]
  {
    var t := if temp > 0.0001 then temp else 0.0001;
    var top :| 0 <= top < |logits| && SoftmaxFrom(w, logits, temp, exp, top);
    var a, b := (logits[i] - logits[top]) / t, (logits[j] - logits[top]) / t;
    Divided(logits[i] - logits[top], logits[j] - logits[top], t);
    Divided(logits[j] - logits[top], logits[i] - logits[top], t);
    assert w[i] == exp(a) && w[j] == exp(b);
    var zero := (logits[top] - logits[top]) / t;
    assert zero == 0.0 && w[top] == exp(zero);
  }

  ghost predicate Adds(exp: real -> real, x: real, y: real) {
    exp(x + y) == exp(x) * exp(y)
  }

  /** For an exponential the ratio of two weights depends on the difference of their logits alone. */
  lemma WeightRatio(w: seq<real>, logits: seq<real>, temp: real, exp: real -> real, i: nat, j: nat)
    requires Softmax(w, logits, temp, exp) && i < |logits| && j < |logits|
    requires forall x: real, y: real :: Adds(exp, x, y)
    ensures w[i] == w[j] * exp((logits[i] - logits[j]) / if temp > 0.0001 then temp else 0.0001)
  {
    var t := if temp > 0.0001 then temp else 0.0001;
    var top :| 0 <= top < |logits| && SoftmaxFrom(w, logits, temp, exp, top);
    var x, y := (logits[j] - logits[top]) / t, (logits[i] - logits[j]) / t;
    assert w[i] == exp((logits[i] - logits[top]) / t) && w[j] == exp(x);
    TwoSteps(logits[i], logits[j], logits[top], t);
    assert Adds(exp, x, y);
  }

  lemma TwoSteps(a: real, b: real, c: real, t: real)
    requires t > 0.0
    ensures (a - c) / t == (b - c) / t + (a - b) / t
  {
  }

  /** The loop that keeps the nucleus. */
  method KeepNucleus(w: seq<real>, order: seq<nat>, threshold: real) returns (kept: nat, mass: real)
    requires w != [] && Positive(w) && Descending(w, order) && threshold <= Sum(w)
    ensures Nucleus(w, order, threshold, kept) && mass == Mass(w, order[..kept]) && mass > 0.0
  {
    hide Sum, Descending, Mass;
    DescendingFacts(w, order);
    WholeMass(w, order);
    assert order[..|order|] == order;
    MassStep(w, order, 0);
    kept, mass := 0, 0.0;
    while kept < |order|
      invariant kept <= |order| && mass == Mass(w, order[..kept])
      invariant forall m :: 1 <= m <= kept ==> Mass(w, order[..m]) < threshold
    {
      MassStep(w, order, kept);
      kept := kept + 1;
      mass := mass + w[order[kept - 1]];
      if mass >= threshold {
        break;
      }
    }
    MassGrows(w, order, 0, kept);
  }

  lemma MassStep(w: seq<real>, order: seq<nat>, i: nat)
    requires InRange(w, order) && i <= |order|
    ensures i < |order| ==> Mass(w, order[..i + 1]) == Mass(w, order[..i]) + w[order[i]]
    ensures i == 0 ==> Mass(w, order[..i]) == 0.0
  {
    if i < |order| {
      assert order[..i + 1][..i] == order[..i];
    }
  }

  /** The loop that spends the draw; the original's last-resort return is never reached. */
  method Spend(w: seq<real>, order: seq<nat>, kept: nat, mass: real, r: real) returns (k: nat)
    requires InRange(w, order) && kept <= |order| && mass == Mass(w, order[..kept]) && mass > 0.0 && 0.0 <= r < 1.0
    ensures Drawn(w, order, kept, r, k) && k < kept
  {
    hide Mass;
    SpendBelow(r, mass);
    MassStep(w, order, 0);
    var share := r * mass;
    var x := share;
    for i := 0 to kept
      invariant x == share - Mass(w, order[..i]) && x >= 0.0 && share < mass
    {
      MassStep(w, order, i);
      if x < w[order[i]] {
        return i;
      }
      x := x - w[order[i]];
    }
    assert false;
  }

  /** top_p of the whole mass, with the bounds the original puts on top_p. */
  function Threshold(w: seq<real>, topP: real): real {
    Sum(w) * Clamp(topP, 0.000001, 1.0)
  }

  /** The draw, kept below 1. */
  function Draw(r: real): (d: real)
    ensures 0.0 <= d < 1.0
  {
    Clamp(r, 0.0, 1.0 - F64_EPSILON)
  }

  /** Inside their bounds both are as given. */
  lemma BoundsKeep(w: seq<real>, topP: real, r: real)
    ensures 0.000001 <= topP <= 1.0 ==> Threshold(w, topP) == Sum(w) * topP
    ensures topP > 1.0 ==> Threshold(w, topP) == Sum(w)
    ensures topP < 0.000001 ==> Threshold(w, topP) == Sum(w) * 0.000001
    ensures 0.0 <= r <= 1.0 - F64_EPSILON ==> Draw(r) == r
    ensures r < 0.0 ==> Draw(r) == 0.0
    ensures r > 1.0 - F64_EPSILON ==> Draw(r) == 1.0 - F64_EPSILON
  {
  }

  /** `id` is what nucleus sampling draws: some descending order, its nucleus, and the candidate there that the draw
      falls to. Ties aside there is only one such id (NucleusIsUnique, OneDrawn). */
  ghost predicate Sampled(ids: seq<Token>, w: seq<real>, topP: real, r: real, id: Token) {
    |ids| == |w| && exists order, kept, k :: SampledBy(ids, w, topP, r, id, order, kept, k)
  }

  ghost predicate SampledBy(ids: seq<Token>, w: seq<real>, topP: real, r: real, id: Token, order: seq<nat>, kept: nat,
                            k: nat)
    requires |ids| == |w|
  {
    && Descending(w, order) && Nucleus(w, order, Threshold(w, topP), kept) && Drawn(w, order, kept, Draw(r), k)
    && id == ids[order[k]]
  }

  /** Draws one token. */
  method SampleCandidates(ids: seq<Token>, logits: seq<real>, temp: real, topP: real, r: real, exp: real -> real)
    returns (id: Token)
    requires ids != [] && |ids| == |logits| && forall x: real :: exp(x) > 0.0
    ensures Sampled(ids, WeightsOf(logits, temp, exp), topP, r, id)
    ensures exists w :: Softmax(w, logits, temp, exp) && Sampled(ids, w, topP, r, id)
  {
    hide *;
    WeightsAreSoftmax(logits, temp, exp);
    var w := WeightsOf(logits, temp, exp);
    WeightsPositive(logits, temp, exp);
    OrderExists(w);
    var sorted :| Descending(w, sorted);
    ThresholdReached(w, sorted, topP);
    var n, mass := KeepNucleus(w, sorted, Threshold(w, topP));
    NucleusFacts(w, sorted, Threshold(w, topP), n);
    var pick := Spend(w, sorted, n, mass, Draw(r));
    id := ids[sorted[pick]];
    IsSampled(ids, w, topP, r, id, sorted, n, pick);
  }

  lemma IsSampled(ids: seq<Token>, w: seq<real>, topP: real, r: real, id: Token, order: seq<nat>, kept: nat, k: nat)
    requires |ids| == |w| && Descending(w, order)
    requires Nucleus(w, order, Threshold(w, topP), kept) && Drawn(w, order, kept, Draw(r), k) && id == ids[order[k]]
    ensures Sampled(ids, w, topP, r, id)
  {
    hide Descending, Nucleus, Drawn, Threshold, Draw;
    assert SampledBy(ids, w, topP, r, id, order, kept, k);
  }

  lemma WeightsPositive(logits: seq<real>, temp: real, exp: real -> real)
    requires logits != [] && forall x: real :: exp(x) > 0.0
    ensures Positive(WeightsOf(logits, temp, exp)) && |WeightsOf(logits, temp, exp)| == |logits|
  {
  }

  lemma ThresholdReached(w: seq<real>, order: seq<nat>, topP: real)
    requires Positive(w) && Descending(w, order)
    ensures InRange(w, order) && |order| == |w| && Threshold(w, topP) <= Sum(w)
  {
    hide Mass, Sum, Clamp, Threshold;
    DescendingFacts(w, order);
    MassNotNegative(w, order);
    WholeMass(w, order);
    ThresholdShare(w, topP);
  }

  lemma MassNotNegative(w: seq<real>, order: seq<nat>)
    requires Positive(w) && InRange(w, order)
    ensures Mass(w, order) >= 0.0
  {
    MassGrows(w, order, 0, |order|);
    assert order[..|order|] == order && order[..0] == [];
  }

  lemma ThresholdShare(w: seq<real>, topP: real)
    requires Sum(w) >= 0.0
    ensures Threshold(w, topP) <= Sum(w)
  {
    ShareOf(Sum(w), Clamp(topP, 0.000001, 1.0));
  }

  lemma NucleusFacts(w: seq<real>, order: seq<nat>, threshold: real, kept: nat)
    requires InRange(w, order) && Nucleus(w, order, threshold, kept)
    ensures 1 <= kept <= |order|
    ensures forall k :: 0 <= k < |order| ==> order[k] < |w|
  {
  }

  lemma DescendingFacts(w: seq<real>, order: seq<nat>)
    requires Descending(w, order)
    ensures |order| == |w| && InRange(w, order) && Distinct(order)
  {
  }

  lemma ShareOf(total: real, share: real)
    requires total >= 0.0 && share <= 1.0
    ensures total * share <= total
  {
  }

  lemma SpendBelow(r: real, mass: real)
    requires mass > 0.0 && 0.0 <= r < 1.0
    ensures 0.0 <= r * mass < mass
  {
  }

  // ---- what the two predicates pin down ----

  /** The nucleus has one size: it does not depend on how ties were ordered. */
  lemma {:induction false} SameMass(w: seq<real>, a: seq<nat>, b: seq<nat>, n: nat)
    requires Descending(w, a) && Descending(w, b) && n <= |w|
    ensures Mass(w, a[..n]) == Mass(w, b[..n])
  {
    if n > 0 {
      SameMass(w, a, b, n - 1);
      assert a[..n][..n - 1] == a[..n - 1] && b[..n][..n - 1] == b[..n - 1];
      NotLighter(w, a, b, n - 1);
      NotLighter(w, b, a, n - 1);
    }
  }

  /** Place `n` weighs the same in every descending order. */
  lemma NotLighter(w: seq<real>, a: seq<nat>, b: seq<nat>, n: nat)
    requires Descending(w, a) && Descending(w, b) && n < |w|
    ensures w[a[n]] >= w[b[n]]
  {
    // One of the first n + 1 places of b is held by none of the first n places of a.
    if j :| 0 <= j <= n && b[j] !in a[..n] {
      var p := Position(a, b[j]);
      assert forall i :: 0 <= i < n ==> a[i] in a[..n];
      assert w[a[n]] >= w[a[p]];
      assert w[b[j]] >= w[b[n]];
    } else {
      TooFew(b[..n + 1], Elements(a[..n]));
    }
  }

  function Elements(a: seq<nat>): (r: set<nat>)
    ensures |r| <= |a| && forall x :: x in a ==> x in r
  {
    if a == [] then {} else
      assert a == a[..|a| - 1] + [a[|a| - 1]];
      Elements(a[..|a| - 1]) + {a[|a| - 1]}
  }

  lemma NucleusIsUnique(w: seq<real>, a: seq<nat>, b: seq<nat>, threshold: real, m: nat, n: nat)
    requires Descending(w, a) && Descending(w, b) && Nucleus(w, a, threshold, m) && Nucleus(w, b, threshold, n)
    ensures m == n && Mass(w, a[..m]) == Mass(w, b[..n])
  {
    SameMass(w, a, b, m);
    SameMass(w, a, b, n);
  }

  /** Draws in [0, 1) are divided among the kept candidates: each draw falls to exactly one. */
  lemma OneDrawn(w: seq<real>, order: seq<nat>, kept: nat, r: real, k: nat, l: nat)
    requires Positive(w) && InRange(w, order) && Drawn(w, order, kept, r, k) && Drawn(w, order, kept, r, l)
    ensures k == l
  {
    if k < l {
      MassGrows(w, order, k + 1, l);
    } else if l < k {
      MassGrows(w, order, l + 1, k);
    }
  }

  /** With no two weights equal, the draw alone decides. */
  lemma SampledOnce(ids: seq<Token>, w: seq<real>, topP: real, r: real, x: Token, y: Token)
    requires Positive(w) && forall i, j :: 0 <= i < j < |w| ==> w[i] != w[j]
    requires Sampled(ids, w, topP, r, x) && Sampled(ids, w, topP, r, y)
    ensures x == y
  {
    hide Descending, Nucleus, Threshold, Drawn;
    var a, m, k :| SampledBy(ids, w, topP, r, x, a, m, k);
    var b, n, l :| SampledBy(ids, w, topP, r, y, b, n, l);
    DescendingFacts(w, a);
    DescendingFacts(w, b);
    forall i | 0 <= i < |w| ensures a[i] == b[i] {
      NotLighter(w, a, b, i);
      NotLighter(w, b, a, i);
    }
    assert a == b;
    NucleusIsUnique(w, a, b, Threshold(w, topP), m, n);
    OneDrawn(w, a, m, Draw(r), k, l);
  }

  /** And the interval that falls to a candidate is as wide as its weight in the kept mass. */
  lemma DrawWidth(w: seq<real>, order: seq<nat>, kept: nat, r: real, k: nat)
    requires Positive(w) && InRange(w, order) && k < kept <= |order|
    ensures Mass(w, order[..kept]) > 0.0
    ensures var low := Mass(w, order[..k]) / Mass(w, order[..kept]);
      Drawn(w, order, kept, r, k) <==> low <= r < low + w[order[k]] / Mass(w, order[..kept])
  {
    MassGrows(w, order, 0, kept);
    MassStep(w, order, 0);
    MassStep(w, order, k);
    hide Mass;
    Interval(Mass(w, order[..k]), w[order[k]], r, Mass(w, order[..kept]));
  }

  lemma Interval(a: real, b: real, r: real, m: real)
    requires m > 0.0
    ensures a <= r * m < a + b <==> a / m <= r < a / m + b / m
  {
    Scaled(a, r, m);
    Scaled(a + b, r, m);
    assert (a + b) / m == a / m + b / m;
  }

  lemma Scaled(a: real, r: real, m: real)
    requires m > 0.0
    ensures a / m <= r <==> a <= r * m
  {
    assert a == a / m * m;
    Times(a / m, r, m);
  }

  lemma Times(x: real, y: real, m: real)
    requires m > 0.0
    ensures x <= y <==> x * m <= y * m
  {
    if x <= y {
      assert (y - x) * m >= 0.0;
    } else {
      assert (x - y) * m > 0.0;
    }
  }
}
