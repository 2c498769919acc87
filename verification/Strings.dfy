/** Substring search. */
module Strings {
  import opened Common

  predicate At(t: string, p: string, i: nat) {
    i + |p| <= |t| && t[i..i + |p|] == p
  }

  predicate Occurs(t: string, p: string) {
    exists i :: 0 <= i <= |t| && At(t, p, i)
  }

  /** Index of the first occurrence at or after `from`. */
  function FindFrom(t: string, p: string, from: nat): (r: Option<nat>)
    requires from <= |t|
    ensures r.Some? ==> from <= r.value <= |t| && At(t, p, r.value) && forall j :: from <= j < r.value ==> !At(t, p, j)
    ensures r.None? ==> forall j :: from <= j <= |t| ==> !At(t, p, j)
    decreases |t| - from
  {
    if At(t, p, from) then Some(from)
    else if from == |t| then None
    else FindFrom(t, p, from + 1)
  }

  /** str::find */
  function Find(t: string, p: string): (r: Option<nat>)
    ensures r.Some? <==> Occurs(t, p)
    ensures r.Some? ==> r.value + |p| <= |t| && At(t, p, r.value) && forall j :: 0 <= j < r.value ==> !At(t, p, j)
  {
    FindFrom(t, p, 0)
  }

  /** The first occurrence is determined by what it is. */
  lemma FindIs(t: string, p: string, i: nat)
    requires At(t, p, i) && forall j :: 0 <= j < i ==> !At(t, p, j)
    ensures Find(t, p) == Some(i)
  {
    var r := Find(t, p);
    assert Occurs(t, p) by {
      assert 0 <= i <= |t| && At(t, p, i);
    }
  }

  lemma AtPrefix(t: string, more: string, p: string, i: nat)
    requires i + |p| <= |t|
    ensures At(t + more, p, i) <==> At(t, p, i)
  {
    assert (t + more)[i..i + |p|] == t[i..i + |p|];
  }

  lemma AtShift(pre: string, t: string, p: string, i: nat)
    ensures At(pre + t, p, |pre| + i) <==> At(t, p, i)
  {
    if i + |p| <= |t| {
      assert (pre + t)[|pre| + i..|pre| + i + |p|] == t[i..i + |p|];
    }
  }

  /** Text in which no occurrence starts can be dropped from the front. */
  lemma FindShift(pre: string, t: string, p: string)
    requires forall i :: 0 <= i < |pre| ==> !At(pre + t, p, i)
    ensures Find(pre + t, p) == match Find(t, p) { case None => None case Some(k) => Some(|pre| + k) }
  {
    match Find(t, p)
    case Some(k) =>
      AtShift(pre, t, p, k);
      forall i | |pre| <= i < |pre| + k ensures !At(pre + t, p, i) {
        AtShift(pre, t, p, i - |pre|);
      }
      FindIs(pre + t, p, |pre| + k);
    case None =>
      forall i | |pre| <= i <= |pre + t| ensures !At(pre + t, p, i) {
        AtShift(pre, t, p, i - |pre|);
      }
      assert !Occurs(pre + t, p);
  }

  /** A pattern whose first character does not come again in it is found where it was put. */
  lemma FindBehind(body: string, p: string, rest: string)
    requires p != "" && !Occurs(body, p) && forall k :: 0 < k < |p| ==> p[k] != p[0]
    ensures Find(body + p + rest, p) == Some(|body|)
  {
    var t := body + p + rest;
    assert t[|body|..|body| + |p|] == p && t[|body|] == p[0];
    forall j | 0 <= j < |body| ensures !At(t, p, j) {
      if At(t, p, j) {
        if j + |p| <= |body| {
          assert t == body + (p + rest);
          AtPrefix(body, p + rest, p, j);
        } else {
          AtChar(t, p, j, |body| - j);
        }
      }
    }
    FindIs(t, p, |body|);
  }

  lemma AtChar(t: string, p: string, i: nat, k: nat)
    requires At(t, p, i) && k < |p|
    ensures t[i + k] == p[k]
  {
    assert t[i + k] == t[i..i + |p|][k];
  }

  /** More text after a first occurrence does not move it. */
  lemma FindStable(t: string, more: string, p: string)
    requires Find(t, p).Some?
    ensures Find(t + more, p) == Find(t, p)
  {
    var i := Find(t, p).value;
    AtPrefix(t, more, p, i);
    forall j | 0 <= j < i ensures !At(t + more, p, j) {
      AtPrefix(t, more, p, j);
    }
    FindIs(t + more, p, i);
  }

  lemma OccursMono(t: string, more: string, p: string)
    requires Occurs(t, p)
    ensures Occurs(t + more, p)
  {
    FindStable(t, more, p);
  }

  lemma OccursSplit(pre: string, p: string, post: string)
    ensures Occurs(pre + p + post, p)
  {
    assert (pre + p + post)[|pre|..|pre| + |p|] == p;
    assert At(pre + p + post, p, |pre|);
  }

  lemma OccursTrans(t: string, p: string, q: string)
    requires Occurs(t, p) && Occurs(p, q)
    ensures Occurs(t, q)
  {
    var i :| 0 <= i <= |t| && At(t, p, i);
    var j :| 0 <= j <= |p| && At(p, q, j);
    var s := t[i..i + |p|];
    forall k | 0 <= k < |q| ensures t[i + j + k] == q[k] {
      assert t[i + j + k] == s[j + k] == s[j..j + |q|][k];
    }
    assert t[i + j..i + j + |q|] == q;
    assert At(t, q, i + j);
  }

  function Concat(pieces: seq<string>): string {
    if pieces == [] then "" else pieces[0] + Concat(pieces[1..])
  }

  lemma {:induction false} ConcatAppend(a: seq<string>, b: seq<string>)
    ensures Concat(a + b) == Concat(a) + Concat(b)
  {
    if a == [] {
      assert a + b == b;
    } else {
      assert (a + b)[1..] == a[1..] + b;
      ConcatAppend(a[1..], b);
    }
  }
}
