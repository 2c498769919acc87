/** Stop strings over streamed text (http.rs). */
module Stops {
  import opened Common
  import opened Strings

  /** What a stream of pieces comes to: cut before a stop string, or let through whole. */
  datatype Outcome = Hit(stop: string, content: string) | Through(content: string)

  /** The first stop, in list order, that occurs in `t`. */
  function FirstStop(stops: seq<string>, t: string): (r: Option<nat>)
    ensures r.Some? ==> r.value < |stops| && Occurs(t, stops[r.value])
    ensures r.Some? ==> forall j :: 0 <= j < r.value ==> !Occurs(t, stops[j])
    ensures r.None? ==> forall j :: 0 <= j < |stops| ==> !Occurs(t, stops[j])
  {
    if stops == [] then None
    else if Find(t, stops[0]).Some? then Some(0)
    else match FirstStop(stops[1..], t)
      case None => None
      case Some(k) => Some(k + 1)
  }

  /** The specification: look at all text received so far after every piece. */
  function Detect(stops: seq<string>, seen: string, pieces: seq<string>): Outcome
    decreases |pieces|
  {
    if pieces == [] then Through(seen)
    else
      var t := seen + pieces[0];
      match FirstStop(stops, t)
      case None => Detect(stops, t, pieces[1..])
      case Some(k) => Hit(stops[k], t[..Find(t, stops[k]).value])
  }

  predicate Clean(stops: seq<string>, t: string) {
    forall j :: 0 <= j < |stops| ==> !Occurs(t, stops[j])
  }

  function MaxHold(stops: seq<string>): (h: nat)
    ensures forall j :: 0 <= j < |stops| ==> |stops[j]| <= h + 1
  {
    if stops == [] then 0 else
      var rest := MaxHold(stops[1..]);
      var own := if |stops[0]| > 0 then |stops[0]| - 1 else 0;
      if own > rest then own else rest
  }

  class StopDetector {
    const stops: seq<string>
    const holdChars: nat
    var held: string
    var ready: string
    // All text pushed, and all text already taken.
    ghost var seen: string
    ghost var taken: string

    /** Nothing is lost, no stop has occurred, and enough is held back for any stop to be completed. */
    ghost predicate Valid()
      reads this
    {
      && taken + ready + held == seen && Clean(stops, seen)
      && (forall j :: 0 <= j < |stops| ==> 1 <= |stops[j]| <= holdChars + 1)
      && (|held| >= holdChars || held == seen)
    }

    constructor (all: seq<string>)
      ensures Valid() && seen == "" && taken == "" && ready == ""
      ensures stops == NonEmpty(all)
    {
      stops := NonEmpty(all);
      holdChars := MaxHold(all);
      held, ready, seen, taken := "", "", "", "";
      new;
      NonEmptyShort(all);
      forall j | 0 <= j < |stops| ensures !Occurs("", stops[j]) {
      }
    }

    /** Reports the same stop, and leaves the same text, as a search over everything received so far. */
    method Push(text: string) returns (hit: Option<string>)
      requires Valid()
      modifies this
      ensures seen == old(seen) + text && taken == old(taken)
      ensures hit.None? <==> FirstStop(stops, seen).None?
      ensures hit.None? ==> Valid() && |held| <= holdChars
      ensures hit.Some? ==>
        && hit.value == stops[FirstStop(stops, seen).value]
        && taken + ready + held == seen[..Find(seen, hit.value).value]
    {
      hide Find, FirstStop, Occurs, At, Clean;
      ghost var gone, before := taken + ready, seen;
      held := held + text;
      seen := seen + text;
      assert gone + held == seen;
      HeldFirst(stops, before, text, gone, held, holdChars);
      var found := Search(stops, held);
      match found
      case Some((stop, pos)) =>
        assert Occurs(held, stop);
        CutAt(taken, ready, held, pos);
        ready := ready + held[..pos];
        held := "";
        return Some(stop);
      case None =>
        StillClean(stops, seen);
        if |held| > holdChars {
          var split := |held| - holdChars;
          Moved(taken, ready, held, split);
          ready := ready + held[..split];
          held := held[split..];
        }
        return None;
    }

    method TakeReady() returns (r: string)
      modifies this
      ensures r == old(ready) && ready == "" && taken == old(taken) + r && held == old(held) && seen == old(seen)
      ensures old(Valid()) ==> Valid()
    {
      r := ready;
      ready := "";
      taken := taken + r;
    }

    method Finish() returns (r: string)
      ensures r == ready + held
    {
      r := ready + held;
    }
  }

  lemma CutAt(taken: string, ready: string, held: string, pos: nat)
    requires pos <= |held|
    ensures (taken + ready + held)[..|taken + ready| + pos] == taken + (ready + held[..pos]) + ""
  {
  }

  lemma Moved(taken: string, ready: string, held: string, split: nat)
    requires split <= |held|
    ensures taken + (ready + held[..split]) + held[split..] == taken + ready + held
  {
  }

  lemma StillClean(stops: seq<string>, t: string)
    requires FirstStop(stops, t) == None
    ensures Clean(stops, t)
  {
  }

  function NonEmpty(all: seq<string>): seq<string> {
    if all == [] then [] else (if all[0] == "" then [] else [all[0]]) + NonEmpty(all[1..])
  }

  lemma NonEmptyShort(all: seq<string>)
    ensures forall j :: 0 <= j < |NonEmpty(all)| ==> 1 <= |NonEmpty(all)[j]| <= MaxHold(all) + 1
  {
    if all != [] {
      NonEmptyShort(all[1..]);
      forall j | 0 <= j < |NonEmpty(all)| ensures 1 <= |NonEmpty(all)[j]| <= MaxHold(all) + 1 {
        if all[0] != "" && j > 0 {
          assert NonEmpty(all)[j] == NonEmpty(all[1..])[j - 1];
        }
      }
    }
  }

  /** The loop over the stops, in list order. */
  method Search(stops: seq<string>, held: string) returns (hit: Option<(string, nat)>)
    ensures hit.None? ==> FirstStop(stops, held) == None
    ensures hit.Some? ==>
      && FirstStop(stops, held).Some? && hit.value.0 == stops[FirstStop(stops, held).value]
      && Find(held, hit.value.0) == Some(hit.value.1)
  {
    for i := 0 to |stops|
      invariant forall j :: 0 <= j < i ==> !Occurs(held, stops[j])
    {
      match Find(held, stops[i])
      case None =>
      case Some(pos) => return Some((stops[i], pos));
    }
    return None;
  }

  /** Text that has been let go can take no part in a later occurrence. */
  lemma GoneIsClean(before: string, text: string, gone: string, held: string, p: string, hold: nat, i: nat)
    requires gone + held == before + text && !Occurs(before, p) && 1 <= |p| <= hold + 1
    requires |gone| <= |before| && (|before| - |gone| >= hold || gone == "")
    requires i < |gone|
    ensures !At(before + text, p, i)
  {
    AtPrefix(before, text, p, i);
  }

  /** So searching the held text is searching all of it. */
  lemma HeldSees(before: string, text: string, gone: string, held: string, p: string, hold: nat)
    requires gone + held == before + text && !Occurs(before, p) && 1 <= |p| <= hold + 1
    requires |gone| <= |before| && (|before| - |gone| >= hold || gone == "")
    ensures Find(before + text, p) ==
            match Find(held, p) { case None => None case Some(k) => Some(|gone| + k) }
  {
    forall i | 0 <= i < |gone| ensures !At(gone + held, p, i) {
      GoneIsClean(before, text, gone, held, p, hold, i);
    }
    FindShift(gone, held, p);
  }

  /** In particular both searches settle on the same stop. */
  lemma {:induction false} HeldFirst(stops: seq<string>, before: string, text: string, gone: string, held: string,
                                     hold: nat)
    requires gone + held == before + text && Clean(stops, before)
    requires forall j :: 0 <= j < |stops| ==> 1 <= |stops[j]| <= hold + 1
    requires |gone| <= |before| && (|before| - |gone| >= hold || gone == "")
    ensures FirstStop(stops, held) == FirstStop(stops, before + text)
    ensures forall k :: 0 <= k < |stops| && Occurs(held, stops[k]) ==>
      Find(before + text, stops[k]) == Some(|gone| + Find(held, stops[k]).value)
  {
    forall k | 0 <= k < |stops|
      ensures Occurs(held, stops[k]) == Occurs(before + text, stops[k])
      ensures Occurs(held, stops[k]) ==> Find(before + text, stops[k]) == Some(|gone| + Find(held, stops[k]).value)
    {
      HeldSees(before, text, gone, held, stops[k], hold);
    }
    SameFirst(stops, held, before + text);
  }

  lemma SameFirst(stops: seq<string>, t: string, u: string)
    requires forall k :: 0 <= k < |stops| ==> Occurs(t, stops[k]) == Occurs(u, stops[k])
    ensures FirstStop(stops, t) == FirstStop(stops, u)
  {
    var a, b := FirstStop(stops, t), FirstStop(stops, u);
    if a.Some? {
      assert Occurs(u, stops[a.value]);
    }
    if b.Some? {
      assert Occurs(t, stops[b.value]);
    }
  }

  function Stopped(o: Outcome): Option<string> {
    match o case Hit(stop, _) => Some(stop) case Through(_) => None
  }

  /** However the text is cut: a stop is reported exactly when one occurs in it,
      and what is kept is everything before the first occurrence of the stop reported. */
  lemma {:induction false} DetectMeaning(stops: seq<string>, seen: string, pieces: seq<string>)
    requires Clean(stops, seen)
    ensures var t := seen + Concat(pieces);
      match Detect(stops, seen, pieces)
      case Through(content) => content == t && Clean(stops, t)
      case Hit(stop, content) => stop in stops && Find(t, stop) == Some(|content|) && content == t[..|content|]
    decreases |pieces|
  {
    if pieces == [] {
      assert seen + Concat(pieces) == seen;
    } else {
      var now, rest := seen + pieces[0], Concat(pieces[1..]);
      assert seen + Concat(pieces) == now + rest;
      match FirstStop(stops, now)
      case None =>
        DetectMeaning(stops, now, pieces[1..]);
      case Some(k) =>
        FindStable(now, rest, stops[k]);
        var at := Find(now, stops[k]).value;
        assert now[..at] == (now + rest)[..at];
    }
  }

  /** Every cutting of every text is handled alike. */
  ghost predicate CutsAgree(stops: seq<string>) {
    forall a: seq<string>, b: seq<string> :: Concat(a) == Concat(b) ==> Detect(stops, "", a) == Detect(stops, "", b)
  }

  /** The first stop of the list occurs in every other one. */
  predicate FirstInAll(stops: seq<string>) {
    forall j :: 0 <= j < |stops| ==> Occurs(stops[j], stops[0])
  }

  /** Then the first stop is the one reported, whatever the cutting. */
  lemma {:induction false} FirstWins(stops: seq<string>, seen: string, pieces: seq<string>)
    requires stops != [] && FirstInAll(stops) && Clean(stops, seen)
    ensures var t := seen + Concat(pieces);
      Detect(stops, seen, pieces) ==
      match Find(t, stops[0]) case None => Through(t) case Some(at) => Hit(stops[0], t[..at])
    decreases |pieces|
  {
    var t := seen + Concat(pieces);
    DetectMeaning(stops, seen, pieces);
    if pieces == [] {
      assert t == seen;
    } else {
      var now := seen + pieces[0];
      assert t == now + Concat(pieces[1..]);
      match FirstStop(stops, now)
      case None =>
        FirstWins(stops, now, pieces[1..]);
      case Some(k) =>
        OccursTrans(now, stops[k], stops[0]);
    }
  }

  /** With the second cutting, the later stop is reported before the first one arrives. */
  lemma LaterStopSeenFirst(stops: seq<string>, j: nat)
    requires j < |stops| && !Occurs(stops[j], stops[0])
    ensures Concat([stops[j] + stops[0]]) == Concat([stops[j], stops[0]])
    ensures Detect(stops, "", [stops[j] + stops[0]]) != Detect(stops, "", [stops[j], stops[0]])
  {
    var first, last := stops[j], stops[0];
    assert Concat([first + last]) == first + last by {
      assert [first + last][1..] == [];
    }
    assert Concat([first, last]) == first + last by {
      assert [first, last][1..] == [last] && [last][1..] == [];
    }
    assert "" + (first + last) == first + last && "" + first == first;
    assert Occurs(first + last, last) by {
      OccursSplit(first, last, "");
      assert first + last + "" == first + last;
    }
    assert Occurs(first, first) by {
      OccursSplit("", first, "");
      assert "" + first + "" == first;
    }
    assert FirstStop(stops, first).Some?;
  }

  /** Exactly when a stop list is cut-independent: it is empty, or its first stop occurs in all the others.
      A single stop string always qualifies. */
  lemma CutIndependence(stops: seq<string>)
    requires Clean(stops, "")
    ensures CutsAgree(stops) <==> stops == [] || FirstInAll(stops)
  {
    if stops == [] || FirstInAll(stops) {
      forall a: seq<string>, b: seq<string> | Concat(a) == Concat(b)
        ensures Detect(stops, "", a) == Detect(stops, "", b)
      {
        if stops == [] {
          DetectMeaning(stops, "", a);
          DetectMeaning(stops, "", b);
        } else {
          FirstWins(stops, "", a);
          FirstWins(stops, "", b);
        }
      }
    } else {
      var j :| 0 <= j < |stops| && !Occurs(stops[j], stops[0]);
      LaterStopSeenFirst(stops, j);
    }
  }

  lemma OneStopIsEnough(stop: string)
    requires stop != ""
    ensures CutsAgree([stop])
  {
    OccursSplit("", stop, "");
    assert "" + stop + "" == stop;
    CutIndependence([stop]);
  }
}
