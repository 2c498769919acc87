/** The byte alphabet and byte-pair merging (tokenizer.rs). */
module BytePairs {
  import opened Common
  import opened Strings
  import opened Utf8

  // ---- bytes as characters ----

  predicate Printable(b: Byte) {
    0x21 <= b <= 0x7E || 0xA1 <= b <= 0xAC || 0xAE <= b
  }

  /** How many bytes below `b` are not printable. */
  function Unprintable(b: nat): nat {
    if b <= 0x21 then b
    else if b <= 0x7F then 0x21
    else if b <= 0xA1 then 0x21 + (b - 0x7F)
    else if b <= 0xAD then 0x43
    else 0x44
  }

  function ByteChar(b: Byte): char {
    if Printable(b) then b as char else (256 + Unprintable(b)) as char
  }

  /** The bytes that stand for themselves: the characters from `!` to `~`, from U+00A1 to U+00AC and from U+00AE on. */
  predicate Itself(b: nat) {
    '!' as int <= b <= '~' as int || 0xA1 <= b <= 0xAC || 0xAE <= b
  }

  function OthersBelow(b: nat): set<nat> {
    set x: nat | x < b && !Itself(x)
  }

  /** The other bytes, in order, get the characters from U+0100 on. */
  lemma ByteCharMeans(b: Byte)
    ensures ByteChar(b) as int == if Itself(b) then b else 256 + |OthersBelow(b)|
  {
    OthersCount(b);
  }

  lemma {:induction false} OthersCount(b: nat)
    requires b <= 256
    ensures |OthersBelow(b)| == Unprintable(b)
  {
    if b == 0 {
      assert OthersBelow(0) == {};
    } else {
      OthersCount(b - 1);
      assert OthersBelow(b) == OthersBelow(b - 1) + if Itself(b - 1) then {} else {b - 1};
    }
  }

  function CharByte(c: char): Option<Byte> {
    var p := c as int;
    if p < 256 then (if Printable(p) then Some(p) else None)
    else if p < 256 + 0x21 then Some(p - 256)
    else if p < 256 + 0x43 then Some(0x7F + (p - 256 - 0x21))
    else if p == 256 + 0x43 then Some(0xAD)
    else None
  }

  /** The two maps are inverse to each other. */
  lemma ByteMapsInverse(b: Byte, c: char)
    ensures ByteChar(b) == c <==> CharByte(c) == Some(b)
  {
  }

  method BuildByteMaps() returns (byteToChar: seq<char>, charToByte: map<char, Byte>)
    ensures |byteToChar| == 256 && forall b: Byte :: byteToChar[b] == ByteChar(b)
    ensures forall c: char ::
      (c in charToByte <==> CharByte(c).Some?) && (c in charToByte ==> Some(charToByte[c]) == CharByte(c))
  {
    var bs: seq<Byte> := seq(0x5E, i requires 0 <= i < 0x5E => 0x21 + i)
                       + seq(0x0C, i requires 0 <= i < 0x0C => 0xA1 + i)
                       + seq(0x52, i requires 0 <= i < 0x52 => 0xAE + i);
    var cs: seq<nat> := bs;
    var n := 0;
    AllPrintables(bs);
    for b := 0 to 256
      invariant |bs| == |cs| && n == Unprintable(b)
      invariant forall x: Byte :: x in bs <==> Printable(x) || x < b
      invariant forall i :: 0 <= i < |bs| ==> cs[i] == ByteChar(bs[i]) as int
    {
      if b !in bs {
        bs, cs := bs + [b], cs + [256 + n];
        n := n + 1;
      }
    }
    byteToChar := seq(256, _ => '\0');
    charToByte := map[];
    for i := 0 to |bs|
      invariant |byteToChar| == 256
      invariant forall x: Byte :: x in bs[..i] ==> byteToChar[x] == ByteChar(x)
      invariant forall c: char :: c in charToByte ==> charToByte[c] in bs[..i] && ByteChar(charToByte[c]) == c
      invariant forall x: Byte :: x in bs[..i] ==> ByteChar(x) in charToByte
    {
      assert bs[..i + 1] == bs[..i] + [bs[i]];
      byteToChar := byteToChar[bs[i] := cs[i] as char];
      charToByte := charToByte[cs[i] as char := bs[i]];
    }
    assert bs[..|bs|] == bs;
    MapsBuilt(charToByte);
  }

  lemma AllPrintables(bs: seq<Byte>)
    requires bs == seq(0x5E, i requires 0 <= i < 0x5E => 0x21 + i)
                 + seq(0x0C, i requires 0 <= i < 0x0C => 0xA1 + i)
                 + seq(0x52, i requires 0 <= i < 0x52 => 0xAE + i)
    ensures forall x: Byte :: x in bs <==> Printable(x)
  {
    forall x: Byte ensures x in bs <==> Printable(x) {
      if 0x21 <= x <= 0x7E {
        assert bs[x - 0x21] == x;
      } else if 0xA1 <= x <= 0xAC {
        assert bs[0x5E + (x - 0xA1)] == x;
      } else if 0xAE <= x {
        assert bs[0x6A + (x - 0xAE)] == x;
      }
    }
  }

  lemma MapsBuilt(charToByte: map<char, Byte>)
    requires forall c: char :: c in charToByte ==> ByteChar(charToByte[c]) == c
    requires forall x: Byte :: ByteChar(x) in charToByte
    ensures forall c: char ::
      (c in charToByte <==> CharByte(c).Some?) && (c in charToByte ==> Some(charToByte[c]) == CharByte(c))
  {
    forall c: char
      ensures (c in charToByte <==> CharByte(c).Some?) && (c in charToByte ==> Some(charToByte[c]) == CharByte(c))
    {
      if c in charToByte {
        ByteMapsInverse(charToByte[c], c);
      }
      if CharByte(c).Some? {
        ByteMapsInverse(CharByte(c).value, c);
      }
    }
  }

  function MapBytes(bytes: seq<Byte>): string {
    seq(|bytes|, i requires 0 <= i < |bytes| => ByteChar(bytes[i]))
  }

  /** Mapped characters back to bytes; the error is the first character outside the map. */
  function UnmapBytes(s: string): Result<seq<Byte>, char> {
    if s == "" then Success([])
    else match CharByte(s[0])
      case None => Failure(s[0])
      case Some(b) =>
        match UnmapBytes(s[1..])
        case Failure(c) => Failure(c)
        case Success(rest) => Success([b] + rest)
  }

  lemma {:induction false} UnmapMapped(bytes: seq<Byte>)
    ensures UnmapBytes(MapBytes(bytes)) == Success(bytes)
  {
    if bytes != [] {
      ByteMapsInverse(bytes[0], MapBytes(bytes)[0]);
      assert MapBytes(bytes)[1..] == MapBytes(bytes[1..]);
      UnmapMapped(bytes[1..]);
      assert [bytes[0]] + bytes[1..] == bytes;
    }
  }

  lemma {:induction false} UnmapAppend(a: string, b: string)
    requires UnmapBytes(a + b).Success?
    ensures UnmapBytes(a).Success? && UnmapBytes(b).Success?
    ensures UnmapBytes(a + b).value == UnmapBytes(a).value + UnmapBytes(b).value
  {
    if a == "" {
      assert a + b == b;
    } else {
      assert (a + b)[1..] == a[1..] + b;
      UnmapAppend(a[1..], b);
    }
  }

  // ---- merging ----

  type Merges = map<(string, string), nat>

  predicate Mergeable(merges: Merges, symbols: seq<string>, p: nat) {
    p + 1 < |symbols| && (symbols[p], symbols[p + 1]) in merges
  }

  function Rank(merges: Merges, symbols: seq<string>, p: nat): nat
    requires Mergeable(merges, symbols, p)
  {
    merges[(symbols[p], symbols[p + 1])]
  }

  /** The pair of least rank before position `n`, the leftmost if several. */
  function Best(merges: Merges, symbols: seq<string>, n: nat): (r: Option<nat>)
    ensures r.None? ==> forall p: nat :: p < n ==> !Mergeable(merges, symbols, p)
    ensures r.Some? ==>
      && r.value < n && Mergeable(merges, symbols, r.value)
      && forall p: nat :: p < n && Mergeable(merges, symbols, p) ==>
        && Rank(merges, symbols, r.value) <= Rank(merges, symbols, p)
        && (p < r.value ==> Rank(merges, symbols, r.value) < Rank(merges, symbols, p))
  {
    if n == 0 then None else
      var before := Best(merges, symbols, n - 1);
      if Mergeable(merges, symbols, n - 1)
         && (before.None? || Rank(merges, symbols, n - 1) < Rank(merges, symbols, before.value))
      then Some(n - 1)
      else before
  }

  function MergeAt(symbols: seq<string>, p: nat): seq<string>
    requires p + 1 < |symbols|
  {
    symbols[..p] + [symbols[p] + symbols[p + 1]] + symbols[p + 2..]
  }

  /** Merge the best pair until none is left. */
  function Merged(merges: Merges, symbols: seq<string>): seq<string>
    decreases |symbols|
  {
    match Best(merges, symbols, |symbols|)
    case None => symbols
    case Some(p) => Merged(merges, MergeAt(symbols, p))
  }

  lemma MergeKeepsText(symbols: seq<string>, p: nat)
    requires p + 1 < |symbols|
    ensures Concat(MergeAt(symbols, p)) == Concat(symbols)
  {
    hide Concat;
    var pre, a, b, rest := symbols[..p], symbols[p], symbols[p + 1], symbols[p + 2..];
    assert symbols == pre + [a, b] + rest;
    ConcatAppend(pre + [a, b], rest);
    ConcatAppend(pre, [a, b]);
    ConcatAppend(pre + [a + b], rest);
    ConcatAppend(pre, [a + b]);
    ConcatPair(a, b);
  }

  lemma ConcatPair(a: string, b: string)
    ensures Concat([a, b]) == a + b == Concat([a + b])
  {
    assert [a, b][1..] == [b] && [b][1..] == [] && [a + b][1..] == [];
    assert Concat([b]) == b + "";
  }

  /** Merging keeps the text and stops only when no two neighbours can be merged. */
  lemma {:induction false} MergedMeaning(merges: Merges, symbols: seq<string>)
    requires forall s :: s in symbols ==> s != ""
    ensures var r := Merged(merges, symbols);
      && Concat(r) == Concat(symbols)
      && (forall p: nat :: !Mergeable(merges, r, p))
      && (forall s :: s in r ==> s != "")
    decreases |symbols|
  {
    match Best(merges, symbols, |symbols|)
    case None =>
    case Some(p) =>
      MergeKeepsText(symbols, p);
      forall s | s in MergeAt(symbols, p) ensures s != "" {
        assert symbols[p] in symbols;
        assert s in symbols || s == symbols[p] + symbols[p + 1];
      }
      MergedMeaning(merges, MergeAt(symbols, p));
  }

  function Singles(s: string): (r: seq<string>)
    ensures |r| == |s| && forall x :: x in r ==> x != ""
  {
    seq(|s|, i requires 0 <= i < |s| => [s[i]])
  }

  lemma {:induction false} SinglesText(s: string)
    ensures Concat(Singles(s)) == s
  {
    if s != "" {
      assert Singles(s)[1..] == Singles(s[1..]);
      SinglesText(s[1..]);
      assert [s[0]] + s[1..] == s;
    }
  }

  /** One step of byte-pair merging: of all neighbours in the table a pair of least rank is joined, the leftmost of
      these. */
  ghost predicate Joins(merges: Merges, a: seq<string>, b: seq<string>) {
    exists p: nat :: JoinsAt(merges, a, b, p)
  }

  ghost predicate JoinsAt(merges: Merges, a: seq<string>, b: seq<string>, p: nat) {
    && p + 1 < |a| && (a[p], a[p + 1]) in merges && b == a[..p] + [a[p] + a[p + 1]] + a[p + 2..]
    && forall q: nat :: q + 1 < |a| && (a[q], a[q + 1]) in merges ==>
         && merges[(a[p], a[p + 1])] <= merges[(a[q], a[q + 1])]
         && (q < p ==> merges[(a[p], a[p + 1])] < merges[(a[q], a[q + 1])])
  }

  /** A whole run: from the first list to the last, in which nothing is left to join. */
  ghost predicate JoinRun(merges: Merges, run: seq<seq<string>>, first: seq<string>, last: seq<string>) {
    && run != [] && run[0] == first && run[|run| - 1] == last
    && (forall k :: 0 <= k < |run| - 1 ==> Joins(merges, run[k], run[k + 1]))
    && forall p: nat :: p + 1 < |last| ==> (last[p], last[p + 1]) !in merges
  }

  lemma OneJoin(merges: Merges, a: seq<string>, b: seq<string>, c: seq<string>)
    requires Joins(merges, a, b) && Joins(merges, a, c)
    ensures b == c
  {
    var p: nat :| JoinsAt(merges, a, b, p);
    var q: nat :| JoinsAt(merges, a, c, q);
  }

  /** Runs from one list all end in the same. */
  lemma {:induction false} OneResult(merges: Merges, r: seq<seq<string>>, s: seq<seq<string>>, first: seq<string>,
                                     x: seq<string>, y: seq<string>)
    requires JoinRun(merges, r, first, x) && JoinRun(merges, s, first, y)
    ensures x == y
    decreases |r|
  {
    hide Joins;
    if |r| > 1 && |s| > 1 {
      OneJoin(merges, first, r[1], s[1]);
      RunBehind(merges, r, first, x);
      RunBehind(merges, s, first, y);
      OneResult(merges, r[1..], s[1..], r[1], x, y);
    } else if |r| > 1 {
      NothingJoins(merges, first, r[1]);
    } else if |s| > 1 {
      NothingJoins(merges, first, s[1]);
    }
  }

  lemma RunBehind(merges: Merges, r: seq<seq<string>>, first: seq<string>, last: seq<string>)
    requires JoinRun(merges, r, first, last) && |r| > 1
    ensures JoinRun(merges, r[1..], r[1], last)
  {
    hide Joins;
    forall k | 0 <= k < |r[1..]| - 1 ensures Joins(merges, r[1..][k], r[1..][k + 1]) {
      assert Joins(merges, r[k + 1], r[k + 1 + 1]);
    }
  }

  lemma NothingJoins(merges: Merges, a: seq<string>, b: seq<string>)
    requires Joins(merges, a, b)
    ensures exists p: nat :: p + 1 < |a| && (a[p], a[p + 1]) in merges
  {
  }

  /** Merging is such a run. */
  lemma {:induction false} MergedIsRun(merges: Merges, symbols: seq<string>)
    ensures exists run :: JoinRun(merges, run, symbols, Merged(merges, symbols))
    decreases |symbols|
  {
    hide Joins;
    match Best(merges, symbols, |symbols|)
    case None =>
      BestIsLast(merges, symbols);
      assert Merged(merges, symbols) == symbols;
      assert JoinRun(merges, [symbols], symbols, symbols);
    case Some(p) =>
      var next, last := MergeAt(symbols, p), Merged(merges, symbols);
      BestJoins(merges, symbols, p);
      MergedIsRun(merges, next);
      var rest :| JoinRun(merges, rest, next, last);
      var run := [symbols] + rest;
      forall k | 0 <= k < |run| - 1 ensures Joins(merges, run[k], run[k + 1]) {
        assert k > 0 ==> Joins(merges, rest[k - 1], rest[k - 1 + 1]);
      }
      assert JoinRun(merges, run, symbols, last);
  }

  lemma BestIsLast(merges: Merges, symbols: seq<string>)
    requires Best(merges, symbols, |symbols|).None?
    ensures forall p: nat :: p + 1 < |symbols| ==> (symbols[p], symbols[p + 1]) !in merges
  {
    forall p: nat | p + 1 < |symbols| ensures (symbols[p], symbols[p + 1]) !in merges {
      assert !Mergeable(merges, symbols, p);
    }
  }

  lemma BestJoins(merges: Merges, symbols: seq<string>, p: nat)
    requires Best(merges, symbols, |symbols|) == Some(p)
    ensures p + 1 < |symbols| && Joins(merges, symbols, MergeAt(symbols, p))
  {
    forall q: nat | q + 1 < |symbols| && (symbols[q], symbols[q + 1]) in merges
      ensures merges[(symbols[p], symbols[p + 1])] <= merges[(symbols[q], symbols[q + 1])]
      ensures q < p ==> merges[(symbols[p], symbols[p + 1])] < merges[(symbols[q], symbols[q + 1])]
    {
      assert Mergeable(merges, symbols, q);
    }
    assert JoinsAt(merges, symbols, MergeAt(symbols, p), p);
  }

  /** Which pair goes first matters: with "el" ranked before "he", "hel" becomes "h" and "el". */
  lemma LeastRankFirst()
    ensures Merged(map[("h", "e") := 5, ("e", "l") := 0], Singles("hel")) == ["h", "el"]
  {
    var merges: Merges := map[("h", "e") := 5, ("e", "l") := 0];
    var first, last := Singles("hel"), ["h", "el"];
    assert first == ["h", "e", "l"];
    assert "e" + "l" == "el" && first[..1] + ["e" + "l"] + first[3..] == last;
    assert JoinsAt(merges, first, last, 1);
    assert "h"[0] != "e"[0] && |"el"| == 2;
    assert JoinRun(merges, [first, last], first, last);
    MergedIsRun(merges, first);
    var run :| JoinRun(merges, run, first, Merged(merges, first));
    OneResult(merges, run, [first, last], first, Merged(merges, first), last);
  }

  method Bpe(merges: Merges, mapped: string) returns (symbols: seq<string>)
    ensures symbols == Merged(merges, Singles(mapped))
    ensures exists run, first: seq<string> ::
      |first| == |mapped| && (forall i :: 0 <= i < |first| ==> first[i] == [mapped[i]])
      && JoinRun(merges, run, first, symbols)
  {
    symbols := Singles(mapped);
    MergedIsRun(merges, symbols);
    if |symbols| < 2 {
      return;
    }
    while true
      invariant Merged(merges, symbols) == Merged(merges, Singles(mapped)) && |symbols| >= 2
      decreases |symbols|
    {
      var best: Option<(nat, nat)> := None;
      for pos := 0 to |symbols| - 1
        invariant match Best(merges, symbols, pos)
          case None => best == None
          case Some(p) => best == Some((Rank(merges, symbols, p), p))
      {
        if (symbols[pos], symbols[pos + 1]) in merges {
          var rank := merges[(symbols[pos], symbols[pos + 1])];
          if best.None? || rank < best.value.0 {
            best := Some((rank, pos));
          }
        }
      }
      match best
      case None => return;
      case Some((_, pos)) =>
        symbols := symbols[..pos] + [symbols[pos] + symbols[pos + 1]] + symbols[pos + 2..];
        if |symbols| < 2 {
          return;
        }
    }
  }
}
