/** Token ids back to text (tokenizer.rs, http.rs). */
module Detokenizing {
  import opened Common
  import opened Strings
  import opened Utf8
  import opened BytePairs
  import opened Network
  import opened Tokenizing

  type Text = Result<string, TokenError>

  function Prepend(s: string, t: Text): Text {
    match t case Failure(e) => Failure(e) case Success(u) => Success(s + u)
  }

  function TypeOf(tk: Tokenizer, id: nat): int {
    if id < |tk.types| then tk.types[id] else 1
  }

  /** The specification: special tokens as they are, bytes decoded as they arrive. */
  function Detok(tk: Tokenizer, ids: seq<Token>, pending: seq<Byte>, render: bool): Text
    decreases |ids|
  {
    if ids == [] then Success(Decode(pending, true).0)
    else
      var id := ids[0] as nat;
      if id >= |tk.tokens| then Failure(NoSuchId(ids[0]))
      else if TypeOf(tk, id) == CONTROL && !render then Detok(tk, ids[1..], pending, render)
      else if TypeOf(tk, id) == CONTROL || TypeOf(tk, id) == USER_DEFINED then
        Prepend(tk.tokens[id], Detok(tk, ids[1..], pending, render))
      else match UnmapBytes(tk.tokens[id])
        case Failure(c) => Failure(NotMapped(c))
        case Success(bytes) =>
          var (out, kept) := Decode(pending + bytes, false);
          Prepend(out, Detok(tk, ids[1..], kept, render))
  }

  lemma PrependTwice(a: string, b: string, t: Text)
    ensures Prepend(a, Prepend(b, t)) == Prepend(a + b, t)
  {
    if t.Success? {
      assert a + (b + t.value) == a + b + t.value;
    }
  }

  method Detokenize(tk: Tokenizer, ids: seq<Token>, render: bool) returns (text: Text)
    ensures text == Detok(tk, ids, [], render)
  {
    hide Decode, UnmapBytes;
    var bytes: seq<Byte>, out := [], "";
    assert ids[0..] == ids;
    PrependNothing(Detok(tk, ids, [], render));
    for i := 0 to |ids|
      invariant Prepend(out, Detok(tk, ids[i..], bytes, render)) == Detok(tk, ids, [], render)
    {
      assert ids[i..][1..] == ids[i + 1..];
      var id := ids[i] as nat;
      if id >= |tk.tokens| {
        return Failure(NoSuchId(ids[i]));
      }
      var piece := tk.tokens[id];
      if TypeOf(tk, id) == CONTROL && !render {
      } else if TypeOf(tk, id) == CONTROL || TypeOf(tk, id) == USER_DEFINED {
        PrependTwice(out, piece, Detok(tk, ids[i + 1..], bytes, render));
        out := out + piece;
      } else {
        match UnmapBytes(piece)
        case Failure(c) => return Failure(NotMapped(c));
        case Success(more) =>
          var decoded, kept := FlushValidPrefix(bytes + more, false);
          PrependTwice(out, decoded, Detok(tk, ids[i + 1..], kept, render));
          out, bytes := out + decoded, kept;
      }
    }
    var last, _ := FlushValidPrefix(bytes, true);
    return Success(out + last);
  }

  lemma PrependNothing(t: Text)
    ensures Prepend("", t) == t
  {
    if t.Success? {
      assert "" + t.value == t.value;
    }
  }

  /** `ids` without its control tokens, those of type 3. */
  function Uncontrolled(tk: Tokenizer, ids: seq<Token>): seq<Token> {
    if ids == [] then []
    else (if ids[0] as int < |tk.types| && tk.types[ids[0]] == 3 then [] else [ids[0]]) + Uncontrolled(tk, ids[1..])
  }

  /** Unless they are asked for, control tokens leave no trace in the text: not even between the bytes of one
      character. */
  lemma {:induction false} ControlHidden(tk: Tokenizer, ids: seq<Token>, pending: seq<Byte>)
    requires forall i :: 0 <= i < |ids| ==> ids[i] as int < |tk.tokens|
    ensures Detok(tk, ids, pending, false) == Detok(tk, Uncontrolled(tk, ids), pending, false)
    decreases |ids|
  {
    hide Decode, UnmapBytes, Prepend;
    if ids != [] {
      var rest := Uncontrolled(tk, ids[1..]);
      assert [] + rest == rest && ([ids[0]] + rest)[1..] == rest;
      if TypeOf(tk, ids[0] as nat) == CONTROL || TypeOf(tk, ids[0] as nat) == USER_DEFINED
        || UnmapBytes(tk.tokens[ids[0]]).Failure? {
        ControlHidden(tk, ids[1..], pending);
      } else {
        ControlHidden(tk, ids[1..], Decode(pending + UnmapBytes(tk.tokens[ids[0]]).value, false).1);
      }
    }
  }

  /** Special tokens that are shown are shown as they are spelled. */
  lemma {:induction false} SpecialsShown(tk: Tokenizer, ids: seq<Token>)
    requires forall i :: 0 <= i < |ids| ==>
      ids[i] as int < |tk.tokens| && ids[i] as int < |tk.types| && 3 <= tk.types[ids[i]] <= 4
    ensures Detok(tk, ids, [], true) == Success(TextOf(tk, ids))
    decreases |ids|
  {
    hide UnmapBytes;
    if ids != [] {
      SpecialsShown(tk, ids[1..]);
    }
  }

  // ---- the round trip ----

  predicate Ordinary(tk: Tokenizer, id: Token) {
    id as int < |tk.tokens| && TypeOf(tk, id as nat) != CONTROL && TypeOf(tk, id as nat) != USER_DEFINED
  }

  function TextOf(tk: Tokenizer, ids: seq<Token>): string
    requires forall i :: 0 <= i < |ids| ==> ids[i] as int < |tk.tokens|
  {
    if ids == [] then "" else tk.tokens[ids[0]] + TextOf(tk, ids[1..])
  }

  lemma {:induction false} TextOfAppend(tk: Tokenizer, a: seq<Token>, b: seq<Token>)
    requires forall i :: 0 <= i < |a + b| ==> (a + b)[i] as int < |tk.tokens|
    ensures forall i :: 0 <= i < |a| ==> a[i] as int < |tk.tokens|
    ensures forall i :: 0 <= i < |b| ==> b[i] as int < |tk.tokens|
    ensures TextOf(tk, a + b) == TextOf(tk, a) + TextOf(tk, b)
  {
    forall i | 0 <= i < |a| ensures a[i] as int < |tk.tokens| {
      assert (a + b)[i] == a[i];
    }
    forall i | 0 <= i < |b| ensures b[i] as int < |tk.tokens| {
      assert (a + b)[|a| + i] == b[i];
    }
    if a == [] {
      assert a + b == b;
    } else {
      assert (a + b)[1..] == a[1..] + b;
      TextOfAppend(tk, a[1..], b);
    }
  }

  /** A run of ordinary tokens decodes as its bytes do. */
  lemma {:induction false} DetokOrdinary(tk: Tokenizer, ids: seq<Token>, rest: seq<Token>, pending: seq<Byte>,
                                         render: bool)
    requires forall i :: 0 <= i < |ids| ==> ids[i] as int < |tk.tokens| && Ordinary(tk, ids[i])
    requires UnmapBytes(TextOf(tk, ids)).Success? && Decode(pending, false) == ("", pending)
    ensures var (out, kept) := Decode(pending + UnmapBytes(TextOf(tk, ids)).value, false);
      Detok(tk, ids + rest, pending, render) == Prepend(out, Detok(tk, rest, kept, render))
    decreases |ids|
  {
    hide Decode, UnmapBytes, Prepend;
    if ids == [] {
      assert ids + rest == rest;
      UnmapNothing();
      assert pending + [] == pending;
      PrependNothing(Detok(tk, rest, pending, render));
    } else {
      var piece, more := tk.tokens[ids[0]], TextOf(tk, ids[1..]);
      UnmapAppend(piece, more);
      var a, b := UnmapBytes(piece).value, UnmapBytes(more).value;
      var (out, kept) := Decode(pending + a, false);
      KeptStays(pending + a);
      assert pending + (a + b) == (pending + a) + b;
      DecodeResumes(pending + a, b, false);
      assert (ids + rest)[1..] == ids[1..] + rest && (ids + rest)[0] == ids[0];
      DetokOrdinary(tk, ids[1..], rest, kept, render);
      var (out2, kept2) := Decode(kept + b, false);
      PrependTwice(out, out2, Detok(tk, rest, kept2, render));
    }
  }

  lemma UnmapNothing()
    ensures UnmapBytes("") == Success([])
  {
  }

  /** What is kept back is nothing, or an incomplete character. */
  lemma {:induction false} KeptStays(s: seq<Byte>)
    ensures var kept := Decode(s, false).1;
      Decode(kept, false) == ("", kept) && (kept == [] || StepOf(kept).Incomplete?)
    decreases |s|
  {
    hide StepOf;
    if s != [] && !StepOf(s).Incomplete? {
      KeptStays(s[StepOf(s).n..]);
    }
  }

  lemma {:induction false} EncodeAllAppend(a: string, b: string)
    ensures EncodeAll(a + b) == EncodeAll(a) + EncodeAll(b)
  {
    hide Encode;
    if a == "" {
      assert a + b == b;
    } else {
      assert (a + b)[1..] == a[1..] + b;
      EncodeAllAppend(a[1..], b);
    }
  }

  lemma MapBytesAppend(a: seq<Byte>, b: seq<Byte>)
    ensures MapBytes(a + b) == MapBytes(a) + MapBytes(b)
  {
  }

  /** Ids found for symbols spell the symbols. */
  lemma {:induction false} SymbolsSpelled(tk: Tokenizer, symbols: seq<string>)
    requires tk.Valid() && SymbolIds(tk, symbols).Success?
    ensures var ids := SymbolIds(tk, symbols).value;
      && |ids| == |symbols|
      && (forall i :: 0 <= i < |ids| ==> ids[i] as int < |tk.tokens| && tk.tokens[ids[i]] == symbols[i])
      && TextOf(tk, ids) == Concat(symbols)
  {
    if symbols != [] {
      SymbolsSpelled(tk, symbols[1..]);
      var ids, rest := SymbolIds(tk, symbols).value, SymbolIds(tk, symbols[1..]).value;
      assert ids == [tk.ids[symbols[0]]] + rest;
      assert ids[1..] == rest;
    }
  }

  lemma {:induction false} ConcatPart(parts: seq<string>, k: nat)
    requires k < |parts|
    ensures Occurs(Concat(parts), parts[k])
  {
    var pre, post := parts[..k], parts[k + 1..];
    assert parts == pre + [parts[k]] + post;
    ConcatAppend(pre + [parts[k]], post);
    ConcatAppend(pre, [parts[k]]);
    assert [parts[k]][1..] == [];
    OccursSplit(Concat(pre), parts[k], Concat(post));
    assert Concat(parts) == Concat(pre) + parts[k] + Concat(post);
  }

  /** Special tokens are spelled in printable ASCII, as in the Qwen vocabularies. */
  predicate Ascii(p: string) {
    forall i :: 0 <= i < |p| ==> '\U{21}' <= p[i] <= '\U{7E}'
  }

  predicate SpecialsAscii(tk: Tokenizer) {
    forall i :: 0 <= i < |tk.tokens| && (TypeOf(tk, i) == CONTROL || TypeOf(tk, i) == USER_DEFINED) ==>
      Ascii(tk.tokens[i])
  }

  /** ASCII text found among the encoded bytes is found in the text. */
  lemma {:induction false} AsciiRun(t: string, p: string, i: nat)
    requires Ascii(p) && p != "" && i + |p| <= |EncodeAll(t)|
    requires forall k :: 0 <= k < |p| ==> EncodeAll(t)[i + k] == p[k] as int
    ensures Occurs(t, p)
    decreases |t|
  {
    var n := |Encode(t[0])|;
    var rest := EncodeAll(t[1..]);
    assert EncodeAll(t) == Encode(t[0]) + rest;
    assert t == [t[0]] + t[1..];
    if i >= n {
      forall k | 0 <= k < |p| ensures rest[i - n + k] == p[k] as int {
        assert EncodeAll(t)[i + k] == rest[i + k - n];
      }
      AsciiRun(t[1..], p, i - n);
      var j :| 0 <= j <= |t[1..]| && At(t[1..], p, j);
      AtShift([t[0]], t[1..], p, j);
      assert At(t, p, 1 + j);
    } else {
      assert EncodeAll(t)[i] == Encode(t[0])[i] == p[0] as int;
      LeadingAscii(t, p);
      assert At(t, p, 0);
    }
  }

  lemma {:induction false} LeadingAscii(t: string, p: string)
    requires Ascii(p) && |p| <= |EncodeAll(t)|
    requires forall k :: 0 <= k < |p| ==> EncodeAll(t)[k] == p[k] as int
    ensures p <= t
    decreases |p|
  {
    if p != "" {
      var rest := EncodeAll(t[1..]);
      assert EncodeAll(t) == Encode(t[0]) + rest;
      assert Encode(t[0])[0] == p[0] as int;
      assert |Encode(t[0])| == 1;
      forall k | 0 <= k < |p[1..]| ensures rest[k] == p[1..][k] as int {
        assert EncodeAll(t)[1 + k] == rest[k];
      }
      LeadingAscii(t[1..], p[1..]);
      assert p == [p[0]] + p[1..] && t == [t[0]] + t[1..];
    }
  }

  /** And the byte alphabet does not disguise it. */
  lemma MappedAscii(t: string, p: string)
    requires Ascii(p) && p != "" && Occurs(MapBytes(EncodeAll(t)), p)
    ensures Occurs(t, p)
  {
    hide EncodeAll;
    var m := MapBytes(EncodeAll(t));
    var i :| 0 <= i <= |m| && At(m, p, i);
    forall k | 0 <= k < |p| ensures EncodeAll(t)[i + k] == p[k] as int {
      AtChar(m, p, i, k);
      ByteMapsInverse(EncodeAll(t)[i + k], p[k]);
    }
    AsciiRun(t, p, i);
  }

  /** The tokens spell the bytes of `text`, and none of them is special unless it occurs in `text`. */
  predicate Spelled(tk: Tokenizer, ids: seq<Token>, text: string) {
    && (forall i :: 0 <= i < |ids| ==> SpelledOne(tk, ids[i], text))
    && TextOf(tk, ids) == MapBytes(EncodeAll(text))
  }

  predicate SpelledOne(tk: Tokenizer, id: Token, text: string) {
    id as int < |tk.tokens| && tk.tokens[id] != "" && (Ordinary(tk, id) || Occurs(text, tk.tokens[id]))
  }

  lemma PieceSpelled(tk: Tokenizer, piece: string)
    requires tk.Valid() && SpecialsAscii(tk) && PieceIds(tk, piece).Success?
    ensures Spelled(tk, PieceIds(tk, piece).value, piece)
  {
    hide EncodeAll, MapBytes, Merged, Occurs, Ascii;
    var mapped := MapBytes(EncodeAll(piece));
    var symbols := Merged(tk.merges, Singles(mapped));
    MergedMeaning(tk.merges, Singles(mapped));
    SinglesText(mapped);
    SymbolsSpelled(tk, symbols);
    var ids := PieceIds(tk, piece).value;
    forall i | 0 <= i < |ids| ensures SpelledOne(tk, ids[i], piece) {
      assert symbols[i] in symbols;
      ConcatPart(symbols, i);
      if !Ordinary(tk, ids[i]) {
        MappedAscii(piece, symbols[i]);
      }
    }
  }

  lemma SpelledAppend(tk: Tokenizer, a: seq<Token>, b: seq<Token>, s: string, t: string)
    requires Spelled(tk, a, s) && Spelled(tk, b, t)
    ensures Spelled(tk, a + b, s + t)
  {
    hide EncodeAll, MapBytes, Occurs, Ordinary;
    forall i | 0 <= i < |a + b| ensures SpelledOne(tk, (a + b)[i], s + t) {
      var id := (a + b)[i];
      if i < |a| {
        assert SpelledOne(tk, a[i], s);
        if Occurs(s, tk.tokens[id]) {
          OccursMono(s, t, tk.tokens[id]);
        }
      } else {
        assert SpelledOne(tk, b[i - |a|], t);
        if Occurs(t, tk.tokens[id]) {
          OccursBehind(s, t, tk.tokens[id]);
        }
      }
    }
    EncodeAllAppend(s, t);
    MapBytesAppend(EncodeAll(s), EncodeAll(t));
    TextOfAppend(tk, a, b);
  }

  lemma {:induction false} PiecesSpelled(tk: Tokenizer, pieces: seq<string>)
    requires tk.Valid() && SpecialsAscii(tk) && PiecesIds(tk, pieces).Success?
    ensures Spelled(tk, PiecesIds(tk, pieces).value, Concat(pieces))
  {
    hide PieceIds, SpecialsAscii, SpelledOne;
    if pieces == [] {
      NothingEncoded();
    } else {
      PieceSpelled(tk, pieces[0]);
      PiecesSpelled(tk, pieces[1..]);
      SpelledAppend(tk, PieceIds(tk, pieces[0]).value, PiecesIds(tk, pieces[1..]).value, pieces[0],
                    Concat(pieces[1..]));
    }
  }

  lemma NothingEncoded()
    ensures MapBytes(EncodeAll("")) == ""
  {
  }

  lemma OccursBehind(pre: string, t: string, p: string)
    requires Occurs(t, p)
    ensures Occurs(pre + t, p)
  {
    var i :| 0 <= i <= |t| && At(t, p, i);
    AtShift(pre, t, p, i);
    assert At(pre + t, p, |pre| + i);
  }

  /** Text with no special token in it comes back from its ids. */
  lemma PlainRoundTrip(tk: Tokenizer, s: string, rest: seq<Token>)
    requires tk.Valid() && SpecialsAscii(tk) && FragmentIds(tk, s).Success?
    requires forall k :: 0 <= k < |SpecialPatterns(tk)| ==> !Occurs(s, SpecialPatterns(tk)[k])
    ensures Detok(tk, FragmentIds(tk, s).value + rest, [], true) == Prepend(s, Detok(tk, rest, [], true))
  {
    hide Decode, UnmapBytes, Prepend, EncodeAll, MapBytes, Detok, SpecialsAscii, Occurs, PieceIds, SpecialIds;
    var ids := FragmentIds(tk, s).value;
    if s == "" {
      assert ids + rest == rest;
      PrependNothing(Detok(tk, rest, [], true));
    } else {
      PiecesSpelled(tk, tk.split(s));
      forall i | 0 <= i < |ids| ensures ids[i] as int < |tk.tokens| && Ordinary(tk, ids[i]) {
        assert SpelledOne(tk, ids[i], s);
        if !Ordinary(tk, ids[i]) {
          SpecialHasPattern(tk, ids[i]);
        }
      }
      UnmapMapped(EncodeAll(s));
      NothingDecoded();
      DetokOrdinary(tk, ids, rest, [], true);
      DecodeEncoded(s, [], false);
      assert [] + EncodeAll(s) == EncodeAll(s) == EncodeAll(s) + [];
      assert s + "" == s;
    }
  }

  lemma NothingDecoded()
    ensures Decode([], false) == ("", [])
  {
  }

  lemma SpecialHasPattern(tk: Tokenizer, id: Token)
    requires tk.Valid() && id as int < |tk.tokens| && tk.tokens[id] != "" && !Ordinary(tk, id)
    ensures exists k :: 0 <= k < |SpecialPatterns(tk)| && SpecialPatterns(tk)[k] == tk.tokens[id]
  {
    var specials := SpecialIds(tk, true, |tk.tokens|);
    assert IsSpecial(tk, id as nat, true);
    var k :| 0 <= k < |specials| && specials[k] as int == id as int;
    assert SpecialPatterns(tk)[k] == tk.tokens[id];
  }

  /** A special token comes back as itself. */
  lemma SpecialRoundTrip(tk: Tokenizer, k: nat, rest: seq<Token>)
    requires tk.Valid() && k < |SpecialPatterns(tk)|
    ensures var id := SpecialIds(tk, true, |tk.tokens|)[k];
      Detok(tk, [id] + rest, [], true) == Prepend(SpecialPatterns(tk)[k], Detok(tk, rest, [], true))
  {
    var id := SpecialIds(tk, true, |tk.tokens|)[k];
    assert IsSpecial(tk, id as nat, true);
    assert ([id] + rest)[1..] == rest;
  }

  lemma NoneInside(pats: seq<string>, t: string, n: nat, k: nat)
    requires NonEmptyAll(pats) && k < |pats| && n <= |t|
    requires forall i: nat, k :: i < n && 0 <= k < |pats| ==> !At(t, pats[k], i)
    ensures !Occurs(t[..n], pats[k])
  {
    assert t == t[..n] + t[n..];
    forall i | 0 <= i <= n ensures !At(t[..n], pats[k], i) {
      if i + |pats[k]| <= n {
        AtPrefix(t[..n], t[n..], pats[k], i);
      }
    }
  }

  lemma {:induction false} RoundTripFrom(tk: Tokenizer, t: string)
    requires tk.Valid() && SpecialsAscii(tk)
    requires AllIds(tk, SpecialIds(tk, true, |tk.tokens|), Fragments(SpecialPatterns(tk), t)).Success?
    ensures Detok(tk, AllIds(tk, SpecialIds(tk, true, |tk.tokens|), Fragments(SpecialPatterns(tk), t)).value, [], true)
            == Success(t)
    decreases |t|
  {
    hide SpecialIds, Patterns, NextMatch, FragmentIds, Detok, Occurs, SpecialsAscii, Ordinary, LongestAt, PlainText;
    var specials, pats := SpecialIds(tk, true, |tk.tokens|), SpecialPatterns(tk);
    match NextMatch(pats, t, 0)
    case None =>
      forall k | 0 <= k < |pats| ensures !Occurs(t, pats[k]) {
        NoneInside(pats, t, |t|, k);
        assert t[..|t|] == t;
      }
      FragmentsNone(pats, t);
      PlainIds(tk, specials, t);
      PlainRoundTrip(tk, t, []);
      assert FragmentIds(tk, t).value + [] == FragmentIds(tk, t).value;
      DetokNothing(tk);
      assert t + "" == t;
    case Some(m) =>
      assert At(t, pats[m.pattern], m.start);
      var plain, special, behind := t[..m.start], pats[m.pattern], t[m.start + |pats[m.pattern]|..];
      assert t == plain + (special + behind);
      forall k | 0 <= k < |pats| ensures !Occurs(plain, pats[k]) {
        NoneInside(pats, t, m.start, k);
      }
      FragmentsAt(pats, t, m, plain, behind);
      MatchIds(tk, specials, pats, [], plain, m.pattern, Fragments(pats, behind));
      var tail := AllIds(tk, specials, Fragments(pats, behind));
      var more := FragmentIds(tk, plain);
      JoinEmpty(AllIds(tk, specials, Fragments(pats, t)));
      RoundTripFrom(tk, behind);
      assert AllIds(tk, specials, Fragments(pats, t)).value == more.value + ([specials[m.pattern]] + tail.value);
      PlainRoundTrip(tk, plain, [specials[m.pattern]] + tail.value);
      SpecialRoundTrip(tk, m.pattern, tail.value);
  }

  lemma DetokNothing(tk: Tokenizer)
    ensures Detok(tk, [], [], true) == Success("")
  {
  }

  /** detokenize(tokenize(t, true), true) == t, whatever the text, the merges and the pretokenizer,
      whenever tokenizing succeeds and special tokens are spelled in printable ASCII. */
  lemma RoundTrip(tk: Tokenizer, t: string)
    requires tk.Valid() && SpecialsAscii(tk) && Tokens(tk, t, true).Success?
    ensures Detok(tk, Tokens(tk, t, true).value, [], true) == Success(t)
  {
    hide SpecialIds, Fragments, Detok, SpecialsAscii;
    RoundTripFrom(tk, t);
  }
}
