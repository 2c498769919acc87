/** Special tokens, tokenizing and detokenizing (tokenizer.rs). */
module Tokenizing {
  import opened Common
  import opened Strings
  import opened Utf8
  import opened BytePairs
  import opened Network

  const CONTROL := 3
  const USER_DEFINED := 4

  datatype TokenError = NotCovered | NoToken(symbol: string) | NoSuchId(id: Token) | NotMapped(c: char)

  type Ids = Result<seq<Token>, TokenError>

  // The pretokenizer is any function; its cover of the text is checked.
  datatype Tokenizer = Tokenizer(tokens: seq<string>, types: seq<int>, ids: map<string, Token>, merges: Merges,
                                 split: string -> seq<string>)
  {
    ghost predicate Valid() {
      && |types| == |tokens|
      && forall s :: s in ids ==> ids[s] as int < |tokens| && tokens[ids[s]] == s
    }
  }

  // ---- special tokens ----

  predicate IsSpecial(tk: Tokenizer, i: nat, control: bool) {
    && i < |tk.tokens| && i < |tk.types| && i < 0x1_0000_0000
    && (tk.types[i] == USER_DEFINED || (control && tk.types[i] == CONTROL)) && tk.tokens[i] != ""
  }

  /** The ids the matcher looks for, in id order. */
  function SpecialIds(tk: Tokenizer, control: bool, n: nat): (r: seq<Token>)
    ensures forall k :: 0 <= k < |r| ==> r[k] as int < |tk.tokens| && IsSpecial(tk, r[k] as int, control)
    ensures forall i: nat :: i < n && IsSpecial(tk, i, control) ==> exists k :: 0 <= k < |r| && r[k] as int == i
  {
    if n == 0 then []
    else if IsSpecial(tk, n - 1, control) then
      var before := SpecialIds(tk, control, n - 1);
      assert forall k :: 0 <= k < |before| ==> (before + [(n - 1) as Token])[k] == before[k];
      assert (before + [(n - 1) as Token])[|before|] as int == n - 1;
      before + [(n - 1) as Token]
    else SpecialIds(tk, control, n - 1)
  }

  /** A token below `n` that is looked for: user-defined ones (type 4) always, control tokens (type 3) on request. */
  predicate Sought(tk: Tokenizer, control: bool, n: nat, i: Token)
    requires n <= |tk.tokens| == |tk.types|
  {
    i as int < n && tk.tokens[i] != "" && (tk.types[i] == 4 || (tk.types[i] == 3 && control))
  }

  /** The ids looked for are those, in order. */
  lemma {:induction false} SpecialIdsMean(tk: Tokenizer, control: bool, n: nat)
    requires n <= |tk.tokens| == |tk.types| < 0x1_0000_0000
    ensures var r := SpecialIds(tk, control, n);
      && (forall k, l :: 0 <= k < l < |r| ==> r[k] < r[l])
      && forall i: Token :: i in r <==> Sought(tk, control, n, i)
  {
    if n > 0 {
      SpecialIdsMean(tk, control, n - 1);
      SpecialIdsStep(tk, control, n);
      SpecialNext(tk, control, n, SpecialIds(tk, control, n - 1), SpecialIds(tk, control, n));
    }
  }

  lemma SpecialIdsStep(tk: Tokenizer, control: bool, n: nat)
    requires 0 < n <= |tk.tokens| == |tk.types| < 0x1_0000_0000
    ensures var before := SpecialIds(tk, control, n - 1);
      SpecialIds(tk, control, n) == if IsSpecial(tk, n - 1, control) then before + [(n - 1) as Token] else before
  {
    hide IsSpecial;
  }

  lemma SpecialNext(tk: Tokenizer, control: bool, n: nat, before: seq<Token>, r: seq<Token>)
    requires 0 < n <= |tk.tokens| == |tk.types| < 0x1_0000_0000
    requires r == if IsSpecial(tk, n - 1, control) then before + [(n - 1) as Token] else before
    requires forall k, l :: 0 <= k < l < |before| ==> before[k] < before[l]
    requires forall i: Token :: i in before <==> Sought(tk, control, n - 1, i)
    ensures forall k, l :: 0 <= k < l < |r| ==> r[k] < r[l]
    ensures forall i: Token :: i in r <==> Sought(tk, control, n, i)
  {
    forall k | 0 <= k < |before| ensures before[k] as int < n - 1 {
      assert before[k] in before;
    }
  }

  function Patterns(tk: Tokenizer, ids: seq<Token>): (r: seq<string>)
    requires forall k :: 0 <= k < |ids| ==> ids[k] as int < |tk.tokens|
    ensures |r| == |ids|
  {
    seq(|ids|, k requires 0 <= k < |ids| => tk.tokens[ids[k]])
  }

  predicate NonEmptyAll(pats: seq<string>) {
    forall k :: 0 <= k < |pats| ==> pats[k] != ""
  }

  /** The longest pattern at position `i`, the first of the list if several. */
  function LongestAt(pats: seq<string>, t: string, i: nat, n: nat): (r: Option<nat>)
    requires n <= |pats|
    ensures r.None? ==> forall k :: 0 <= k < n ==> !At(t, pats[k], i)
    ensures r.Some? ==> r.value < n && At(t, pats[r.value], i) && forall k :: 0 <= k < n && At(t, pats[k], i) ==>
      |pats[k]| <= |pats[r.value]| && (k < r.value ==> |pats[k]| < |pats[r.value]|)
  {
    if n == 0 then None else
      var before := LongestAt(pats, t, i, n - 1);
      if At(t, pats[n - 1], i) && (before.None? || |pats[n - 1]| > |pats[before.value]|) then Some(n - 1) else before
  }

  datatype Match = Match(start: nat, pattern: nat)

  /** Leftmost-longest: the next match starting at `from` or later. */
  function NextMatch(pats: seq<string>, t: string, from: nat): (r: Option<Match>)
    requires from <= |t|
    ensures r.None? ==> forall i: nat, k :: from <= i <= |t| && 0 <= k < |pats| ==> !At(t, pats[k], i)
    ensures r.Some? ==>
      && from <= r.value.start <= |t| && LongestAt(pats, t, r.value.start, |pats|) == Some(r.value.pattern)
      && forall i: nat, k :: from <= i < r.value.start && 0 <= k < |pats| ==> !At(t, pats[k], i)
    decreases |t| - from
  {
    match LongestAt(pats, t, from, |pats|)
    case Some(k) => Some(Match(from, k))
    case None => if from == |t| then None else NextMatch(pats, t, from + 1)
  }

  datatype Fragment = Plain(text: string) | Special(pattern: nat)

  function PlainText(s: string): seq<Fragment> {
    if s == "" then [] else [Plain(s)]
  }

  /** The specification: cut at the leftmost-longest match, then go on behind it. */
  function Fragments(pats: seq<string>, t: string): seq<Fragment>
    requires NonEmptyAll(pats)
    decreases |t|
  {
    match NextMatch(pats, t, 0)
    case None => PlainText(t)
    case Some(m) => PlainText(t[..m.start]) + [Special(m.pattern)] + Fragments(pats, t[m.start + |pats[m.pattern]|..])
  }

  // ---- tokenizing ----

  function Join(a: Ids, b: Ids): Ids {
    match (a, b)
    case (Failure(e), _) => Failure(e)
    case (_, Failure(e)) => Failure(e)
    case (Success(x), Success(y)) => Success(x + y)
  }

  function SymbolIds(tk: Tokenizer, symbols: seq<string>): Ids {
    if symbols == [] then Success([])
    else if symbols[0] !in tk.ids then Failure(NoToken(symbols[0]))
    else Join(Success([tk.ids[symbols[0]]]), SymbolIds(tk, symbols[1..]))
  }

  function PieceIds(tk: Tokenizer, piece: string): Ids {
    SymbolIds(tk, Merged(tk.merges, Singles(MapBytes(EncodeAll(piece)))))
  }

  function PiecesIds(tk: Tokenizer, pieces: seq<string>): Ids {
    if pieces == [] then Success([]) else Join(PieceIds(tk, pieces[0]), PiecesIds(tk, pieces[1..]))
  }

  function FragmentIds(tk: Tokenizer, text: string): Ids {
    if text == "" then Success([])
    else if Concat(tk.split(text)) != text then Failure(NotCovered)
    else PiecesIds(tk, tk.split(text))
  }

  function AllIds(tk: Tokenizer, specials: seq<Token>, frags: seq<Fragment>): Ids {
    if frags == [] then Success([])
    else
      var first := match frags[0]
        case Plain(text) => FragmentIds(tk, text)
        case Special(k) => if k < |specials| then Success([specials[k]]) else Success([]);
      Join(first, AllIds(tk, specials, frags[1..]))
  }

  function Tokens(tk: Tokenizer, t: string, control: bool): Ids {
    var specials := SpecialIds(tk, control, |tk.tokens|);
    PatternsNonEmpty(tk, control);
    AllIds(tk, specials, Fragments(Patterns(tk, specials), t))
  }

  lemma PatternsNonEmpty(tk: Tokenizer, control: bool)
    ensures NonEmptyAll(Patterns(tk, SpecialIds(tk, control, |tk.tokens|)))
  {
    var specials := SpecialIds(tk, control, |tk.tokens|);
    forall k | 0 <= k < |specials| ensures Patterns(tk, specials)[k] != "" {
      assert IsSpecial(tk, specials[k] as int, control);
    }
  }

  lemma JoinAssoc(a: Ids, b: Ids, c: Ids)
    ensures Join(Join(a, b), c) == Join(a, Join(b, c))
  {
    if a.Success? && b.Success? && c.Success? {
      assert a.value + b.value + c.value == a.value + (b.value + c.value);
    }
  }

  lemma JoinEmpty(a: Ids)
    ensures Join(Success([]), a) == a && Join(a, Success([])) == a
  {
    if a.Success? {
      assert [] + a.value == a.value && a.value + [] == a.value;
    }
  }

  lemma {:induction false} AllIdsAppend(tk: Tokenizer, specials: seq<Token>, a: seq<Fragment>, b: seq<Fragment>)
    ensures AllIds(tk, specials, a + b) == Join(AllIds(tk, specials, a), AllIds(tk, specials, b))
  {
    hide Join, FragmentIds;
    if a == [] {
      assert a + b == b;
      JoinEmpty(AllIds(tk, specials, b));
    } else {
      assert (a + b)[1..] == a[1..] + b;
      AllIdsAppend(tk, specials, a[1..], b);
      var first := match a[0]
        case Plain(text) => FragmentIds(tk, text)
        case Special(k) => if k < |specials| then Success([specials[k]]) else Success([]);
      JoinAssoc(first, AllIds(tk, specials, a[1..]), AllIds(tk, specials, b));
    }
  }

  lemma {:induction false} SymbolIdsAppend(tk: Tokenizer, a: seq<string>, b: seq<string>)
    ensures SymbolIds(tk, a + b) == Join(SymbolIds(tk, a), SymbolIds(tk, b))
  {
    hide Join;
    if a == [] {
      assert a + b == b;
      JoinEmpty(SymbolIds(tk, b));
    } else {
      assert (a + b)[1..] == a[1..] + b;
      SymbolIdsAppend(tk, a[1..], b);
      if a[0] in tk.ids {
        JoinAssoc(Success([tk.ids[a[0]]]), SymbolIds(tk, a[1..]), SymbolIds(tk, b));
      } else {
        JoinFails(NoToken(a[0]), SymbolIds(tk, b));
      }
    }
  }

  lemma JoinFails(e: TokenError, b: Ids)
    ensures Join(Failure(e), b) == Failure(e)
  {
  }

  lemma {:induction false} PiecesIdsAppend(tk: Tokenizer, a: seq<string>, b: seq<string>)
    ensures PiecesIds(tk, a + b) == Join(PiecesIds(tk, a), PiecesIds(tk, b))
  {
    hide Join, PieceIds;
    if a == [] {
      assert a + b == b;
      JoinEmpty(PiecesIds(tk, b));
    } else {
      assert (a + b)[1..] == a[1..] + b;
      PiecesIdsAppend(tk, a[1..], b);
      JoinAssoc(PieceIds(tk, a[0]), PiecesIds(tk, a[1..]), PiecesIds(tk, b));
    }
  }

  method TokenizePiece(tk: Tokenizer, piece: string) returns (out: Ids)
    ensures out == PieceIds(tk, piece)
  {
    hide Join, Merged;
    var symbols := Bpe(tk.merges, MapBytes(EncodeAll(piece)));
    var ids: seq<Token> := [];
    for i := 0 to |symbols|
      invariant SymbolIds(tk, symbols[..i]) == Success(ids)
    {
      assert symbols == symbols[..i] + symbols[i..] && symbols[i..][0] == symbols[i];
      SymbolIdsAppend(tk, symbols[..i], symbols[i..]);
      if symbols[i] !in tk.ids {
        JoinedFailure(ids, NoToken(symbols[i]));
        return Failure(NoToken(symbols[i]));
      }
      assert symbols[..i + 1] == symbols[..i] + [symbols[i]];
      SymbolIdsAppend(tk, symbols[..i], [symbols[i]]);
      OneSymbol(tk, symbols[i]);
      Joined(ids, [tk.ids[symbols[i]]]);
      ids := ids + [tk.ids[symbols[i]]];
    }
    assert symbols[..|symbols|] == symbols;
    return Success(ids);
  }

  lemma OneSymbol(tk: Tokenizer, symbol: string)
    requires symbol in tk.ids
    ensures SymbolIds(tk, [symbol]) == Success([tk.ids[symbol]])
  {
    assert [symbol][1..] == [];
    JoinEmpty(Success([tk.ids[symbol]]));
  }

  lemma Joined(a: seq<Token>, b: seq<Token>)
    ensures Join(Success(a), Success(b)) == Success(a + b)
  {
  }

  lemma JoinedFailure(a: seq<Token>, e: TokenError)
    ensures Join(Success(a), Failure(e)) == Failure(e)
  {
  }

  method TokenizeFragment(tk: Tokenizer, text: string) returns (out: Ids)
    ensures out == FragmentIds(tk, text)
  {
    hide Join, PieceIds;
    if text == "" {
      return Success([]);
    }
    var pieces := tk.split(text);
    var covered := "";
    for i := 0 to |pieces|
      invariant covered == Concat(pieces[..i])
    {
      assert pieces[..i + 1] == pieces[..i] + [pieces[i]];
      ConcatAppend(pieces[..i], [pieces[i]]);
      assert [pieces[i]][1..] == [];
      covered := covered + pieces[i];
    }
    assert pieces[..|pieces|] == pieces;
    if covered != text {
      return Failure(NotCovered);
    }
    var ids: seq<Token> := [];
    for i := 0 to |pieces|
      invariant PiecesIds(tk, pieces[..i]) == Success(ids)
    {
      assert pieces == pieces[..i] + pieces[i..] && pieces[i..][0] == pieces[i];
      PiecesIdsAppend(tk, pieces[..i], pieces[i..]);
      var more := TokenizePiece(tk, pieces[i]);
      if more.Failure? {
        JoinFails(more.error, PiecesIds(tk, pieces[i..][1..]));
        JoinedFailure(ids, more.error);
        return more;
      }
      assert pieces[..i + 1] == pieces[..i] + [pieces[i]];
      PiecesIdsAppend(tk, pieces[..i], [pieces[i]]);
      assert [pieces[i]][1..] == [];
      JoinEmpty(more);
      Joined(ids, more.value);
      ids := ids + more.value;
    }
    return Success(ids);
  }

  /** Tokenizes the plain text before, and the special token of, every match. */
  method Tokenize(tk: Tokenizer, text: string, parseSpecial: bool) returns (out: Ids)
    ensures out == Tokens(tk, text, parseSpecial)
  {
    hide *;
    var specials := SpecialIds(tk, parseSpecial, |tk.tokens|);
    PatternsNonEmpty(tk, parseSpecial);
    var pats := Patterns(tk, specials);
    var ids: seq<Token> := [];
    var last := 0;
    assert text[0..] == text;
    TokensAre(tk, text, parseSpecial, specials, pats);
    while true
      invariant last <= |text|
      invariant Join(Success(ids), AllIds(tk, specials, Fragments(pats, text[last..])))
             == Tokens(tk, text, parseSpecial)
      decreases |text| - last
    {
      var rest := text[last..];
      match NextMatch(pats, rest, 0)
      case None =>
        PlainRest(tk, specials, pats, ids, rest);
        if last == |text| {
          return Success(ids);
        }
        var more := TokenizeFragment(tk, rest);
        return if more.Failure? then more else Success(ids + more.value);
      case Some(m) =>
        MatchRest(tk, specials, pats, ids, rest, m);
        var more := TokenizeFragment(tk, rest[..m.start]);
        if more.Failure? {
          return more;
        }
        ids := ids + more.value + [specials[m.pattern]];
        var next := last + m.start + |pats[m.pattern]|;
        assert rest[m.start + |pats[m.pattern]|..] == text[next..];
        last := next;
    }
  }

  lemma TokensAre(tk: Tokenizer, text: string, control: bool, specials: seq<Token>, pats: seq<string>)
    requires specials == SpecialIds(tk, control, |tk.tokens|) && pats == Patterns(tk, specials) && NonEmptyAll(pats)
    ensures Join(Success([]), AllIds(tk, specials, Fragments(pats, text))) == Tokens(tk, text, control)
  {
    JoinEmpty(AllIds(tk, specials, Fragments(pats, text)));
  }

  /** No special token is left: the rest is one fragment. */
  lemma PlainRest(tk: Tokenizer, specials: seq<Token>, pats: seq<string>, ids: seq<Token>, rest: string)
    requires NonEmptyAll(pats) && NextMatch(pats, rest, 0) == None
    ensures var all := Join(Success(ids), AllIds(tk, specials, Fragments(pats, rest)));
      var more := FragmentIds(tk, rest);
      && all == (if more.Failure? then more else Success(ids + more.value))
      && (rest == "" ==> all == Success(ids))
  {
    hide NextMatch;
    PlainIds(tk, specials, rest);
    JoinEmpty(Success(ids));
  }

  /** The plain text before a special token, the token, and the rest behind it. */
  lemma MatchRest(tk: Tokenizer, specials: seq<Token>, pats: seq<string>, ids: seq<Token>, rest: string, m: Match)
    requires NonEmptyAll(pats) && |specials| == |pats| && NextMatch(pats, rest, 0) == Some(m)
    ensures m.pattern < |pats| && pats[m.pattern] != "" && m.start + |pats[m.pattern]| <= |rest|
    ensures var all := Join(Success(ids), AllIds(tk, specials, Fragments(pats, rest)));
      var more := FragmentIds(tk, rest[..m.start]);
      var tail := AllIds(tk, specials, Fragments(pats, rest[m.start + |pats[m.pattern]|..]));
      if more.Failure? then all == more
      else all == Join(Success(ids + more.value + [specials[m.pattern]]), tail)
  {
    assert At(rest, pats[m.pattern], m.start);
    var plain, behind := rest[..m.start], rest[m.start + |pats[m.pattern]|..];
    FragmentsAt(pats, rest, m, plain, behind);
    MatchIds(tk, specials, pats, ids, plain, m.pattern, Fragments(pats, behind));
  }

  lemma MatchIds(tk: Tokenizer, specials: seq<Token>, pats: seq<string>, ids: seq<Token>, plain: string, k: nat,
                 tail: seq<Fragment>)
    requires k < |specials|
    ensures var all := Join(Success(ids), AllIds(tk, specials, PlainText(plain) + [Special(k)] + tail));
      var more := FragmentIds(tk, plain);
      if more.Failure? then all == more
      else all == Join(Success(ids + more.value + [specials[k]]), AllIds(tk, specials, tail))
  {
    hide FragmentIds, PlainText;
    var frags := [Special(k)] + tail;
    assert PlainText(plain) + [Special(k)] + tail == PlainText(plain) + frags;
    AllIdsAppend(tk, specials, PlainText(plain), frags);
    PlainIds(tk, specials, plain);
    assert frags[1..] == tail;
    var more, rest := FragmentIds(tk, plain), AllIds(tk, specials, tail);
    if more.Success? && rest.Success? {
      assert ids + (more.value + ([specials[k]] + rest.value)) == ids + more.value + [specials[k]] + rest.value;
    }
  }

  lemma PlainIds(tk: Tokenizer, specials: seq<Token>, s: string)
    ensures AllIds(tk, specials, PlainText(s)) == FragmentIds(tk, s)
  {
    if s != "" {
      assert PlainText(s)[1..] == [];
      JoinEmpty(FragmentIds(tk, s));
    }
  }

  // ---- cutting at a special token ----

  /** No pattern lies across the end of `a` in a + b. */
  predicate NoStraddle(pats: seq<string>, a: string, b: string) {
    forall k, i: nat :: 0 <= k < |pats| && i < |a| && i + |pats[k]| > |a| ==> !At(a + b, pats[k], i)
  }

  predicate StartsSpecial(pats: seq<string>, b: string) {
    exists k :: 0 <= k < |pats| && pats[k] <= b
  }

  /** Before the end of `a`, matches in a + b are those in `a`. */
  lemma LongestSame(pats: seq<string>, a: string, b: string, i: nat, n: nat)
    requires NoStraddle(pats, a, b) && i < |a| && n <= |pats|
    ensures LongestAt(pats, a + b, i, n) == LongestAt(pats, a, i, n)
  {
    if n > 0 {
      LongestSame(pats, a, b, i, n - 1);
      if i + |pats[n - 1]| <= |a| {
        AtPrefix(a, b, pats[n - 1], i);
      }
    }
  }

  lemma {:induction false} NextSame(pats: seq<string>, a: string, b: string, from: nat)
    requires NonEmptyAll(pats) && NoStraddle(pats, a, b) && StartsSpecial(pats, b) && from <= |a|
    ensures var m := NextMatch(pats, a, from); var n := NextMatch(pats, a + b, from);
      && (m.Some? ==> n == m)
      && (m.None? ==> n.Some? && n.value.start == |a| && LongestAt(pats, a + b, |a|, |pats|) == Some(n.value.pattern))
    decreases |a| - from
  {
    hide LongestAt;
    if from == |a| {
      var k :| 0 <= k < |pats| && pats[k] <= b;
      assert At(b, pats[k], 0);
      AtShift(a, b, pats[k], 0);
      assert At(a + b, pats[k], |a|);
      AtEnd(pats, a);
    } else {
      LongestSame(pats, a, b, from, |pats|);
      if LongestAt(pats, a, from, |pats|) == None {
        NextSame(pats, a, b, from + 1);
      }
    }
  }

  lemma AtEnd(pats: seq<string>, a: string)
    requires NonEmptyAll(pats)
    ensures LongestAt(pats, a, |a|, |pats|) == None
  {
  }

  lemma {:induction false} LongestShift(pats: seq<string>, a: string, b: string, i: nat, n: nat)
    requires n <= |pats|
    ensures LongestAt(pats, a + b, |a| + i, n) == LongestAt(pats, b, i, n)
  {
    if n > 0 {
      LongestShift(pats, a, b, i, n - 1);
      AtShift(a, b, pats[n - 1], i);
    }
  }

  lemma NoStraddleDrop(pats: seq<string>, a: string, b: string, d: nat)
    requires NoStraddle(pats, a, b) && d <= |a|
    ensures NoStraddle(pats, a[d..], b)
  {
    assert a + b == a[..d] + (a[d..] + b);
    forall k, i: nat | 0 <= k < |pats| && i < |a[d..]| && i + |pats[k]| > |a[d..]|
      ensures !At(a[d..] + b, pats[k], i)
    {
      AtShift(a[..d], a[d..] + b, pats[k], i);
      assert !At(a + b, pats[k], d + i);
    }
  }

  lemma FragmentsAt(pats: seq<string>, t: string, m: Match, plain: string, rest: string)
    requires NonEmptyAll(pats) && NextMatch(pats, t, 0) == Some(m)
    requires m.start + |pats[m.pattern]| <= |t| && plain == t[..m.start] && rest == t[m.start + |pats[m.pattern]|..]
    ensures Fragments(pats, t) == PlainText(plain) + [Special(m.pattern)] + Fragments(pats, rest)
  {
    hide NextMatch, LongestAt, PlainText;
  }

  /** Text splits where a special token begins that no other one straddles. */
  lemma {:induction false} FragmentsCut(pats: seq<string>, a: string, b: string)
    requires NonEmptyAll(pats) && NoStraddle(pats, a, b) && StartsSpecial(pats, b)
    ensures Fragments(pats, a + b) == Fragments(pats, a) + Fragments(pats, b)
    decreases |a|
  {
    hide NextMatch, LongestAt, NoStraddle, Fragments, StartsSpecial, PlainText;
    NextSame(pats, a, b, 0);
    match NextMatch(pats, a, 0)
    case Some(m) =>
      var len := m.start + |pats[m.pattern]|;
      assert At(a, pats[m.pattern], m.start);
      NoStraddleDrop(pats, a, b, len);
      FragmentsCut(pats, a[len..], b);
      FragmentsAt(pats, a, m, a[..m.start], a[len..]);
      assert (a + b)[len..] == a[len..] + b && (a + b)[..m.start] == a[..m.start];
      FragmentsAt(pats, a + b, m, a[..m.start], a[len..] + b);
    case None =>
      LastCut(pats, a, b);
  }

  lemma LastCut(pats: seq<string>, a: string, b: string)
    requires NonEmptyAll(pats) && StartsSpecial(pats, b) && NextMatch(pats, a, 0) == None
    requires var n := NextMatch(pats, a + b, 0);
      n.Some? && n.value.start == |a| && LongestAt(pats, a + b, |a|, |pats|) == Some(n.value.pattern)
    ensures Fragments(pats, a + b) == Fragments(pats, a) + Fragments(pats, b)
  {
    hide *;
    var k := LastMatch(pats, a, b);
    var len := |pats[k]|;
    SplitBehind(a, b, len);
    FragmentsAt(pats, b, Match(0, k), "", b[len..]);
    FragmentsAt(pats, a + b, Match(|a|, k), a, b[len..]);
    FragmentsNone(pats, a);
    Regroup(PlainText(a), [Special(k)], Fragments(pats, b[len..]));
    assert [] + [Special(k)] == [Special(k)];
  }

  lemma LastMatch(pats: seq<string>, a: string, b: string) returns (k: nat)
    requires NonEmptyAll(pats) && StartsSpecial(pats, b) && NextMatch(pats, a + b, 0).Some?
    requires var n := NextMatch(pats, a + b, 0).value;
      n.start == |a| && LongestAt(pats, a + b, |a|, |pats|) == Some(n.pattern)
    ensures k < |pats| && |pats[k]| <= |b|
    ensures NextMatch(pats, a + b, 0) == Some(Match(|a|, k)) && NextMatch(pats, b, 0) == Some(Match(0, k))
  {
    hide NextMatch, LongestAt, StartsSpecial, NonEmptyAll;
    k := NextMatch(pats, a + b, 0).value.pattern;
    LongestShift(pats, a, b, 0, |pats|);
    SpecialAtStart(pats, b);
  }

  lemma SplitBehind(a: string, b: string, len: nat)
    requires len <= |b|
    ensures (a + b)[..|a|] == a && b[..0] == "" && (a + b)[|a| + len..] == b[len..]
  {
  }

  lemma Regroup(a: seq<Fragment>, b: seq<Fragment>, c: seq<Fragment>)
    ensures a + b + c == a + (b + c)
  {
  }

  lemma FragmentsNone(pats: seq<string>, t: string)
    requires NonEmptyAll(pats) && NextMatch(pats, t, 0) == None
    ensures Fragments(pats, t) == PlainText(t)
    ensures PlainText("") == []
  {
  }

  lemma SpecialAtStart(pats: seq<string>, b: string)
    requires StartsSpecial(pats, b)
    ensures NextMatch(pats, b, 0).Some? && NextMatch(pats, b, 0).value.start == 0
    ensures LongestAt(pats, b, 0, |pats|) == Some(NextMatch(pats, b, 0).value.pattern)
  {
    var k :| 0 <= k < |pats| && pats[k] <= b;
    assert At(b, pats[k], 0);
  }

  function SpecialPatterns(tk: Tokenizer): (r: seq<string>)
    ensures NonEmptyAll(r)
  {
    PatternsNonEmpty(tk, true);
    Patterns(tk, SpecialIds(tk, true, |tk.tokens|))
  }

  /** Tokenizing commutes with that cut. */
  lemma TokenizeCut(tk: Tokenizer, a: string, b: string)
    requires NoStraddle(SpecialPatterns(tk), a, b) && StartsSpecial(SpecialPatterns(tk), b)
    ensures Tokens(tk, a + b, true) == Join(Tokens(tk, a, true), Tokens(tk, b, true))
  {
    hide SpecialIds, Patterns, Fragments, NoStraddle, AllIds, StartsSpecial;
    FragmentsCut(SpecialPatterns(tk), a, b);
    var specials := SpecialIds(tk, true, |tk.tokens|);
    AllIdsAppend(tk, specials, Fragments(SpecialPatterns(tk), a), Fragments(SpecialPatterns(tk), b));
  }
}
