/** Incremental UTF-8 decoding (tokenizer.rs), over the syntax of section 4 of RFC 3629. */
module Utf8 {
  import opened Common

  type Byte = x: int | 0 <= x < 256 witness 0

  const REPLACEMENT := '\U{FFFD}'

  /** Section 3 of RFC 3629. */
  function Encode(c: char): (r: seq<Byte>)
    ensures 1 <= |r| <= 4
  {
    var p := c as int;
    if p < 0x80 then [p]
    else if p < 0x800 then [0xC0 + p / 64, 0x80 + p % 64]
    else if p < 0x10000 then [0xE0 + p / 4096, 0x80 + p / 64 % 64, 0x80 + p % 64]
    else [0xF0 + p / 262144, 0x80 + p / 4096 % 64, 0x80 + p / 64 % 64, 0x80 + p % 64]
  }

  /** Examples of section 7 of RFC 3629, the first and last characters of every length among them. */
  lemma EncodeExamples()
    ensures Encode('A') == [0x41] && Encode('\U{7F}') == [0x7F] && Encode('\U{80}') == [0xC2, 0x80]
    ensures Encode('\U{391}') == [0xCE, 0x91] && Encode('\U{7FF}') == [0xDF, 0xBF]
    ensures Encode('\U{2262}') == [0xE2, 0x89, 0xA2] && Encode('\U{800}') == [0xE0, 0xA0, 0x80]
    ensures Encode('\U{FFFF}') == [0xEF, 0xBF, 0xBF] && Encode('\U{10000}') == [0xF0, 0x90, 0x80, 0x80]
    ensures Encode('\U{233B4}') == [0xF0, 0xA3, 0x8E, 0xB4] && Encode('\U{10FFFF}') == [0xF4, 0x8F, 0xBF, 0xBF]
  {
  }

  function EncodeAll(t: string): seq<Byte> {
    if t == "" then [] else Encode(t[0]) + EncodeAll(t[1..])
  }

  datatype Step = Valid(n: nat, c: char) | Invalid(n: nat) | Incomplete

  predicate Cont(b: Byte) {
    0x80 <= b < 0xC0
  }

  /** The second bytes that may follow `b0` (section 4 of RFC 3629). */
  predicate Second(b0: Byte, b1: Byte) {
    Cont(b1) && (b0 == 0xE0 ==> b1 >= 0xA0) && (b0 == 0xED ==> b1 < 0xA0)
    && (b0 == 0xF0 ==> b1 >= 0x90) && (b0 == 0xF4 ==> b1 < 0x90)
  }

  /** How many bytes a sequence led by `b` has, 0 if none does. */
  function Width(b: Byte): nat {
    if b < 0x80 then 1
    else if 0xC2 <= b < 0xE0 then 2
    else if 0xE0 <= b < 0xF0 then 3
    else if 0xF0 <= b < 0xF5 then 4
    else 0
  }

  function Scalar2(a: int, b: int): int {
    (a - 0xC0) * 64 + (b - 0x80)
  }

  function Scalar3(a: int, b: int, c: int): int {
    (a - 0xE0) * 4096 + (b - 0x80) * 64 + (c - 0x80)
  }

  function Scalar4(a: int, b: int, c: int, d: int): int {
    (a - 0xF0) * 262144 + (b - 0x80) * 4096 + (c - 0x80) * 64 + (d - 0x80)
  }

  /** The validity check of std::str::from_utf8 at one position. */
  function StepOf(s: seq<Byte>): (r: Step)
    requires s != []
    ensures r.Valid? ==> 1 <= r.n <= |s|
    ensures r.Invalid? ==> 1 <= r.n <= |s|
  {
    var w := Width(s[0]);
    if w == 0 then Invalid(1)
    else if w == 1 then Valid(1, s[0] as char)
    else if |s| == 1 then Incomplete
    else if !Second(s[0], s[1]) then Invalid(1)
    else if w == 2 then Valid(2, Scalar2(s[0], s[1]) as char)
    else if |s| == 2 then Incomplete
    else if !Cont(s[2]) then Invalid(2)
    else if w == 3 then Valid(3, Scalar3(s[0], s[1], s[2]) as char)
    else if |s| == 3 then Incomplete
    else if !Cont(s[3]) then Invalid(3)
    else Valid(4, Scalar4(s[0], s[1], s[2], s[3]) as char)
  }

  lemma Digit(q: int, r: int)
    requires 0 <= r < 64
    ensures (q * 64 + r) / 64 == q && (q * 64 + r) % 64 == r
  {
  }

  lemma Places(p: nat)
    ensures p / 4096 == p / 64 / 64
    ensures p / 262144 == p / 4096 / 64
  {
  }

  lemma Digits3(a: int, b: int, c: int)
    requires 0xE0 <= a && 0x80 <= b < 0xC0 && 0x80 <= c < 0xC0
    ensures var p := Scalar3(a, b, c); a == 0xE0 + p / 4096 && b == 0x80 + p / 64 % 64 && c == 0x80 + p % 64
  {
    Digit((a - 0xE0) * 64 + (b - 0x80), c - 0x80);
    Digit(a - 0xE0, b - 0x80);
    Places(Scalar3(a, b, c));
  }

  lemma Digits4(a: int, b: int, c: int, d: int)
    requires 0xF0 <= a && 0x80 <= b < 0xC0 && 0x80 <= c < 0xC0 && 0x80 <= d < 0xC0
    ensures var p := Scalar4(a, b, c, d);
      a == 0xF0 + p / 262144 && b == 0x80 + p / 4096 % 64 && c == 0x80 + p / 64 % 64 && d == 0x80 + p % 64
  {
    Digit((a - 0xF0) * 4096 + (b - 0x80) * 64 + (c - 0x80), d - 0x80);
    Digit((a - 0xF0) * 64 + (b - 0x80), c - 0x80);
    Digit(a - 0xF0, b - 0x80);
    Places(Scalar4(a, b, c, d));
  }

  lemma Recompose(p: nat)
    ensures Scalar2(0xC0 + p / 64, 0x80 + p % 64) == p
    ensures Scalar3(0xE0 + p / 4096, 0x80 + p / 64 % 64, 0x80 + p % 64) == p
    ensures Scalar4(0xF0 + p / 262144, 0x80 + p / 4096 % 64, 0x80 + p / 64 % 64, 0x80 + p % 64) == p
  {
    Places(p);
    assert p == p / 64 * 64 + p % 64;
    assert p / 64 == p / 4096 * 64 + p / 64 % 64;
    assert p / 4096 == p / 262144 * 64 + p / 4096 % 64;
  }

  /** A valid step takes exactly one encoded scalar value ... */
  lemma ValidIsEncoding(s: seq<Byte>)
    requires s != [] && StepOf(s).Valid?
    ensures s[..StepOf(s).n] == Encode(StepOf(s).c)
  {
    var p := StepOf(s).c as int;
    match StepOf(s).n
    case 2 =>
      Digit(s[0] - 0xC0, s[1] - 0x80);
      assert s[..2] == [s[0], s[1]];
    case 3 =>
      assert p == Scalar3(s[0], s[1], s[2]);
      Digits3(s[0], s[1], s[2]);
      assert s[..3] == [s[0], s[1], s[2]];
    case 4 =>
      assert p == Scalar4(s[0], s[1], s[2], s[3]);
      Digits4(s[0], s[1], s[2], s[3]);
      assert s[..4] == [s[0], s[1], s[2], s[3]];
    case _ =>
  }

  /** ... and every encoded scalar value is taken. */
  lemma EncodingIsValid(c: char, rest: seq<Byte>)
    ensures StepOf(Encode(c) + rest) == Valid(|Encode(c)|, c)
  {
    EncodingAlone(c);
    StepStable(Encode(c), rest);
  }

  lemma EncodingAlone(c: char)
    ensures StepOf(Encode(c)) == Valid(|Encode(c)|, c)
  {
    var p := c as int;
    Recompose(p);
    EncodingChecks(c);
  }

  lemma EncodingChecks(c: char)
    ensures var s := Encode(c);
      && Width(s[0]) == |s|
      && (|s| > 1 ==> Second(s[0], s[1]))
      && (|s| > 2 ==> Cont(s[2]))
      && (|s| > 3 ==> Cont(s[3]))
  {
    Places(c as int);
  }

  lemma EncodingLeads(c: char, s: seq<Byte>)
    requires Encode(c) <= s
    ensures StepOf(s) == Valid(|Encode(c)|, c)
  {
    EncodingIsValid(c, s[|Encode(c)|..]);
    assert Encode(c) + s[|Encode(c)|..] == s;
  }

  /** `s` is the beginning of some encoded scalar value. */
  ghost predicate Starts(s: seq<Byte>) {
    exists c: char :: s <= Encode(c)
  }

  lemma StartsThenNotInvalid(s: seq<Byte>)
    requires s != [] && Starts(s)
    ensures !StepOf(s).Invalid?
  {
    var c: char :| s <= Encode(c);
    EncodingIsValid(c, []);
    assert Encode(c) + [] == Encode(c);
    StepStable(s, Encode(c)[|s|..]);
    assert s + Encode(c)[|s|..] == Encode(c);
  }

  lemma StepStable(s: seq<Byte>, rest: seq<Byte>)
    requires s != []
    ensures !StepOf(s).Incomplete? ==> StepOf(s + rest) == StepOf(s)
  {
  }

  /** An incomplete end is the beginning of an encoding, and not a whole one. */
  lemma IncompleteStarts(s: seq<Byte>)
    requires s != [] && StepOf(s).Incomplete?
    ensures Starts(s) && forall c: char :: !(Encode(c) <= s)
  {
    var b1 := if |s| > 1 then s[1] else if s[0] == 0xE0 then 0xA0 else if s[0] == 0xF0 then 0x90 else 0x80;
    var b2 := if |s| > 2 then s[2] else 0x80;
    var full := if Width(s[0]) == 2 then [s[0], b1] else if Width(s[0]) == 3 then [s[0], b1, b2]
                else [s[0], b1, b2, 0x80];
    assert s <= full;
    ValidIsEncoding(full);
    assert full[..|full|] == full;
    assert s <= Encode(StepOf(full).c);
    forall c: char ensures !(Encode(c) <= s) {
      if Encode(c) <= s {
        EncodingLeads(c, s);
      }
    }
  }

  /** What is replaced is a maximal ill-formed subpart (section 3.9 of the Unicode Standard): a single byte or the
      beginning of an encoding, in either case one that the next byte does not continue. */
  lemma InvalidIsMaximal(s: seq<Byte>)
    requires s != [] && StepOf(s).Invalid?
    ensures var n := StepOf(s).n;
      && (n == 1 || Starts(s[..n]))
      && (n < |s| ==> !Starts(s[..n + 1]))
      && forall c: char :: !(Encode(c) <= s)
  {
    var n := StepOf(s).n;
    if n > 1 {
      IncompleteStarts(s[..n]);
    }
    if n < |s| {
      assert StepOf(s[..n + 1]) == Invalid(n);
      if Starts(s[..n + 1]) {
        StartsThenNotInvalid(s[..n + 1]);
      }
    }
    forall c: char ensures !(Encode(c) <= s) {
      if Encode(c) <= s {
        EncodingLeads(c, s);
      }
    }
  }

  /** The specification: one character for every encoding, one replacement for every maximal ill-formed subpart.
      An incomplete end is kept back, or replaced when nothing more will come. */
  function Decode(s: seq<Byte>, finish: bool): (string, seq<Byte>)
    decreases |s|
  {
    if s == [] then ("", [])
    else match StepOf(s)
      case Valid(n, c) => var (t, rest) := Decode(s[n..], finish); ([c] + t, rest)
      case Invalid(n) => var (t, rest) := Decode(s[n..], finish); ([REPLACEMENT] + t, rest)
      case Incomplete => if finish then ([REPLACEMENT], []) else ("", s)
  }

  /** Bytes that arrive later only meet what was kept back. */
  lemma {:induction false} DecodeResumes(s: seq<Byte>, more: seq<Byte>, finish: bool)
    ensures var (t, kept) := Decode(s, false);
      Decode(s + more, finish) == (t + Decode(kept + more, finish).0, Decode(kept + more, finish).1)
    decreases |s|
  {
    hide StepOf;
    if s == [] {
      assert s + more == more && [] + more == more;
      assert "" + Decode(more, finish).0 == Decode(more, finish).0;
    } else {
      StepStable(s, more);
      if StepOf(s).Incomplete? {
        assert "" + Decode(s + more, finish).0 == Decode(s + more, finish).0;
      } else {
        var n := StepOf(s).n;
        assert (s + more)[n..] == s[n..] + more;
        DecodeResumes(s[n..], more, finish);
        var (t, kept) := Decode(s[n..], false);
        var ch := if StepOf(s).Valid? then StepOf(s).c else REPLACEMENT;
        assert [ch] + (t + Decode(kept + more, finish).0) == ([ch] + t) + Decode(kept + more, finish).0;
      }
    }
  }

  /** Encoded text decodes to itself, with nothing kept back. */
  lemma {:induction false} DecodeEncoded(t: string, more: seq<Byte>, finish: bool)
    ensures Decode(EncodeAll(t) + more, finish) == (t + Decode(more, finish).0, Decode(more, finish).1)
  {
    hide StepOf, Encode, Decode, EncodeAll;
    if t == "" {
      NothingEncoded(more, finish);
    } else {
      var rest := EncodeAll(t[1..]) + more;
      DecodeFirst(t[0], t[1..], more, finish);
      DecodeEncoded(t[1..], more, finish);
      assert [t[0]] + t[1..] == t;
      assert [t[0]] + (t[1..] + Decode(more, finish).0) == ([t[0]] + t[1..]) + Decode(more, finish).0;
    }
  }

  lemma NothingEncoded(more: seq<Byte>, finish: bool)
    ensures Decode(EncodeAll("") + more, finish) == ("" + Decode(more, finish).0, Decode(more, finish).1)
  {
    assert EncodeAll("") + more == more && "" + Decode(more, finish).0 == Decode(more, finish).0;
  }

  lemma DecodeFirst(c: char, t: string, more: seq<Byte>, finish: bool)
    ensures var rest := EncodeAll(t) + more;
      Decode(EncodeAll([c] + t) + more, finish) == ([c] + Decode(rest, finish).0, Decode(rest, finish).1)
  {
    hide StepOf, Encode;
    var rest := EncodeAll(t) + more;
    assert ([c] + t)[1..] == t;
    assert EncodeAll([c] + t) + more == Encode(c) + rest;
    EncodingIsValid(c, rest);
    assert (Encode(c) + rest)[|Encode(c)|..] == rest;
  }

  /** std::str::from_utf8: the text, or where it goes wrong and over how many bytes (none at a cut-off end). */
  datatype Checked = Fine(text: string) | Wrong(validUpTo: nat, prefix: string, errorLen: Option<nat>)

  function FromUtf8(s: seq<Byte>): (r: Checked)
    ensures r.Wrong? ==> r.validUpTo <= |s|
    decreases |s|
  {
    if s == [] then Fine("")
    else match StepOf(s)
      case Valid(n, c) =>
        (match FromUtf8(s[n..])
         case Fine(text) => Fine([c] + text)
         case Wrong(upTo, prefix, len) => Wrong(n + upTo, [c] + prefix, len))
      case Invalid(n) => Wrong(0, "", Some(n))
      case Incomplete => Wrong(0, "", None)
  }

  /** The check says what decoding does up to the first error. */
  predicate CheckMeans(s: seq<Byte>, finish: bool) {
    match FromUtf8(s)
    case Fine(text) => Decode(s, finish) == (text, [])
    case Wrong(upTo, prefix, len) =>
      && Decode(s, finish) == (prefix + Decode(s[upTo..], finish).0, Decode(s[upTo..], finish).1)
      && s[upTo..] != []
      && len == (match StepOf(s[upTo..]) case Invalid(n) => Some(n) case _ => None)
      && !StepOf(s[upTo..]).Valid?
      && FromUtf8(s[..upTo]) == Fine(prefix)
      && (upTo == 0 <==> prefix == "")
  }

  lemma {:induction false} CheckedDecodes(s: seq<Byte>, finish: bool)
    ensures CheckMeans(s, finish)
    decreases |s|
  {
    hide StepOf;
    if s != [] {
      if StepOf(s).Valid? {
        CheckedDecodes(s[StepOf(s).n..], finish);
        CheckedStep(s, finish);
      } else {
        assert s[0..] == s && "" + Decode(s, finish).0 == Decode(s, finish).0;
      }
    }
  }

  lemma CheckedStep(s: seq<Byte>, finish: bool)
    requires s != [] && StepOf(s).Valid? && CheckMeans(s[StepOf(s).n..], finish)
    ensures CheckMeans(s, finish)
  {
    hide StepOf;
    var n, c := StepOf(s).n, StepOf(s).c;
    match FromUtf8(s[n..])
    case Fine(text) =>
    case Wrong(upTo, prefix, len) =>
      assert s[n + upTo..] == s[n..][upTo..] && s[..n + upTo][n..] == s[n..][..upTo];
      assert [c] + (prefix + Decode(s[n + upTo..], finish).0) == [c] + prefix + Decode(s[n + upTo..], finish).0;
      StepShort(s, n + upTo);
  }

  lemma StepShort(s: seq<Byte>, k: nat)
    requires s != [] && StepOf(s).Valid? && StepOf(s).n <= k <= |s|
    ensures StepOf(s[..k]) == StepOf(s)
  {
  }

  /** `out` is out, `rest` is still to be decoded. */
  predicate Owes(bytes: seq<Byte>, finish: bool, out: string, rest: seq<Byte>) {
    Decode(bytes, finish) == (out + Decode(rest, finish).0, Decode(rest, finish).1)
  }

  function Drain(rest: seq<Byte>, errorLen: Option<nat>): nat {
    match errorLen case Some(n) => n case None => |rest|
  }

  lemma FlushStep(bytes: seq<Byte>, finish: bool, out: string, rest: seq<Byte>)
    requires Owes(bytes, finish, out, rest) && rest != []
    ensures var r := FromUtf8(rest);
      && (r.Fine? ==> Owes(bytes, finish, out + r.text, []))
      && (r.Wrong? && r.validUpTo > 0 ==> Owes(bytes, finish, out + r.prefix, rest[r.validUpTo..]))
      && (r.Wrong? && r.validUpTo == 0 && r.errorLen == None && !finish ==> Decode(bytes, finish) == (out, rest))
      && (r.Wrong? && r.validUpTo == 0 && (r.errorLen.Some? || finish) ==>
            1 <= Drain(rest, r.errorLen) <= |rest|
            && Owes(bytes, finish, out + [REPLACEMENT], rest[Drain(rest, r.errorLen)..]))
  {
    hide StepOf, FromUtf8, Decode;
    CheckedDecodes(rest, finish);
    match FromUtf8(rest)
    case Fine(text) =>
      NothingLeft(finish);
      assert out + text + "" == out + text;
    case Wrong(upTo, prefix, len) =>
      if upTo > 0 {
        assert out + (prefix + Decode(rest[upTo..], finish).0) == out + prefix + Decode(rest[upTo..], finish).0;
      } else {
        assert rest[0..] == rest && out + "" == out;
        DecodeBroken(rest, finish);
        var more := Decode(rest[Drain(rest, len)..], finish).0;
        assert out + ([REPLACEMENT] + more) == out + [REPLACEMENT] + more;
      }
  }

  lemma NothingLeft(finish: bool)
    ensures Decode([], finish) == ("", [])
  {
  }

  lemma DecodeBroken(s: seq<Byte>, finish: bool)
    requires s != [] && !StepOf(s).Valid?
    ensures StepOf(s).Incomplete? && !finish ==> Decode(s, finish) == ("", s)
    ensures StepOf(s).Invalid? || finish ==>
      var n := if StepOf(s).Invalid? then StepOf(s).n else |s|;
      Decode(s, finish) == ([REPLACEMENT] + Decode(s[n..], finish).0, Decode(s[n..], finish).1)
  {
    hide StepOf;
    assert [REPLACEMENT] + "" == [REPLACEMENT];
  }

  method FlushValidPrefix(bytes: seq<Byte>, finish: bool) returns (out: string, rest: seq<Byte>)
    ensures (out, rest) == Decode(bytes, finish)
  {
    hide StepOf, FromUtf8, Decode, Owes;
    out, rest := "", bytes;
    OwesAll(bytes, finish);
    while rest != []
      invariant Owes(bytes, finish, out, rest)
      decreases |rest|
    {
      FlushStep(bytes, finish, out, rest);
      match FromUtf8(rest)
      case Fine(valid) =>
        out, rest := out + valid, [];
      case Wrong(upTo, prefix, len) =>
        if upTo > 0 {
          out, rest := out + prefix, rest[upTo..];
          continue;
        }
        if len == None && !finish {
          return;
        }
        out := out + [REPLACEMENT];
        rest := rest[Drain(rest, len)..];
    }
    OwesNothing(bytes, finish, out);
  }

  lemma OwesAll(bytes: seq<Byte>, finish: bool)
    ensures Owes(bytes, finish, "", bytes)
  {
    assert "" + Decode(bytes, finish).0 == Decode(bytes, finish).0;
  }

  lemma OwesNothing(bytes: seq<Byte>, finish: bool, out: string)
    requires Owes(bytes, finish, out, [])
    ensures Decode(bytes, finish) == (out, [])
  {
    assert out + "" == out;
  }

  class Utf8StreamDecoder {
    var pending: seq<Byte>
    // The bytes pushed and the text handed out.
    ghost var seen: seq<Byte>
    ghost var said: string

    ghost predicate Valid()
      reads this
    {
      Decode(seen, false) == (said, pending)
    }

    constructor ()
      ensures Valid() && seen == [] && said == ""
    {
      pending, seen, said := [], [], "";
    }

    method Push(piece: seq<Byte>) returns (out: string)
      requires Valid()
      modifies this
      ensures Valid() && seen == old(seen) + piece && said == old(said) + out
    {
      hide Decode;
      DecodeResumes(seen, piece, false);
      out, pending := FlushValidPrefix(pending + piece, false);
      seen, said := seen + piece, said + out;
    }

    /** Pushes in any cutting and a finish decode the whole stream. */
    method Finish() returns (out: string)
      requires Valid()
      modifies this
      ensures said == old(said) + out && said == Decode(seen, true).0
    {
      hide Decode;
      DecodeResumes(seen, [], true);
      assert seen + [] == seen && pending + [] == pending;
      out, pending := FlushValidPrefix(pending, true);
      said := said + out;
    }
  }

  function ConcatBytes(pieces: seq<seq<Byte>>): seq<Byte> {
    if pieces == [] then [] else pieces[0] + ConcatBytes(pieces[1..])
  }

  /** A byte that can begin nothing is shown as U+FFFD, and so is a sequence that ends too early. */
  lemma ReplacedByFFFD()
    ensures Decode([0xFF], true) == ("\U{FFFD}", [])
    ensures Decode([0xE2, 0x82], true) == ("\U{FFFD}", []) && Decode([0xE2, 0x82], false) == ("", [0xE2, 0x82])
    ensures Decode([0xE2, 0x82, 0xAC], false) == ("\U{20AC}", [])
  {
    var bad, cut, euro: seq<Byte> := [0xFF], [0xE2, 0x82], [0xE2, 0x82, 0xAC];
    assert StepOf(bad) == Invalid(1) && StepOf(cut) == Incomplete && StepOf(euro) == Valid(3, '\U{20AC}');
    DecodeBroken(bad, true);
    DecodeBroken(cut, true);
    DecodeBroken(cut, false);
    NothingLeft(true);
    NothingLeft(false);
    assert bad[1..] == [] && cut[2..] == [] && euro[3..] == [];
    assert ['\U{FFFD}'] + "" == "\U{FFFD}" && ['\U{20AC}'] + "" == "\U{20AC}";
  }
}
