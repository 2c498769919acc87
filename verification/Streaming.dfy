/** The text of streamed tokens, piece by piece (http.rs), against decoding them together. */
module StreamedText {
  import opened Common
  import opened Utf8
  import opened BytePairs
  import opened Network
  import opened Tokenizing
  import opened Detokenizing

  /** token_piece: the text of one token alone; a piece that is not UTF-8 by itself is an error. */
  function TokenPiece(tk: Tokenizer, id: Token, render: bool): Option<string> {
    var i := id as nat;
    if i >= |tk.tokens| then None
    else if TypeOf(tk, i) == CONTROL && !render then Some("")
    else if TypeOf(tk, i) == CONTROL || TypeOf(tk, i) == USER_DEFINED then Some(tk.tokens[i])
    else match UnmapBytes(tk.tokens[i])
      case Failure(_) => None
      case Success(bytes) =>
        match FromUtf8(bytes)
        case Fine(text) => Some(text)
        case Wrong(_, _, _) => None
  }

  function Whole(tk: Tokenizer, ids: seq<Token>): string {
    if ids == [] then ""
    else (match TokenPiece(tk, ids[0], false) case None => "" case Some(s) => s) + Whole(tk, ids[1..])
  }

  lemma {:induction false} WholeAppend(tk: Tokenizer, a: seq<Token>, b: seq<Token>)
    ensures Whole(tk, a + b) == Whole(tk, a) + Whole(tk, b)
  {
    hide TokenPiece;
    if a == [] {
      assert a + b == b;
    } else {
      assert (a + b)[1..] == a[1..] + b;
      WholeAppend(tk, a[1..], b);
    }
  }

  method DecodeTokensLossless(tk: Tokenizer, ids: seq<Token>) returns (out: string)
    ensures out == Whole(tk, ids)
  {
    hide TokenPiece;
    out := "";
    for i := 0 to |ids|
      invariant out == Whole(tk, ids[..i])
    {
      assert ids[..i + 1] == ids[..i] + [ids[i]];
      WholeAppend(tk, ids[..i], [ids[i]]);
      assert [ids[i]][1..] == [];
      match TokenPiece(tk, ids[i], false)
      case Some(piece) => out := out + piece;
      case None => assert out + "" == out;
    }
    assert ids[..|ids|] == ids;
  }

  /** Every token is whole characters by itself. */
  predicate AllWhole(tk: Tokenizer, ids: seq<Token>) {
    forall i :: 0 <= i < |ids| ==> TokenPiece(tk, ids[i], false).Some?
  }

  /** A valid piece after an incomplete character shows that character to be broken. */
  lemma BrokenOff(kept: seq<Byte>, bytes: seq<Byte>, text: string)
    requires kept != [] && StepOf(kept).Incomplete? && bytes != [] && FromUtf8(bytes) == Fine(text)
    ensures |Decode(kept + bytes, false).0| == 1 + |text|
  {
    CheckedDecodes(bytes, false);
    assert StepOf(bytes).Valid?;
    assert !Cont(bytes[0]);
    assert StepOf(kept + bytes) == Invalid(|kept|);
    assert (kept + bytes)[|kept|..] == bytes;
  }

  lemma {:induction false} SaysOrKeeps(s: seq<Byte>)
    requires s != []
    ensures Decode(s, false).0 != "" || Decode(s, false).1 != []
  {
  }

  function Owed(b: bool): nat { if b then 1 else 0 }

  /** Together, the tokens yield at least the characters they yield alone, and one more if anything was cut. */
  lemma {:induction false} AtLeast(tk: Tokenizer, ids: seq<Token>, kept: seq<Byte>)
    requires Detok(tk, ids, kept, false).Success? && (kept == [] || StepOf(kept).Incomplete?)
    ensures |Detok(tk, ids, kept, false).value| >= |Whole(tk, ids)| + Owed(kept != [] || !AllWhole(tk, ids))
    decreases |ids|
  {
    hide StepOf, FromUtf8, UnmapBytes;
    if ids == [] {
      assert kept != [] ==> Decode(kept, true).0 == [REPLACEMENT];
    } else {
      RestWhole(tk, ids);
      var i := ids[0] as nat;
      if TypeOf(tk, i) == CONTROL || TypeOf(tk, i) == USER_DEFINED {
        AtLeast(tk, ids[1..], kept);
      } else {
        var bytes := UnmapBytes(tk.tokens[i]).value;
        KeptStays(kept + bytes);
        AtLeast(tk, ids[1..], Decode(kept + bytes, false).1);
        PieceAtLeast(kept, bytes);
      }
    }
  }

  lemma RestWhole(tk: Tokenizer, ids: seq<Token>)
    requires ids != []
    ensures AllWhole(tk, ids) <==> TokenPiece(tk, ids[0], false).Some? && AllWhole(tk, ids[1..])
  {
    hide TokenPiece;
    if AllWhole(tk, ids[1..]) && TokenPiece(tk, ids[0], false).Some? {
      forall i | 0 <= i < |ids| ensures TokenPiece(tk, ids[i], false).Some? {
        assert i > 0 ==> ids[i] == ids[1..][i - 1];
      }
    }
  }

  lemma PieceAtLeast(kept: seq<Byte>, bytes: seq<Byte>)
    requires kept == [] || StepOf(kept).Incomplete?
    ensures var (out, after) := Decode(kept + bytes, false);
      match FromUtf8(bytes)
      case Fine(text) => |out| + Owed(after != []) >= |text| + Owed(kept != [])
      case Wrong(_, _, _) => |out| + Owed(after != []) >= 1
    ensures kept == [] && FromUtf8(bytes).Fine? ==> Decode(kept + bytes, false).1 == []
  {
    hide StepOf;
    match FromUtf8(bytes)
    case Fine(text) =>
      CheckedDecodes(bytes, false);
      if kept == [] {
        assert kept + bytes == bytes;
      } else if bytes == [] {
        assert kept + bytes == kept;
      } else {
        BrokenOff(kept, bytes, text);
      }
    case Wrong(_, _, _) =>
      SaysOrKeeps(kept + bytes);
  }

  /** With nothing cut, the pieces are the text. */
  lemma {:induction false} WholeIsText(tk: Tokenizer, ids: seq<Token>)
    requires AllWhole(tk, ids)
    ensures Detok(tk, ids, [], false) == Success(Whole(tk, ids))
    decreases |ids|
  {
    hide Decode, FromUtf8, UnmapBytes;
    if ids == [] {
      NothingDecodes();
    } else {
      RestWhole(tk, ids);
      WholeIsText(tk, ids[1..]);
      var i := ids[0] as nat;
      assert "" + Whole(tk, ids[1..]) == Whole(tk, ids[1..]);
      if TypeOf(tk, i) != CONTROL && TypeOf(tk, i) != USER_DEFINED {
        var bytes := UnmapBytes(tk.tokens[i]).value;
        CheckedDecodes(bytes, false);
        assert [] + bytes == bytes;
      }
    }
  }

  lemma NothingDecodes()
    ensures Decode([], true).0 == ""
  {
  }

  /** Despite its name, decoding token by token loses text: it agrees with detokenize exactly when
      every token by itself is whole UTF-8 characters. */
  lemma LosslessIffWhole(tk: Tokenizer, ids: seq<Token>)
    requires Detok(tk, ids, [], false).Success?
    ensures Whole(tk, ids) == Detok(tk, ids, [], false).value <==> AllWhole(tk, ids)
  {
    if AllWhole(tk, ids) {
      WholeIsText(tk, ids);
    } else {
      AtLeast(tk, ids, []);
    }
  }

  /** One character in two byte tokens: nothing is streamed. */
  lemma SplitCharacterIsLost(split: string -> seq<string>)
    ensures var tk := Tokenizer([[ByteChar(0xC3)], [ByteChar(0xA9)]], [1, 1], map[], map[], split);
      && Detok(tk, [0, 1], [], false) == Success("\U{E9}")
      && Whole(tk, [0, 1]) == ""
  {
    var tk := Tokenizer([[ByteChar(0xC3)], [ByteChar(0xA9)]], [1, 1], map[], map[], split);
    var a: seq<Byte>, b: seq<Byte>, ab: seq<Byte> := [0xC3], [0xA9], [0xC3, 0xA9];
    ByteMapsInverse(0xC3, ByteChar(0xC3));
    ByteMapsInverse(0xA9, ByteChar(0xA9));
    assert UnmapBytes(tk.tokens[0]) == Success(a) by {
      UnmapMapped(a);
      assert MapBytes(a) == tk.tokens[0];
    }
    assert UnmapBytes(tk.tokens[1]) == Success(b) by {
      UnmapMapped(b);
      assert MapBytes(b) == tk.tokens[1];
    }
    var ids: seq<Token> := [0, 1];
    var last: seq<Token> := [1];
    assert ids[1..] == last && last[1..] == [];
    assert [] + a == a && a + b == ab && ab[2..] == [];
    assert Decode(a, false) == ("", a);
    assert StepOf(ab) == Valid(2, '\U{E9}');
    assert Decode(ab[2..], false) == ("", []);
    var (text, rest) := Decode(ab, false);
    assert text == ['\U{E9}'] + "" == "\U{E9}" && rest == [];
    assert Detok(tk, [], [], false) == Success("");
    assert Detok(tk, last, a, false) == Prepend("\U{E9}", Detok(tk, [], [], false));
    assert "" + "\U{E9}" == "\U{E9}" == "\U{E9}" + "";
    assert FromUtf8(a).Wrong? && FromUtf8(b).Wrong?;
    assert Whole(tk, last) == "" + Whole(tk, []);
  }
}
