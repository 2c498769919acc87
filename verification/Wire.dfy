/** The pipe protocol: five header words, then a payload whose length the header fixes. */
module Wire {
  import opened Network

  type Cand = (Token, real)

  /** One unit on the wire; a hidden row counts as one unit. */
  datatype Cell = Word(u: nat) | Row(x: Vec) | Pair(c: Cand)

  datatype Frame =
    | Run(slot: nat, base: nat, rows: seq<Vec>, topk: nat)
    | State(save: bool, slot: nat, idx: nat, nTok: nat)
    | Bye

  function Rows(xs: seq<Vec>): (cs: seq<Cell>)
    ensures |cs| == |xs|
  {
    seq(|xs|, i requires 0 <= i < |xs| => Row(xs[i]))
  }

  /** The words the head writes: `{op, slot, n, base, topk}` and the rows. */
  function Encode(f: Frame): seq<Cell> {
    match f
    case Run(slot, base, rows, topk) => [Word(1), Word(slot), Word(|rows|), Word(base), Word(topk)] + Rows(rows)
    case State(save, slot, idx, nTok) => [Word(if save then 3 else 4), Word(slot), Word(idx), Word(0), Word(nTok)]
    case Bye => [Word(2), Word(0), Word(0), Word(0), Word(0)]
  }

  function EncodeAll(fs: seq<Frame>): seq<Cell> {
    if fs == [] then [] else Encode(fs[0]) + EncodeAll(fs[1..])
  }

  datatype Parsed = Parsed(frame: Frame, rest: seq<Cell>) | Incomplete

  /** How the worker reads: a header, and for a run frame as many rows as it announced. */
  function ReadFrame(cs: seq<Cell>): Parsed {
    if |cs| < 5 || !(forall i :: 0 <= i < 5 ==> cs[i].Word?) then Incomplete
    else
      var (op, slot, n, base, topk) := (cs[0].u, cs[1].u, cs[2].u, cs[3].u, cs[4].u);
      if op == 2 then Parsed(Bye, cs[5..])
      else if op == 3 || op == 4 then Parsed(State(op == 3, slot, n, topk), cs[5..])
      else if op == 1 && n <= |cs| - 5 && (forall i :: 5 <= i < 5 + n ==> cs[i].Row?) then
        Parsed(Run(slot, base, seq(n, i requires 0 <= i < n => cs[5 + i].x), topk), cs[5 + n..])
      else Incomplete
  }

  lemma FrameRoundTrip(f: Frame, rest: seq<Cell>)
    ensures ReadFrame(Encode(f) + rest) == Parsed(f, rest)
  {
    var cs := Encode(f) + rest;
    if f.Run? {
      var n := |f.rows|;
      assert forall i :: 0 <= i < n ==> cs[5 + i] == Row(f.rows[i]);
      assert seq(n, i requires 0 <= i < n => cs[5 + i].x) == f.rows;
      assert cs[5 + n..] == rest;
    } else {
      assert cs[5..] == rest;
    }
  }

  /** Frames the worker has read after consuming a whole stream. */
  function ReadAll(cs: seq<Cell>): (seq<Frame>, seq<Cell>)
    decreases |cs|
  {
    match ReadFrame(cs)
    case Incomplete => ([], cs)
    case Parsed(f, rest) =>
      if |rest| >= |cs| then ([], cs) else
        var (fs, left) := ReadAll(rest);
        ([f] + fs, left)
  }

  /** Both ends agree on frame boundaries, whatever sequence of frames is sent. */
  lemma {:induction false} StreamRoundTrip(fs: seq<Frame>)
    ensures ReadAll(EncodeAll(fs)) == (fs, [])
  {
    if fs != [] {
      FrameRoundTrip(fs[0], EncodeAll(fs[1..]));
      StreamRoundTrip(fs[1..]);
      assert |Encode(fs[0])| >= 5;
      assert [fs[0]] + fs[1..] == fs;
    }
  }

  // ---- replies ----

  datatype Reply = Reply(ids: seq<Token>, cands: seq<Cand>)

  function EncodeReply(r: Reply): seq<Cell> {
    seq(|r.ids|, i requires 0 <= i < |r.ids| => Word(r.ids[i] as nat))
    + seq(|r.cands|, i requires 0 <= i < |r.cands| => Pair(r.cands[i]))
  }

  function EncodeReplies(rs: seq<Reply>): seq<Cell> {
    if rs == [] then [] else EncodeReply(rs[0]) + EncodeReplies(rs[1..])
  }

  predicate ReplyReadable(n: nat, topk: nat, cs: seq<Cell>) {
    && n + topk <= |cs|
    && (forall i :: 0 <= i < n ==> cs[i].Word? && cs[i].u < 0x1_0000_0000)
    && (forall i :: n <= i < n + topk ==> cs[i].Pair?)
  }

  /** recv_ids: the oldest pending frame fixes how much is read. */
  function ReadReply(n: nat, topk: nat, cs: seq<Cell>): (Reply, seq<Cell>)
    requires ReplyReadable(n, topk, cs)
  {
    (Reply(seq(n, i requires 0 <= i < n => cs[i].u as Token),
           seq(topk, i requires 0 <= i < topk => cs[n + i].c)),
     cs[n + topk..])
  }

  function ReadReplies(shapes: seq<(nat, nat)>, cs: seq<Cell>): (seq<Reply>, seq<Cell>) {
    if shapes == [] || !ReplyReadable(shapes[0].0, shapes[0].1, cs) then ([], cs) else
      var (r, rest) := ReadReply(shapes[0].0, shapes[0].1, cs);
      var (rs, left) := ReadReplies(shapes[1..], rest);
      ([r] + rs, left)
  }

  /** `shapes` lists the (n, topk) of frames sent and not yet answered. */
  predicate ShapesMatch(shapes: seq<(nat, nat)>, rs: seq<Reply>) {
    |shapes| == |rs| && forall i :: 0 <= i < |rs| ==> shapes[i] == (|rs[i].ids|, |rs[i].cands|)
  }

  lemma ReplyRoundTrip(r: Reply, rest: seq<Cell>)
    ensures var cs := EncodeReply(r) + rest;
            ReplyReadable(|r.ids|, |r.cands|, cs) && ReadReply(|r.ids|, |r.cands|, cs) == (r, rest)
  {
    var cs := EncodeReply(r) + rest;
    var n, k := |r.ids|, |r.cands|;
    assert forall i :: 0 <= i < n ==> cs[i] == Word(r.ids[i] as nat);
    assert forall i :: 0 <= i < k ==> cs[n + i] == Pair(r.cands[i]);
    assert seq(n, i requires 0 <= i < n => cs[i].u as Token) == r.ids;
    assert seq(k, i requires 0 <= i < k => cs[n + i].c) == r.cands;
    assert cs[n + k..] == rest;
  }

  /** Reading with the pending list recovers exactly the replies, in order, and leaves nothing over. */
  lemma {:induction false} RepliesRoundTrip(shapes: seq<(nat, nat)>, rs: seq<Reply>)
    requires ShapesMatch(shapes, rs)
    ensures ReadReplies(shapes, EncodeReplies(rs)) == (rs, [])
  {
    if rs != [] {
      ReplyRoundTrip(rs[0], EncodeReplies(rs[1..]));
      RepliesRoundTrip(shapes[1..], rs[1..]);
      assert [rs[0]] + rs[1..] == rs;
    }
  }
}
