/** Where a slot's state lies in the device buffers and in a snapshot (main.cpp). Offsets count 4-byte words. */
module SnapshotLayout {

  datatype Dims = Dims(heads: nat, tmax: nat, dh: nat)

  // Absent: a layer another pipeline stage owns, with no buffers here.
  datatype Shape = Recurrent(conv: nat, state: nat) | Attention | Absent

  /** Words before item `i` of items of equal size. */
  function Base(i: nat, size: nat): nat { i * size }

  lemma {:induction false} BaseGrows(i: nat, j: nat, size: nat)
    requires i <= j
    ensures Base(i, size) <= Base(j, size)
    decreases j - i
  {
    hide Base;
    if i < j {
      BaseGrows(i, j - 1, size);
      BaseNext(j - 1, size);
    }
  }

  lemma BaseNext(i: nat, size: nat)
    ensures Base(i + 1, size) == Base(i, size) + size
  {
  }

  lemma BaseFits(i: nat, count: nat, size: nat)
    requires i < count
    ensures Base(i, size) + size == Base(i + 1, size) <= Base(count, size)
  {
    hide Base;
    BaseNext(i, size);
    BaseGrows(i + 1, count, size);
  }

  /** Items of equal size do not overlap. */
  lemma BasesApart(i: nat, j: nat, size: nat)
    requires i < j
    ensures Base(i, size) + size <= Base(j, size)
  {
    hide Base;
    BaseFits(i, j, size);
  }

  function HeadWords(c: Dims): nat { Base(c.tmax, c.dh) }

  function Size1(c: Dims, s: Shape): nat {
    match s case Recurrent(conv, _) => conv case Attention => Base(c.heads, HeadWords(c)) case Absent => 0
  }

  function Size2(c: Dims, s: Shape): nat {
    match s case Recurrent(_, state) => state case Attention => Base(c.heads, HeadWords(c)) case Absent => 0
  }

  /** Where layer `il` begins in a snapshot; its second part follows its first. */
  function Off1(c: Dims, layers: seq<Shape>, il: nat): nat
    requires il <= |layers|
  {
    if il == 0 then 0
    else Off1(c, layers, il - 1) + Size1(c, layers[il - 1]) + Size2(c, layers[il - 1])
  }

  function Off2(c: Dims, layers: seq<Shape>, il: nat): nat
    requires il < |layers|
  {
    Off1(c, layers, il) + Size1(c, layers[il])
  }

  /** The regions of different layers never overlap and all lie inside the snapshot. */
  lemma {:induction false} RegionsApart(c: Dims, layers: seq<Shape>, i: nat, j: nat)
    requires i < j <= |layers|
    ensures Off2(c, layers, i) + Size2(c, layers[i]) <= Off1(c, layers, j)
    decreases j
  {
    if i + 1 < j {
      RegionsApart(c, layers, i, j - 1);
    }
  }

  method Offsets(c: Dims, layers: seq<Shape>) returns (off1: seq<nat>, off2: seq<nat>, size: nat)
    ensures |off1| == |off2| == |layers| && size == Off1(c, layers, |layers|)
    ensures forall il :: 0 <= il < |layers| ==> off1[il] == Off1(c, layers, il) && off2[il] == Off2(c, layers, il)
  {
    hide Base, Size1, Size2;
    off1, off2, size := [], [], 0;
    for il := 0 to |layers|
      invariant |off1| == |off2| == il && size == Off1(c, layers, il)
      invariant forall i :: 0 <= i < il ==> off1[i] == Off1(c, layers, i) && off2[i] == Off2(c, layers, i)
    {
      off1 := off1 + [size];
      size := size + Size1(c, layers[il]);
      off2 := off2 + [size];
      size := size + Size2(c, layers[il]);
    }
  }

  /** Only the first n rows of every head are copied when n is given and below capacity. */
  predicate Partial(c: Dims, s: Shape, n: nat) {
    s.Attention? && 0 < n < c.tmax
  }

  /** `now` is `was` with its live words taken from `src`: of every head the first n rows, or everything. */
  predicate Copied(c: Dims, sh: Shape, n: nat, src: seq<real>, was: seq<real>, now: seq<real>) {
    && |src| == |was| == |now|
    && (if Partial(c, sh, n) then HeadsCopied(c.heads, HeadWords(c), Base(n, c.dh), src, was, now) else now == src)
  }

  predicate HeadsCopied(heads: nat, stride: nat, live: nat, src: seq<real>, was: seq<real>, now: seq<real>)
    requires |src| == |was| == |now|
  {
    forall h: nat, i: nat :: h < heads && Base(h, stride) <= i < Base(h, stride) + stride && i < |now| ==>
      now[i] == if i - Base(h, stride) < live then src[i] else was[i]
  }

  // ---- one buffer copy ----

  method CopyRegion(dst: array<real>, d: nat, src: array<real>, s: nat, n: nat)
    requires dst != src && d + n <= dst.Length && s + n <= src.Length
    modifies dst
    ensures forall i :: d <= i < d + n ==> dst[i] == src[s + (i - d)]
    ensures forall i :: 0 <= i < dst.Length && !(d <= i < d + n) ==> dst[i] == old(dst[i])
  {
    for k := 0 to n
      invariant forall i :: d <= i < d + k ==> dst[i] == src[s + (i - d)]
      invariant forall i :: 0 <= i < dst.Length && !(d <= i < d + k) ==> dst[i] == old(dst[i])
    {
      dst[d + k] := src[s + k];
    }
  }

  /** The per-head copies of one stripe: every head's first `live` words. */
  method CopyHeads(dst: array<real>, d: nat, src: array<real>, s: nat, heads: nat, stride: nat, live: nat)
    requires dst != src && live <= stride
    requires d + Base(heads, stride) <= dst.Length && s + Base(heads, stride) <= src.Length
    modifies dst
    ensures var size := Base(heads, stride);
      HeadsCopied(heads, stride, live, src[s..s + size], old(dst[d..d + size]), dst[d..d + size])
    ensures dst[..d] == old(dst[..d]) && dst[d + Base(heads, stride)..] == old(dst[d + Base(heads, stride)..])
  {
    hide Base;
    NoBase(stride);
    for h := 0 to heads
      invariant Base(h, stride) <= Base(heads, stride)
      invariant forall g: nat, i: nat ::
        g < h && d + Base(g, stride) <= i < d + Base(g, stride) + stride && i < d + Base(heads, stride) ==>
        dst[i] == if i - d - Base(g, stride) < live then src[s + (i - d)] else old(dst[i])
      invariant forall i :: 0 <= i < dst.Length && !(d <= i < d + Base(h, stride)) ==> dst[i] == old(dst[i])
    {
      BaseFits(h, heads, stride);
      var off := Base(h, stride);
      CopyRegion(dst, d + off, src, s + off, live);
      forall g: nat, i: nat |
        g <= h && d + Base(g, stride) <= i < d + Base(g, stride) + stride && i < d + Base(heads, stride)
        ensures dst[i] == if i - d - Base(g, stride) < live then src[s + (i - d)] else old(dst[i])
      {
        if g < h {
          BasesApart(g, h, stride);
        }
      }
    }
  }

  lemma NoBase(size: nat)
    ensures Base(0, size) == 0
  {
  }

  /** One stripe between a slot and a snapshot, in either direction. */
  method CopyStripe(c: Dims, sh: Shape, n: nat, dst: array<real>, d: nat, src: array<real>, s: nat, size: nat)
    requires dst != src && d + size <= dst.Length && s + size <= src.Length
    requires sh.Attention? ==> size == Base(c.heads, HeadWords(c)) && c.heads > 0
    modifies dst
    ensures Copied(c, sh, n, src[s..s + size], old(dst[d..d + size]), dst[d..d + size])
    ensures dst[..d] == old(dst[..d]) && dst[d + size..] == old(dst[d + size..])
  {
    hide Base, HeadsCopied, HeadWords;
    if Partial(c, sh, n) {
      HeadOfStripe(c);
      RowsFit(c, n);
      CopyHeads(dst, d, src, s, c.heads, size / c.heads, Base(n, c.dh));
    } else {
      CopyRegion(dst, d, src, s, size);
      assert dst[d..d + size] == src[s..s + size];
    }
  }

  lemma HeadOfStripe(c: Dims)
    requires c.heads > 0
    ensures Base(c.heads, HeadWords(c)) / c.heads == HeadWords(c)
  {
    Quotient(c.heads, HeadWords(c), Base(c.heads, HeadWords(c)) / c.heads);
  }

  lemma Quotient(k: nat, x: nat, q: nat)
    requires k > 0 && q == Base(k, x) / k
    ensures q == x
  {
    assert Base(k, x) == Base(x, k) == Base(q, k) + Base(k, x) % k;
    if q < x {
      BasesApart(q, x, k);
    } else if x < q {
      BasesApart(x, q, k);
    }
  }

  lemma RowsFit(c: Dims, n: nat)
    requires n < c.tmax
    ensures Base(n, c.dh) <= HeadWords(c)
  {
    BaseFits(n, c.tmax, c.dh);
  }

  /** What a stripe holds after it was saved and loaded with one token count is what a direct copy would give. */
  lemma CopiedTwice(c: Dims, sh: Shape, n: nat, a: seq<real>, s0: seq<real>, s1: seq<real>, b0: seq<real>,
                    b1: seq<real>)
    requires Copied(c, sh, n, a, s0, s1) && Copied(c, sh, n, s1, b0, b1)
    ensures Copied(c, sh, n, a, b0, b1)
  {
    hide Base;
  }

  /** Row t of head h, word e. */
  function Word(c: Dims, h: nat, t: nat, e: nat): nat {
    Base(h, HeadWords(c)) + (Base(t, c.dh) + e)
  }

  /** In rows: the first n of every head are the source's, the others stay as they were. */
  lemma CopiedRows(c: Dims, n: nat, src: seq<real>, was: seq<real>, now: seq<real>, h: nat, t: nat, e: nat)
    requires Copied(c, Attention, n, src, was, now) && |now| == Base(c.heads, HeadWords(c))
    requires h < c.heads && t < c.tmax && e < c.dh
    ensures Word(c, h, t, e) < |now|
    ensures now[Word(c, h, t, e)]
         == if n == 0 || n >= c.tmax || t < n then src[Word(c, h, t, e)] else was[Word(c, h, t, e)]
  {
    BaseFits(h, c.heads, HeadWords(c));
    BaseFits(t, c.tmax, c.dh);
    if t < n {
      BasesApart(t, n, c.dh);
    } else if t > n {
      BasesApart(n, t, c.dh);
    }
    hide Base, HeadWords;
    assert Base(h, HeadWords(c)) <= Word(c, h, t, e) < Base(h, HeadWords(c)) + HeadWords(c);
  }

  // ---- all layers ----

  class Device {
    const c: Dims
    const layers: seq<Shape>
    const slots: nat
    const st1: seq<array<real>>
    const st2: seq<array<real>>

    ghost predicate Valid() {
      && |st1| == |st2| == |layers|
      && (forall i :: 0 <= i < |layers| ==>
           && st1[i].Length >= Base(slots, Size1(c, layers[i]))
           && st2[i].Length >= Base(slots, Size2(c, layers[i])))
      && (forall i, j :: 0 <= i < j < |layers| ==> st1[i] != st1[j] && st2[i] != st2[j])
      && (forall i, j :: 0 <= i < |layers| && 0 <= j < |layers| ==> st1[i] != st2[j])
      && c.heads > 0
    }

    ghost predicate Fits(slot: nat, snap: array<real>) {
      && slot < slots && snap.Length == Off1(c, layers, |layers|)
      && forall i :: 0 <= i < |layers| && i < |st1| && i < |st2| ==> st1[i] != snap && st2[i] != snap
    }

    /** Slot to snapshot (qk_state_save). */
    method Save(slot: nat, snap: array<real>, n: nat)
      requires Valid() && Fits(slot, snap)
      modifies snap
      ensures forall il :: 0 <= il < |layers| ==>
        SavedLayer(c, layers, n, slot, st1[il][..], st2[il][..], old(snap[..]), snap[..], il)
    {
      hide SavedLayer, Off1;
      ghost var was := snap[..];
      for il := 0 to |layers|
        invariant forall j :: 0 <= j < il ==> SavedLayer(c, layers, n, slot, st1[j][..], st2[j][..], was, snap[..], j)
        invariant forall j :: il <= j < |layers| ==> SameRegions(c, layers, was, snap[..], j)
      {
        ghost var mid := snap[..];
        SaveLayer(slot, snap, n, il);
        forall j | 0 <= j < |layers|
          ensures j <= il ==> SavedLayer(c, layers, n, slot, st1[j][..], st2[j][..], was, snap[..], j)
          ensures j > il ==> SameRegions(c, layers, was, snap[..], j)
        {
          if j == il {
            SavedOver(c, layers, n, slot, st1[j][..], st2[j][..], was, mid, snap[..], j);
          } else {
            OtherRegions(c, layers, mid, snap[..], il, j);
            assert j > il ==> SameRegions(c, layers, was, mid, j);
            if j < il {
              SavedStays(c, layers, n, slot, st1[j][..], st2[j][..], was, mid, snap[..], j);
            }
          }
        }
      }
    }

    /** Layer `il` alone: its two regions are written, everything else stays. */
    method SaveLayer(slot: nat, snap: array<real>, n: nat, il: nat)
      requires Valid() && Fits(slot, snap) && il < |layers|
      modifies snap
      ensures SavedLayer(c, layers, n, slot, st1[il][..], st2[il][..], old(snap[..]), snap[..], il)
      ensures Elsewhere(c, layers, old(snap[..]), snap[..], il)
    {
      hide Copied, Base, Others, HeadWords;
      RegionsApart(c, layers, il, |layers|);
      var s1, s2 := Size1(c, layers[il]), Size2(c, layers[il]);
      var o1, o2 := Off1(c, layers, il), Off2(c, layers, il);
      BaseFits(slot, slots, s1);
      BaseFits(slot, slots, s2);
      CopyStripe(c, layers[il], n, snap, o1, st1[il], Base(slot, s1), s1);
      ghost var mid := snap[..];
      CopyStripe(c, layers[il], n, snap, o2, st2[il], Base(slot, s2), s2);
      SameSlices(snap, mid, old(snap[..]), o1, o2, o2 + s2);
      BufferSlice(st1[il], Base(slot, s1), s1);
      BufferSlice(st2[il], Base(slot, s2), s2);
      SavedTwice(c, layers, n, slot, st1[il][..], st2[il][..], old(snap[..]), mid, snap[..], il);
    }

    /** Snapshot to slot (qk_state_load). */
    method Load(slot: nat, snap: array<real>, n: nat)
      requires Valid() && Fits(slot, snap)
      modifies st1, st2
      ensures forall il :: 0 <= il < |layers| ==>
        LoadedLayer(c, layers, n, slot, slots, snap[..],
                    old(st1[il][..]), old(st2[il][..]), st1[il][..], st2[il][..], il)
    {
      hide LoadedLayer, Off1;
      for il := 0 to |layers|
        invariant forall j :: 0 <= j < il ==>
          LoadedLayer(c, layers, n, slot, slots, snap[..],
                      old(st1[j][..]), old(st2[j][..]), st1[j][..], st2[j][..], j)
        invariant forall j :: il <= j < |layers| ==> st1[j][..] == old(st1[j][..]) && st2[j][..] == old(st2[j][..])
      {
        LoadLayer(slot, snap, n, il);
      }
    }

    /** Layer `il` alone: only the slot's two stripes are written. */
    method LoadLayer(slot: nat, snap: array<real>, n: nat, il: nat)
      requires Valid() && Fits(slot, snap) && il < |layers|
      modifies st1[il], st2[il]
      ensures LoadedLayer(c, layers, n, slot, slots, snap[..],
                          old(st1[il][..]), old(st2[il][..]), st1[il][..], st2[il][..], il)
    {
      hide Copied, Base, Others, HeadWords;
      RegionsApart(c, layers, il, |layers|);
      var s1, s2 := Size1(c, layers[il]), Size2(c, layers[il]);
      var o1, o2 := Off1(c, layers, il), Off2(c, layers, il);
      BaseFits(slot, slots, s1);
      BaseFits(slot, slots, s2);
      assert snap[o1..o1 + s1] == snap[..][o1..o2] && snap[o2..o2 + s2] == snap[..][o2..o2 + s2];
      CopyStripe(c, layers[il], n, st1[il], Base(slot, s1), snap, o1, s1);
      CopyStripe(c, layers[il], n, st2[il], Base(slot, s2), snap, o2, s2);
      OthersKept(old(st1[il][..]), st1[il][..], slot, slots, s1);
      OthersKept(old(st2[il][..]), st2[il][..], slot, slots, s2);
      assert st1[il][..][Base(slot, s1)..Base(slot, s1) + s1] == st1[il][Base(slot, s1)..Base(slot, s1) + s1];
      assert st2[il][..][Base(slot, s2)..Base(slot, s2) + s2] == st2[il][Base(slot, s2)..Base(slot, s2) + s2];
    }
  }

  lemma BufferSlice(buf: array<real>, at: nat, size: nat)
    requires at + size <= buf.Length
    ensures buf[..][at..at + size] == buf[at..at + size]
  {
  }

  lemma SameSlices(snap: array<real>, mid: seq<real>, was: seq<real>, o1: nat, o2: nat, end: nat)
    requires o1 <= o2 <= end <= snap.Length == |mid| == |was|
    ensures snap[..][..o2] == snap[..o2] && snap[..][o2..end] == snap[o2..end] && snap[..][end..] == snap[end..]
  {
  }

  /** One part after the other: the second copy leaves the first region alone. */
  lemma SavedTwice(c: Dims, layers: seq<Shape>, n: nat, slot: nat, buf1: seq<real>, buf2: seq<real>,
                   was: seq<real>, mid: seq<real>, now: seq<real>, il: nat)
    requires il < |layers| && |was| == |mid| == |now| == Off1(c, layers, |layers|)
    requires HasStripe(buf1, slot, Size1(c, layers[il])) && HasStripe(buf2, slot, Size2(c, layers[il]))
    requires Off2(c, layers, il) + Size2(c, layers[il]) <= |now|
    requires var o1, o2 := Off1(c, layers, il), Off2(c, layers, il);
      && Copied(c, layers[il], n, Stripe(buf1, slot, Size1(c, layers[il])), was[o1..o2], mid[o1..o2])
      && mid[..o1] == was[..o1] && mid[o2..] == was[o2..]
    requires var o2 := Off2(c, layers, il);
      var end := o2 + Size2(c, layers[il]);
      && Copied(c, layers[il], n, Stripe(buf2, slot, Size2(c, layers[il])), mid[o2..end], now[o2..end])
      && now[..o2] == mid[..o2] && now[end..] == mid[end..]
    ensures SavedLayer(c, layers, n, slot, buf1, buf2, was, now, il) && Elsewhere(c, layers, was, now, il)
  {
    hide Copied, Stripe, HasStripe, Size1, Size2;
    var o1, o2 := Off1(c, layers, il), Off2(c, layers, il);
    var end := o2 + Size2(c, layers[il]);
    Slices(mid, was, o2, o2, end);
    assert now[o1..o2] == now[..o2][o1..] == mid[..o2][o1..] == mid[o1..o2];
    forall i | 0 <= i < |now| && !(o1 <= i < end) ensures now[i] == was[i] {
      if i < o1 {
        assert now[i] == now[..o2][i] && mid[i] == mid[..o1][i] == was[..o1][i];
      } else {
        assert now[i] == now[end..][i - end] && mid[i] == mid[o2..][i - o2] == was[o2..][i - o2];
      }
    }
  }

  lemma Slices(a: seq<real>, b: seq<real>, from: nat, lo: nat, hi: nat)
    requires from <= lo <= hi <= |a| == |b| && a[from..] == b[from..]
    ensures a[lo..hi] == b[lo..hi]
  {
    forall k | lo <= k < hi ensures a[k] == b[k] {
      assert a[k] == a[from..][k - from] && b[k] == b[from..][k - from];
    }
  }

  /** A slot's stripe in a buffer. */
  function Stripe(buf: seq<real>, slot: nat, size: nat): (r: seq<real>)
    requires Base(slot, size) + size <= |buf|
    ensures |r| == size
  {
    buf[Base(slot, size)..Base(slot, size) + size]
  }

  predicate HasStripe(buf: seq<real>, slot: nat, size: nat) {
    Base(slot, size) + size <= |buf|
  }

  function Region1(c: Dims, layers: seq<Shape>, snap: seq<real>, il: nat): (r: seq<real>)
    requires il < |layers| && |snap| == Off1(c, layers, |layers|)
    ensures |r| == Size1(c, layers[il])
  {
    RegionsApart(c, layers, il, |layers|);
    snap[Off1(c, layers, il)..Off2(c, layers, il)]
  }

  function Region2(c: Dims, layers: seq<Shape>, snap: seq<real>, il: nat): (r: seq<real>)
    requires il < |layers| && |snap| == Off1(c, layers, |layers|)
    ensures |r| == Size2(c, layers[il])
  {
    RegionsApart(c, layers, il, |layers|);
    snap[Off2(c, layers, il)..Off2(c, layers, il) + Size2(c, layers[il])]
  }

  /** Layer `il` of the snapshot, copied from the slot's stripes over what was there. */
  predicate SavedLayer(c: Dims, layers: seq<Shape>, n: nat, slot: nat, buf1: seq<real>, buf2: seq<real>,
                       was: seq<real>, now: seq<real>, il: nat) {
    && il < |layers| && |was| == |now| == Off1(c, layers, |layers|)
    && HasStripe(buf1, slot, Size1(c, layers[il])) && HasStripe(buf2, slot, Size2(c, layers[il]))
    && Copied(c, layers[il], n, Stripe(buf1, slot, Size1(c, layers[il])),
              Region1(c, layers, was, il), Region1(c, layers, now, il))
    && Copied(c, layers[il], n, Stripe(buf2, slot, Size2(c, layers[il])),
              Region2(c, layers, was, il), Region2(c, layers, now, il))
  }

  /** Layer `il` of the slot, copied from the snapshot; the other slots as before. */
  predicate LoadedLayer(c: Dims, layers: seq<Shape>, n: nat, slot: nat, slots: nat, snap: seq<real>,
                        was1: seq<real>, was2: seq<real>, now1: seq<real>, now2: seq<real>, il: nat) {
    && il < |layers| && |snap| == Off1(c, layers, |layers|) && |was1| == |now1| && |was2| == |now2|
    && HasStripe(now1, slot, Size1(c, layers[il])) && HasStripe(now2, slot, Size2(c, layers[il]))
    && Copied(c, layers[il], n, Region1(c, layers, snap, il),
              Stripe(was1, slot, Size1(c, layers[il])), Stripe(now1, slot, Size1(c, layers[il])))
    && Copied(c, layers[il], n, Region2(c, layers, snap, il),
              Stripe(was2, slot, Size2(c, layers[il])), Stripe(now2, slot, Size2(c, layers[il])))
    && Others(was1, now1, slot, slots, Size1(c, layers[il])) && Others(was2, now2, slot, slots, Size2(c, layers[il]))
  }

  predicate Others(was: seq<real>, now: seq<real>, slot: nat, slots: nat, size: nat) {
    forall other: nat :: other < slots && other != slot ==>
      HasStripe(was, other, size) && HasStripe(now, other, size) && Stripe(now, other, size) == Stripe(was, other, size)
  }

  predicate SameRegions(c: Dims, layers: seq<Shape>, was: seq<real>, now: seq<real>, j: nat) {
    && j < |layers| && |was| == |now| == Off1(c, layers, |layers|)
    && Region1(c, layers, now, j) == Region1(c, layers, was, j)
    && Region2(c, layers, now, j) == Region2(c, layers, was, j)
  }

  /** Words outside layer `il` are untouched. */
  predicate Elsewhere(c: Dims, layers: seq<Shape>, was: seq<real>, now: seq<real>, il: nat) {
    && il < |layers| && |was| == |now|
    && forall i :: 0 <= i < |now| && !(Off1(c, layers, il) <= i < Off1(c, layers, il + 1)) ==> now[i] == was[i]
  }

  lemma OtherRegions(c: Dims, layers: seq<Shape>, was: seq<real>, now: seq<real>, il: nat, j: nat)
    requires j < |layers| && j != il && |was| == Off1(c, layers, |layers|) && Elsewhere(c, layers, was, now, il)
    ensures SameRegions(c, layers, was, now, j)
  {
    RegionsApart(c, layers, j, |layers|);
    if j < il {
      RegionsApart(c, layers, j, il);
    } else {
      NextRegion(c, layers, il, j);
    }
  }

  lemma SavedOver(c: Dims, layers: seq<Shape>, n: nat, slot: nat, buf1: seq<real>, buf2: seq<real>,
                  was: seq<real>, mid: seq<real>, now: seq<real>, il: nat)
    requires SameRegions(c, layers, was, mid, il) && SavedLayer(c, layers, n, slot, buf1, buf2, mid, now, il)
    ensures SavedLayer(c, layers, n, slot, buf1, buf2, was, now, il)
  {
    hide Copied;
  }

  lemma SavedStays(c: Dims, layers: seq<Shape>, n: nat, slot: nat, buf1: seq<real>, buf2: seq<real>,
                   was: seq<real>, mid: seq<real>, now: seq<real>, il: nat)
    requires SavedLayer(c, layers, n, slot, buf1, buf2, was, mid, il) && SameRegions(c, layers, mid, now, il)
    ensures SavedLayer(c, layers, n, slot, buf1, buf2, was, now, il)
  {
    hide Copied;
  }

  /** Save slot a, load into slot b with the same token count, whatever b's device held in between:
      b has a's recurrent state and a's first n rows of every head, and nothing else of b or the others moved. */
  lemma SaveThenLoad(c: Dims, layers: seq<Shape>, n: nat, a: nat, b: nat, slots: nat,
                     from1: seq<real>, from2: seq<real>, snap0: seq<real>, snap: seq<real>,
                     was1: seq<real>, was2: seq<real>, now1: seq<real>, now2: seq<real>, il: nat)
    requires SavedLayer(c, layers, n, a, from1, from2, snap0, snap, il)
    requires LoadedLayer(c, layers, n, b, slots, snap, was1, was2, now1, now2, il)
    ensures Copied(c, layers[il], n, Stripe(from1, a, Size1(c, layers[il])),
                   Stripe(was1, b, Size1(c, layers[il])), Stripe(now1, b, Size1(c, layers[il])))
    ensures Copied(c, layers[il], n, Stripe(from2, a, Size2(c, layers[il])),
                   Stripe(was2, b, Size2(c, layers[il])), Stripe(now2, b, Size2(c, layers[il])))
    ensures Others(was1, now1, b, slots, Size1(c, layers[il])) && Others(was2, now2, b, slots, Size2(c, layers[il]))
  {
    hide Copied;
    CopiedTwice(c, layers[il], n, Stripe(from1, a, Size1(c, layers[il])), Region1(c, layers, snap0, il),
                Region1(c, layers, snap, il), Stripe(was1, b, Size1(c, layers[il])),
                Stripe(now1, b, Size1(c, layers[il])));
    CopiedTwice(c, layers[il], n, Stripe(from2, a, Size2(c, layers[il])), Region2(c, layers, snap0, il),
                Region2(c, layers, snap, il), Stripe(was2, b, Size2(c, layers[il])),
                Stripe(now2, b, Size2(c, layers[il])));
  }

  lemma NextRegion(c: Dims, layers: seq<Shape>, il: nat, j: nat)
    requires il < j < |layers|
    ensures Off1(c, layers, il + 1) <= Off1(c, layers, j)
  {
    RegionsApart(c, layers, il, j);
  }

  lemma OthersKept(was: seq<real>, now: seq<real>, slot: nat, slots: nat, size: nat)
    requires slot < slots && |was| == |now| >= Base(slots, size) && Base(slot, size) + size <= |now|
    requires now[..Base(slot, size)] == was[..Base(slot, size)]
    requires now[Base(slot, size) + size..] == was[Base(slot, size) + size..]
    ensures Others(was, now, slot, slots, size)
  {
    hide Base;
    forall other: nat | other < slots && other != slot
      ensures HasStripe(was, other, size) && HasStripe(now, other, size)
      ensures Stripe(now, other, size) == Stripe(was, other, size)
    {
      BaseFits(other, slots, size);
      if other < slot {
        BasesApart(other, slot, size);
      } else {
        BasesApart(slot, other, size);
      }
      var b, e := Base(other, size), Base(slot, size) + size;
      forall k | b <= k < b + size ensures now[k] == was[k] {
        if other < slot {
          assert now[k] == now[..Base(slot, size)][k];
        } else {
          assert now[k] == now[e..][k - e] && was[k] == was[e..][k - e];
        }
      }
    }
  }
}
