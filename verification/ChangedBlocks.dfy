/** The bit array `Volume.list_changed_blocks` returns: geometry of the rounded span, and the packing
    of dirty extents into it, most significant bit first. */
module ChangedBlocks {
  import opened Wrappers

  /** `length` bytes from `offset` on. */
  datatype Extent = Extent(offset: int, length: int)

  // ----- the rounded span -----

  function CeilDiv(a: int, g: int): int
    requires g > 0
  {
    -((-a) / g)
  }

  /** First block of the span: the requested start rounded down. */
  function FirstBlock(offset: int, g: int): int
    requires g > 0
  {
    offset / g
  }

  /** One past the last block of the span: the requested end rounded up. */
  function EndBlock(offset: int, length: int, g: int): int
    requires g > 0
  {
    CeilDiv(offset + length, g)
  }

  function NBlocks(offset: int, length: int, g: int): int
    requires g > 0
  {
    EndBlock(offset, length, g) - FirstBlock(offset, g)
  }

  // ----- bits -----

  function Mask(i: nat): bv8
    requires i < 8
  {
    0x80 >> i
  }

  predicate Bit(bits: seq<bv8>, b: nat)
    requires b < 8 * |bits|
  {
    bits[b / 8] & Mask(b % 8) != 0
  }

  lemma MaskTable(i: nat)
    requires i < 8
    ensures Mask(i) == (if i == 0 then 0x80 else if i == 1 then 0x40 else if i == 2 then 0x20 else if i == 3 then 0x10
                        else if i == 4 then 8 else if i == 5 then 4 else if i == 6 then 2 else 1)
  {
  }

  lemma OrSetsOne(x: bv8, i: nat, j: nat)
    requires i < 8 && j < 8
    ensures (x | Mask(i)) & Mask(j) != 0 <==> x & Mask(j) != 0 || i == j
  {
    MaskTable(i);
    MaskTable(j);
  }

  lemma BitsDetermineByte(x: bv8, y: bv8)
    requires forall i :: 0 <= i < 8 ==> (x & Mask(i) != 0 <==> y & Mask(i) != 0)
    ensures x == y
  {
    assert x & Mask(0) != 0 <==> y & Mask(0) != 0;
    assert x & Mask(1) != 0 <==> y & Mask(1) != 0;
    assert x & Mask(2) != 0 <==> y & Mask(2) != 0;
    assert x & Mask(3) != 0 <==> y & Mask(3) != 0;
    assert x & Mask(4) != 0 <==> y & Mask(4) != 0;
    assert x & Mask(5) != 0 <==> y & Mask(5) != 0;
    assert x & Mask(6) != 0 <==> y & Mask(6) != 0;
    assert x & Mask(7) != 0 <==> y & Mask(7) != 0;
  }

  // ----- which blocks are dirty -----

  predicate Covers(e: Extent, x: int) {
    e.offset <= x < e.offset + e.length
  }

  ghost predicate Dirty(extents: seq<Extent>, x: int) {
    exists e :: e in extents && Covers(e, x)
  }

  /** Block `n` of size `g` (counted from byte 0) has a byte in common with the extent. */
  predicate Touches(e: Extent, n: int, g: int) {
    Max(e.offset, n * g) < Min(e.offset + e.length, (n + 1) * g)
  }

  predicate Touched(extents: seq<Extent>, n: int, g: int) {
    exists e :: e in extents && Touches(e, n, g)
  }

  function Max(a: int, b: int): int {
    if a < b then b else a
  }

  function Min(a: int, b: int): int {
    if a < b then a else b
  }

  /** The packed form: as many bytes as the blocks of the span need, one bit a block, padding clear. */
  ghost predicate Packed(bits: seq<bv8>, extents: seq<Extent>, offset: int, length: int, g: int)
    requires g > 0
  {
    && |bits| == (NBlocks(offset, length, g) + 7) / 8
    && (forall b: nat :: b < 8 * |bits| ==>
          (Bit(bits, b) <==> b < NBlocks(offset, length, g) && Touched(extents, FirstBlock(offset, g) + b, g)))
  }

  // ----- arithmetic -----

  lemma Quotient(x: int, g: int, b: int)
    requires g > 0
    ensures x / g <= b <==> x < (b + 1) * g
    ensures b <= x / g <==> b * g <= x
  {
    var q := x / g;
    assert x == q * g + x % g;
    if q < b {
      assert (q + 1) * g <= b * g;
    } else if q == b {
      assert b * g == q * g && (b + 1) * g == q * g + g;
    } else {
      assert (b + 1) * g <= q * g && b * g <= q * g;
    }
  }

  lemma Cancel(n: int, g: int)
    requires g > 0
    ensures n * g / g == n
  {
    Quotient(n * g, g, n);
  }

  /** The span contains the requested bytes and nothing a whole block away from them. */
  lemma SpanIsRoundedOutward(offset: int, length: int, g: int)
    requires g > 0
    ensures FirstBlock(offset, g) * g <= offset < (FirstBlock(offset, g) + 1) * g
    ensures (EndBlock(offset, length, g) - 1) * g < offset + length <= EndBlock(offset, length, g) * g
  {
    Quotient(offset, g, FirstBlock(offset, g));
    var end, q := offset + length, (-(offset + length)) / g;
    Quotient(-end, g, q);
    assert (q + 1) * g == q * g + g && (-q - 1) * g == -(q * g) - g && (-q) * g == -(q * g);
  }

  lemma BlockInSpan(lo: int, hi: int, g: int, b: int)
    requires g > 0 && 0 <= b < hi - lo
    ensures (lo + b) * g == lo * g + b * g && (lo + b + 1) * g == lo * g + (b + 1) * g
    ensures lo * g <= (lo + b) * g < (lo + b + 1) * g <= hi * g
  {
    assert (lo + b + 1) * g == (lo + b) * g + g;
    assert lo * g <= (lo + b) * g;
    assert (lo + b + 1) * g <= hi * g;
  }

  /** Clipping to a span does not change which of its blocks, here the bytes from `from` to `to`, an
      extent overlaps. */
  lemma ClippingKeepsOverlap(start: int, end: int, spanStart: int, spanEnd: int, from: int, to: int)
    requires spanStart <= from < to <= spanEnd
    ensures Max(start, from) < Min(end, to) <==>
              && Max(start, spanStart) < Min(end, spanEnd)
              && Max(start, spanStart) < to && from < Min(end, spanEnd)
  {
  }

  /** The block indices an extent, clipped to the span, touches are those from its first byte's block to
      its last byte's block. `lo` and `hi` are the first and the end block of the span. */
  lemma ClippedRange(e: Extent, lo: int, hi: int, g: int, b: int, clipStart: int, clipEnd: int)
    requires g > 0 && 0 <= b < hi - lo
    requires clipStart == Max(e.offset, lo * g) && clipEnd == Min(e.offset + e.length, hi * g)
    ensures Touches(e, lo + b, g) <==>
              clipStart < clipEnd && (clipStart - lo * g) / g <= b <= (clipEnd - 1 - lo * g) / g
  {
    BlockInSpan(lo, hi, g, b);
    ClippingKeepsOverlap(e.offset, e.offset + e.length, lo * g, hi * g, (lo + b) * g, (lo + b + 1) * g);
    Quotient(clipStart - lo * g, g, b);
    Quotient(clipEnd - 1 - lo * g, g, b);
  }

  predicate TouchesFrom(e: Extent, lo: int, b: int, g: int) {
    Touches(e, lo + b, g)
  }

  lemma ClippedIndices(e: Extent, lo: int, hi: int, g: int)
    requires g > 0
    ensures var clipStart, clipEnd := Max(e.offset, lo * g), Min(e.offset + e.length, hi * g);
            && (clipStart < clipEnd ==> 0 <= (clipStart - lo * g) / g && (clipEnd - 1 - lo * g) / g < hi - lo)
            && (forall b :: 0 <= b < hi - lo ==> (TouchesFrom(e, lo, b, g) <==>
                  clipStart < clipEnd && (clipStart - lo * g) / g <= b <= (clipEnd - 1 - lo * g) / g))
  {
    var clipStart, clipEnd := Max(e.offset, lo * g), Min(e.offset + e.length, hi * g);
    Quotient(clipStart - lo * g, g, 0);
    Quotient(clipEnd - 1 - lo * g, g, hi - lo - 1);
    assert (hi - lo) * g == hi * g - lo * g;
    forall b | 0 <= b < hi - lo
      ensures TouchesFrom(e, lo, b, g) <==>
          clipStart < clipEnd && (clipStart - lo * g) / g <= b <= (clipEnd - 1 - lo * g) / g
    {
      ClippedRange(e, lo, hi, g, b, clipStart, clipEnd);
    }
  }

  // ----- packing -----

  /** `_pack_extents_to_bitmap`. A span shorter than minus one byte makes `bytearray` raise. */
  method PackExtents(extents: seq<Extent>, offset: int, length: int, g: int) returns (r: Result<seq<bv8>, ()>)
    requires g > 0
    ensures r.Err? <==> (NBlocks(offset, length, g) + 7) / 8 < 0
    ensures r.Ok? ==> Packed(r.value, extents, offset, length, g)
  {
    ghost var lo, hi := FirstBlock(offset, g), EndBlock(offset, length, g);
    var alignedStart := offset / g * g;
    var alignedEnd := CeilDiv(offset + length, g) * g;
    assert alignedEnd - alignedStart == (hi - lo) * g;
    Cancel(hi - lo, g);
    var nblocks := (alignedEnd - alignedStart) / g;
    if (nblocks + 7) / 8 < 0 {
      return Err(());
    }
    var bits := new bv8[(nblocks + 7) / 8](_ => 0);
    var i := 0;
    while i < |extents|
      invariant 0 <= i <= |extents|
      invariant PackedSoFar(bits[..], extents[..i], lo, nblocks, g)
    {
      assert extents[..i + 1] == extents[..i] + [extents[i]];
      PackOne(bits, extents[i], alignedStart, alignedEnd, g, lo, hi);
      i := i + 1;
    }
    assert extents[..|extents|] == extents;
    r := Ok(bits[..]);
  }

  ghost predicate PackedSoFar(bits: seq<bv8>, extents: seq<Extent>, lo: int, nblocks: int, g: int) {
    forall b: nat :: b < 8 * |bits| ==> (Bit(bits, b) <==> b < nblocks && Touched(extents, lo + b, g))
  }

  /** One turn of the packing loop: clip the extent to the span, set the bits of the blocks it touches. */
  method PackOne(bits: array<bv8>, e: Extent, alignedStart: int, alignedEnd: int, g: int, ghost lo: int, ghost hi: int)
    requires g > 0 && alignedStart == lo * g && alignedEnd == hi * g && bits.Length == (hi - lo + 7) / 8
    modifies bits
    ensures forall b: nat :: b < 8 * bits.Length ==>
              (Bit(bits[..], b) <==> old(Bit(bits[..], b)) || (b < hi - lo && TouchesFrom(e, lo, b, g)))
  {
    var clipStart := Max(e.offset, alignedStart);
    var clipEnd := Min(e.offset + e.length, alignedEnd);
    ClippedIndices(e, lo, hi, g);
    if clipStart < clipEnd {
      SetBits(bits, (clipStart - alignedStart) / g, (clipEnd - 1 - alignedStart) / g);
    }
  }

  /** Sets a run of bits, one after the other, each by its mask in its byte. */
  method SetBits(bits: array<bv8>, first: int, last: int)
    requires 0 <= first && last < 8 * bits.Length
    modifies bits
    ensures forall b: nat :: b < 8 * bits.Length ==> (Bit(bits[..], b) <==> old(Bit(bits[..], b)) || first <= b <= last)
  {
    var b := first;
    while b <= last
      invariant first <= b && (first <= last ==> b <= last + 1)
      invariant forall c: nat :: c < 8 * bits.Length ==>
                  (Bit(bits[..], c) <==> old(Bit(bits[..], c)) || (first <= c < b && c <= last))
    {
      ghost var before := bits[..];
      bits[b / 8] := bits[b / 8] | Mask(b % 8);
      forall c: nat | c < 8 * bits.Length ensures Bit(bits[..], c) <==> Bit(before, c) || c == b {
        if c / 8 == b / 8 {
          OrSetsOne(before[b / 8], b % 8, c % 8);
        }
      }
      b := b + 1;
    }
  }

  // ----- what the packed form means -----

  /** A block is touched exactly if one of its bytes is dirty. */
  lemma TouchedIffByteDirty(extents: seq<Extent>, n: int, g: int)
    requires g > 0
    ensures Touched(extents, n, g) <==> exists x :: n * g <= x < (n + 1) * g && Dirty(extents, x)
  {
    if Touched(extents, n, g) {
      var e :| e in extents && Touches(e, n, g);
      var x := Max(e.offset, n * g);
      assert Covers(e, x);
      assert n * g <= x < (n + 1) * g && Dirty(extents, x);
    }
    if x :| n * g <= x < (n + 1) * g && Dirty(extents, x) {
      var e :| e in extents && Covers(e, x);
      assert Touches(e, n, g);
    }
  }

  /** A dirty byte inside the requested range always has its bit, and the bit is where a reader of the
      packed form looks for it. */
  lemma DirtyByteHasBit(bits: seq<bv8>, extents: seq<Extent>, offset: int, length: int, g: int, x: int)
    requires g > 0 && Packed(bits, extents, offset, length, g)
    requires offset <= x < offset + length && Dirty(extents, x)
    ensures 0 <= x / g - FirstBlock(offset, g) < 8 * |bits|
    ensures Bit(bits, x / g - FirstBlock(offset, g))
  {
    var n := x / g;
    SpanIsRoundedOutward(offset, length, g);
    Quotient(x, g, n);
    Quotient(x, g, FirstBlock(offset, g));
    Quotient(x, g, EndBlock(offset, length, g) - 1);
    TouchedIffByteDirty(extents, n, g);
  }

  /** The packed form depends on the set of dirty bytes only: splitting, reordering or overlapping the
      extents changes nothing. */
  lemma PackedIsFunctionOfUnion(bits: seq<bv8>, extents: seq<Extent>, bits': seq<bv8>, extents': seq<Extent>,
                                offset: int, length: int, g: int)
    requires g > 0
    requires Packed(bits, extents, offset, length, g) && Packed(bits', extents', offset, length, g)
    requires forall x :: Dirty(extents, x) <==> Dirty(extents', x)
    ensures bits == bits'
  {
    forall i | 0 <= i < |bits| ensures bits[i] == bits'[i] {
      forall j | 0 <= j < 8 ensures bits[i] & Mask(j) != 0 <==> bits'[i] & Mask(j) != 0 {
        var b: nat := 8 * i + j;
        assert b / 8 == i && b % 8 == j;
        assert Bit(bits, b) <==> bits[i] & Mask(j) != 0;
        assert Bit(bits', b) <==> bits'[i] & Mask(j) != 0;
        TouchedIffByteDirty(extents, FirstBlock(offset, g) + b, g);
        TouchedIffByteDirty(extents', FirstBlock(offset, g) + b, g);
      }
      BitsDetermineByte(bits[i], bits'[i]);
    }
  }

  /** Two requested windows agree on every block both cover. */
  lemma WindowsAgree(bits: seq<bv8>, offset: int, length: int, bits': seq<bv8>, offset': int, length': int,
                     extents: seq<Extent>, g: int, n: int)
    requires g > 0
    requires Packed(bits, extents, offset, length, g) && Packed(bits', extents, offset', length', g)
    requires FirstBlock(offset, g) <= n < EndBlock(offset, length, g)
    requires FirstBlock(offset', g) <= n < EndBlock(offset', length', g)
    ensures n - FirstBlock(offset, g) < 8 * |bits| && n - FirstBlock(offset', g) < 8 * |bits'|
    ensures Bit(bits, n - FirstBlock(offset, g)) <==> Bit(bits', n - FirstBlock(offset', g))
  {
    var b, b' := n - FirstBlock(offset, g), n - FirstBlock(offset', g);
    assert b < 8 * |bits| && b' < 8 * |bits'|;
    assert FirstBlock(offset, g) + b == n == FirstBlock(offset', g) + b';
  }

  lemma CoarseBounds(n: int, g: int, m: int, k: int)
    requires g > 0 && m > 0 && n * m <= k < (n + 1) * m
    ensures n * (m * g) <= k * g && (k + 1) * g <= (n + 1) * (m * g)
  {
    assert n * m * g <= k * g && (k + 1) * g <= (n + 1) * m * g;
    assert n * (m * g) == n * m * g && (n + 1) * (m * g) == (n + 1) * m * g;
  }

  lemma FineBlockOf(n: int, g: int, m: int, x: int)
    requires g > 0 && m > 0 && n * (m * g) <= x < (n + 1) * (m * g)
    ensures n * m <= x / g < (n + 1) * m
    ensures x / g * g <= x < (x / g + 1) * g
  {
    assert n * (m * g) == n * m * g && (n + 1) * (m * g) == (n + 1) * m * g;
    Quotient(x, g, x / g);
    Quotient(x, g, n * m);
    Quotient(x, g, (n + 1) * m - 1);
  }

  /** Raising the granularity to a multiple only over-approximates: a coarse block is touched exactly if
      one of the finer blocks it is made of is. */
  lemma CoarseIffSomeFine(extents: seq<Extent>, n: int, g: int, m: int)
    requires g > 0 && m > 0 && m * g > 0
    ensures Touched(extents, n, m * g) <==> exists k :: n * m <= k < (n + 1) * m && Touched(extents, k, g)
  {
    if Touched(extents, n, m * g) {
      var x := DirtyByteOf(extents, n, m * g);
      FineBlockOf(n, g, m, x);
      TouchedIffByteDirty(extents, x / g, g);
    }
    if k :| n * m <= k < (n + 1) * m && Touched(extents, k, g) {
      var x := DirtyByteOf(extents, k, g);
      CoarseBounds(n, g, m, k);
      TouchedIffByteDirty(extents, n, m * g);
    }
  }

  lemma DirtyByteOf(extents: seq<Extent>, n: int, g: int) returns (x: int)
    requires g > 0 && Touched(extents, n, g)
    ensures n * g <= x < (n + 1) * g && Dirty(extents, x)
  {
    TouchedIffByteDirty(extents, n, g);
    x :| n * g <= x < (n + 1) * g && Dirty(extents, x);
  }

  // ----- list_changed_blocks -----

  type BitmapName = nat

  const DEFAULT_GRANULARITY: int := 65536

  /** One persisted bitmap: its recorded granularity, and what fetching its extents yields (None if the
      fetch raises). */
  datatype PersistedBitmap = PersistedBitmap(granularity: int, fetched: Option<seq<Extent>>)

  /** The state behind `key2`: the consumer cannot be imported, the metadata cannot be loaded, or the
      bitmaps found (none if there is no file). */
  datatype Key2State = NoConsumer | Unloadable | Bitmaps(bitmaps: map<BitmapName, PersistedBitmap>)

  /** `extract_dirty_extents_for`: a bitmap whose fetch raises is left out, the others are reported. */
  method ExtractDirtyExtents(bitmaps: map<BitmapName, PersistedBitmap>) returns (result: map<BitmapName, seq<Extent>>)
    ensures forall n :: n in result <==> n in bitmaps && bitmaps[n].fetched.Some?
    ensures forall n :: n in result ==> result[n] == bitmaps[n].fetched.value
  {
    result := map[];
    var rest := bitmaps.Keys;
    while rest != {}
      invariant rest <= bitmaps.Keys
      invariant forall n :: n in result <==> n in bitmaps && n !in rest && bitmaps[n].fetched.Some?
      invariant forall n :: n in result ==> result[n] == bitmaps[n].fetched.value
      decreases rest
    {
      var n :| n in rest;
      if bitmaps[n].fetched.Some? {
        result := result[n := bitmaps[n].fetched.value];
      }
      rest := rest - {n};
    }
  }

  /** The largest granularity recorded, or the default if none is. */
  ghost predicate Resolved(bitmaps: map<BitmapName, PersistedBitmap>, g: int) {
    && g > 0 && (forall n :: n in bitmaps ==> bitmaps[n].granularity <= g)
    && ((exists n :: n in bitmaps && bitmaps[n].granularity == g)
        || (g == DEFAULT_GRANULARITY && forall n :: n in bitmaps ==> bitmaps[n].granularity <= 0))
  }

  /** `_resolve_changed_blocks_granularity` */
  method ResolveGranularity(bitmaps: map<BitmapName, PersistedBitmap>) returns (g: int)
    ensures Resolved(bitmaps, g)
  {
    g := 0;
    var rest := bitmaps.Keys;
    while rest != {}
      invariant rest <= bitmaps.Keys && g >= 0
      invariant forall n :: n in bitmaps && n !in rest ==> bitmaps[n].granularity <= g
      invariant g > 0 ==> exists n :: n in bitmaps && bitmaps[n].granularity == g
      decreases rest
    {
      var n :| n in rest;
      if bitmaps[n].granularity > g {
        g := bitmaps[n].granularity;
      }
      rest := rest - {n};
    }
    if g == 0 {
      g := DEFAULT_GRANULARITY;
    }
  }

  /** Some bitmap that could be fetched has the byte dirty. */
  ghost predicate DirtyInSome(bitmaps: map<BitmapName, PersistedBitmap>, x: int) {
    exists n :: n in bitmaps && bitmaps[n].fetched.Some? && Dirty(bitmaps[n].fetched.value, x)
  }

  /** `list_changed_blocks`: the packed form of everything fetched for `key2`; all clear at the default
      granularity when its state cannot be read at all. */
  method ListChangedBlocks(state: Key2State, offset: int, length: nat)
    returns (g: int, bits: seq<bv8>, ghost extents: seq<Extent>)
    ensures g > 0 && Packed(bits, extents, offset, length, g)
    ensures !state.Bitmaps? ==> g == DEFAULT_GRANULARITY && extents == []
    ensures state.Bitmaps? ==> Resolved(state.bitmaps, g)
    ensures state.Bitmaps? ==> forall x :: Dirty(extents, x) <==> DirtyInSome(state.bitmaps, x)
  {
    if !state.Bitmaps? {
      g, extents := DEFAULT_GRANULARITY, [];
      var r := EmptyResult(offset, length, g);
      bits := r;
      return;
    }
    var found := ExtractDirtyExtents(state.bitmaps);
    g := ResolveGranularity(state.bitmaps);
    var all: seq<Extent> := [];
    var rest := found.Keys;
    while rest != {}
      invariant rest <= found.Keys
      invariant forall e :: e in all <==> exists n :: n in found && n !in rest && e in found[n]
      decreases rest
    {
      var n :| n in rest;
      all := all + found[n];
      rest := rest - {n};
    }
    var r := PackExtents(all, offset, length, g);
    NBlocksNotNegative(offset, length, g);
    bits, extents := r.value, all;
    forall x ensures Dirty(extents, x) <==> DirtyInSome(state.bitmaps, x) {
      if Dirty(extents, x) {
        var e :| e in extents && Covers(e, x);
        var n :| n in found && e in found[n];
        assert Dirty(state.bitmaps[n].fetched.value, x);
      }
      if DirtyInSome(state.bitmaps, x) {
        var n :| n in state.bitmaps && state.bitmaps[n].fetched.Some? && Dirty(state.bitmaps[n].fetched.value, x);
        assert n in found;
        var e :| e in found[n] && Covers(e, x);
        assert e in extents;
      }
    }
  }

  lemma NBlocksNotNegative(offset: int, length: nat, g: int)
    requires g > 0
    ensures NBlocks(offset, length, g) >= 0
  {
    SpanIsRoundedOutward(offset, length, g);
    var lo, hi := FirstBlock(offset, g), EndBlock(offset, length, g);
    assert hi < lo ==> hi * g <= (lo - 1) * g;
    assert (lo - 1) * g == lo * g - g;
  }

  /** `_empty_changed_blocks_result`: the right number of zero bytes. */
  method EmptyResult(offset: int, length: nat, g: int) returns (bits: seq<bv8>)
    requires g > 0
    ensures Packed(bits, [], offset, length, g)
  {
    NBlocksNotNegative(offset, length, g);
    bits := seq((NBlocks(offset, length, g) + 7) / 8, _ => 0);
  }
}
