/** Dirty bitmaps of a qemu node, the five-step capture `Volume.snapshot` performs on them while the
    guest keeps writing, and what deactivate and activate do to the tracking bitmap. */
module Tracking {
  import ZfsPool

  type Uuid = ZfsPool.Uuid
  type Content = ZfsPool.Content

  /** A guest write. */
  datatype Write = Write(offset: nat, data: Content)

  /** `cbt-active`, `cbt-snap-<uuid>`, and whatever else a consumer may have created. */
  datatype Name = Active | Frozen(id: Uuid) | Scratch(number: nat)

  /** `dirty` holds the numbers of the dirty blocks. */
  datatype Bitmap = Bitmap(granularity: nat, recording: bool, dirty: set<nat>)

  type Bitmaps = map<Name, Bitmap>

  // ----- writes -----

  ghost predicate Wrote(ws: seq<Write>, x: nat) {
    exists i :: 0 <= i < |ws| && InWrite(ws[i], x)
  }

  predicate InWrite(w: Write, x: nat) {
    w.offset <= x < w.offset + |w.data|
  }

  function WriteBlocks(w: Write, g: nat): set<nat>
    requires g > 0
  {
    set x | w.offset <= x < w.offset + |w.data| :: x / g
  }

  function BlocksOf(ws: seq<Write>, g: nat): set<nat>
    requires g > 0
  {
    if ws == [] then {} else BlocksOf(ws[..|ws| - 1], g) + WriteBlocks(ws[|ws| - 1], g)
  }

  predicate Fits(ws: seq<Write>, size: nat) {
    forall i :: 0 <= i < |ws| ==> ws[i].offset + |ws[i].data| <= size
  }

  function Patched(c: Content, w: Write): Content
    requires w.offset + |w.data| <= |c|
  {
    c[..w.offset] + w.data + c[w.offset + |w.data|..]
  }

  function Written(c: Content, ws: seq<Write>): (r: Content)
    requires Fits(ws, |c|)
    ensures |r| == |c|
  {
    if ws == [] then c else Patched(Written(c, ws[..|ws| - 1]), ws[|ws| - 1])
  }

  lemma {:induction false} BlocksOfConcat(a: seq<Write>, b: seq<Write>, g: nat)
    requires g > 0
    ensures BlocksOf(a + b, g) == BlocksOf(a, g) + BlocksOf(b, g)
    decreases b
  {
    if b == [] {
      assert a + b == a;
    } else {
      assert (a + b)[..|a + b| - 1] == a + b[..|b| - 1];
      BlocksOfConcat(a, b[..|b| - 1], g);
    }
  }

  lemma {:induction false} WrittenConcat(c: Content, a: seq<Write>, b: seq<Write>)
    requires Fits(a, |c|) && Fits(b, |c|)
    ensures Fits(a + b, |c|) && Written(c, a + b) == Written(Written(c, a), b)
    decreases b
  {
    if b == [] {
      assert a + b == a;
    } else {
      assert (a + b)[..|a + b| - 1] == a + b[..|b| - 1];
      WrittenConcat(c, a, b[..|b| - 1]);
    }
  }

  lemma {:induction false} WrittenByteHasBlock(ws: seq<Write>, g: nat, x: nat)
    requires g > 0 && Wrote(ws, x)
    ensures x / g in BlocksOf(ws, g)
    decreases ws
  {
    var i :| 0 <= i < |ws| && InWrite(ws[i], x);
    if i < |ws| - 1 {
      assert InWrite(ws[..|ws| - 1][i], x);
      WrittenByteHasBlock(ws[..|ws| - 1], g, x);
    }
  }

  lemma {:induction false} BlockHasWrittenByte(ws: seq<Write>, g: nat, b: nat) returns (x: nat)
    requires g > 0 && b in BlocksOf(ws, g)
    ensures Wrote(ws, x) && x / g == b
    decreases ws
  {
    var last := ws[|ws| - 1];
    if b in WriteBlocks(last, g) {
      x :| last.offset <= x < last.offset + |last.data| && x / g == b;
      assert InWrite(ws[|ws| - 1], x);
    } else {
      x := BlockHasWrittenByte(ws[..|ws| - 1], g, b);
      var i :| 0 <= i < |ws| - 1 && InWrite(ws[..|ws| - 1][i], x);
      assert InWrite(ws[i], x);
    }
  }

  /** A byte no write touched still has its value. */
  lemma {:induction false} UnwrittenByteStays(c: Content, ws: seq<Write>, x: nat)
    requires Fits(ws, |c|) && x < |c| && !Wrote(ws, x)
    ensures Written(c, ws)[x] == c[x]
    decreases ws
  {
    if ws != [] {
      var most := ws[..|ws| - 1];
      assert !InWrite(ws[|ws| - 1], x);
      assert forall i :: 0 <= i < |most| ==> most[i] == ws[i];
      UnwrittenByteStays(c, most, x);
    }
  }

  // ----- when a delta is sound -----

  /** Every byte that differs lies in one of the blocks. */
  ghost predicate DeltaSound(before: Content, after: Content, blocks: set<nat>, g: nat)
    requires g > 0 && |before| == |after|
  {
    forall x :: 0 <= x < |before| && before[x] != after[x] ==> x / g in blocks
  }

  predicate SamePlaces(a: seq<Write>, b: seq<Write>) {
    |a| == |b| && forall i :: 0 <= i < |a| ==> a[i].offset == b[i].offset && |a[i].data| == |b[i].data|
  }

  ghost predicate AlwaysSound(ws: seq<Write>, blocks: set<nat>, g: nat, size: nat)
    requires g > 0 && Fits(ws, size)
  {
    forall c: Content, vs: seq<Write> :: |c| == size && SamePlaces(vs, ws) && Fits(vs, size) ==>
        DeltaSound(c, Written(c, vs), blocks, g)
  }

  lemma CoveredIsSound(c: Content, ws: seq<Write>, blocks: set<nat>, g: nat)
    requires g > 0 && Fits(ws, |c|) && BlocksOf(ws, g) <= blocks
    ensures DeltaSound(c, Written(c, ws), blocks, g)
  {
    forall x | 0 <= x < |c| && c[x] != Written(c, ws)[x] ensures x / g in blocks {
      if !Wrote(ws, x) {
        UnwrittenByteStays(c, ws, x);
      }
      WrittenByteHasBlock(ws, g, x);
    }
  }

  function Ones(n: nat): (r: Content)
    ensures |r| == n && forall i :: 0 <= i < n ==> r[i] == 1
  {
    seq(n, _ => 1)
  }

  function AllOnes(ws: seq<Write>): (r: seq<Write>)
    ensures SamePlaces(r, ws) && forall i :: 0 <= i < |r| ==> r[i].data == Ones(|ws[i].data|)
  {
    seq(|ws|, i requires 0 <= i < |ws| => Write(ws[i].offset, Ones(|ws[i].data|)))
  }

  lemma {:induction false} OnesShow(c: Content, ws: seq<Write>, x: nat)
    requires Fits(ws, |c|) && x < |c| && (forall i :: 0 <= i < |ws| ==> ws[i].data == Ones(|ws[i].data|))
    requires Wrote(ws, x)
    ensures Written(c, ws)[x] == 1
    decreases ws
  {
    var last := ws[|ws| - 1];
    assert last.data == Ones(|last.data|);
    if !InWrite(last, x) {
      var i :| 0 <= i < |ws| && InWrite(ws[i], x);
      assert InWrite(ws[..|ws| - 1][i], x);
      OnesShow(c, ws[..|ws| - 1], x);
    }
  }

  /** The delta between two contents is sound whatever the guest wrote, and whatever was there before,
      exactly if the blocks include every block written in between. */
  lemma DeltaSoundIff(ws: seq<Write>, blocks: set<nat>, g: nat, size: nat)
    requires g > 0 && Fits(ws, size)
    ensures AlwaysSound(ws, blocks, g, size) <==> BlocksOf(ws, g) <= blocks
  {
    if BlocksOf(ws, g) <= blocks {
      forall c: Content, vs: seq<Write> | |c| == size && SamePlaces(vs, ws) && Fits(vs, size)
        ensures DeltaSound(c, Written(c, vs), blocks, g)
      {
        SamePlacesSameBlocks(vs, ws, g);
        CoveredIsSound(c, vs, blocks, g);
      }
    }
    if AlwaysSound(ws, blocks, g, size) {
      var c, vs := ZfsPool.Zeros(size), AllOnes(ws);
      assert Fits(vs, size);
      assert DeltaSound(c, Written(c, vs), blocks, g);
      forall b | b in BlocksOf(ws, g) ensures b in blocks {
        SamePlacesSameBlocks(vs, ws, g);
        var x := BlockHasWrittenByte(vs, g, b);
        OnesShow(c, vs, x);
      }
    }
  }

  lemma {:induction false} SamePlacesSameBlocks(a: seq<Write>, b: seq<Write>, g: nat)
    requires g > 0 && SamePlaces(a, b)
    ensures BlocksOf(a, g) == BlocksOf(b, g)
    decreases a
  {
    if a != [] {
      SamePlacesSameBlocks(a[..|a| - 1], b[..|b| - 1], g);
      assert WriteBlocks(a[|a| - 1], g) == WriteBlocks(b[|b| - 1], g);
    }
  }

  // ----- bitmaps -----

  /** The bitmaps the driver tracks changes with. */
  predicate Tracks(n: Name) {
    n == Active || n.Frozen?
  }

  function Hear(b: Bitmap, ws: seq<Write>): Bitmap {
    if b.recording && b.granularity > 0 then b.(dirty := b.dirty + BlocksOf(ws, b.granularity)) else b
  }

  function Recorded(bs: Bitmaps, ws: seq<Write>): Bitmaps {
    map n | n in bs :: Hear(bs[n], ws)
  }

  ghost predicate Uniform(bs: Bitmaps, g: nat) {
    forall n :: n in bs && Tracks(n) ==> bs[n].granularity == g
  }

  /** Some driver-owned bitmap has the block dirty. */
  ghost predicate Marked(bs: Bitmaps, b: nat) {
    exists n :: n in bs && Tracks(n) && b in bs[n].dirty
  }

  ghost predicate SomeRecording(bs: Bitmaps) {
    exists n :: n in bs && Tracks(n) && bs[n].recording
  }

  /** All frozen bitmaps and `cbt-active` together: exactly the blocks of the writes in `heard`. */
  ghost predicate Conserved(bs: Bitmaps, g: nat, heard: seq<Write>) {
    && g > 0 && Uniform(bs, g)
    && (forall b :: Marked(bs, b) <==> b in BlocksOf(heard, g))
  }

  lemma RecordedTwice(bs: Bitmaps, a: seq<Write>, b: seq<Write>)
    ensures Recorded(Recorded(bs, a), b) == Recorded(bs, a + b)
  {
    forall n | n in bs ensures Hear(Hear(bs[n], a), b) == Hear(bs[n], a + b) {
      if bs[n].granularity > 0 {
        BlocksOfConcat(a, b, bs[n].granularity);
      }
    }
  }

  lemma HearingConserves(bs: Bitmaps, g: nat, heard: seq<Write>, ws: seq<Write>)
    requires Conserved(bs, g, heard)
    ensures Conserved(Recorded(bs, ws), g, if SomeRecording(bs) then heard + ws else heard)
  {
    BlocksOfConcat(heard, ws, g);
    var after := Recorded(bs, ws);
    forall b ensures Marked(after, b) <==> Marked(bs, b) || (SomeRecording(bs) && b in BlocksOf(ws, g)) {
      if Marked(bs, b) {
        var n :| n in bs && Tracks(n) && b in bs[n].dirty;
        assert n in after && b in after[n].dirty;
      }
      if SomeRecording(bs) && b in BlocksOf(ws, g) {
        var n :| n in bs && Tracks(n) && bs[n].recording;
        assert n in after && b in after[n].dirty;
      }
    }
  }

  lemma SwitchingConserves(bs: Bitmaps, g: nat, heard: seq<Write>, n: Name, recording: bool)
    requires Conserved(bs, g, heard) && n in bs
    ensures Conserved(bs[n := bs[n].(recording := recording)], g, heard)
  {
    var after := bs[n := bs[n].(recording := recording)];
    forall b ensures Marked(after, b) <==> Marked(bs, b) {
      if Marked(bs, b) {
        var m :| m in bs && Tracks(m) && b in bs[m].dirty;
        assert m in after && b in after[m].dirty;
      }
    }
  }

  lemma AddingConserves(bs: Bitmaps, g: nat, heard: seq<Write>, n: Name)
    requires Conserved(bs, g, heard) && n !in bs
    ensures Conserved(bs[n := Bitmap(g, true, {})], g, heard)
  {
    var after := bs[n := Bitmap(g, true, {})];
    forall b ensures Marked(after, b) <==> Marked(bs, b) {
      if Marked(bs, b) {
        var m :| m in bs && Tracks(m) && b in bs[m].dirty;
        assert m in after && b in after[m].dirty;
      }
    }
  }

  lemma MergingConserves(bs: Bitmaps, g: nat, heard: seq<Write>, target: Name, source: Name)
    requires Conserved(bs, g, heard) && target in bs && source in bs && Tracks(target) && Tracks(source)
    ensures Conserved(bs[target := bs[target].(dirty := bs[target].dirty + bs[source].dirty)], g, heard)
  {
    var after := bs[target := bs[target].(dirty := bs[target].dirty + bs[source].dirty)];
    forall b ensures Marked(after, b) <==> Marked(bs, b) {
      if Marked(bs, b) {
        var m :| m in bs && Tracks(m) && b in bs[m].dirty;
        assert m in after && b in after[m].dirty;
      }
    }
  }

  /** Clearing loses nothing as long as another driver-owned bitmap has every one of the bits; otherwise
      it does lose some. */
  lemma ClearingConservesIff(bs: Bitmaps, g: nat, heard: seq<Write>, n: Name)
    requires Conserved(bs, g, heard) && n in bs && Tracks(n)
    ensures var after := bs[n := bs[n].(dirty := {})];
            Conserved(after, g, heard) <==> forall b :: b in bs[n].dirty ==> Marked(after, b)
  {
    var after := bs[n := bs[n].(dirty := {})];
    forall b ensures Marked(bs, b) <==> Marked(after, b) || b in bs[n].dirty {
      if Marked(bs, b) {
        var m :| m in bs && Tracks(m) && b in bs[m].dirty;
        assert m != n ==> m in after && b in after[m].dirty;
      }
      if Marked(after, b) {
        var m :| m in after && Tracks(m) && b in after[m].dirty;
        assert m in bs && b in bs[m].dirty;
      }
    }
  }
}
