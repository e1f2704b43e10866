/** What follows from the steps of a run: which reservations fit, when exactly recorded sizes stay right
    and snapshots stay below their SR, and when exactly a resize keeps every byte. */
module RunLaws {
  import opened Wrappers
  import opened ZfsPool
  import opened Promotion
  import opened Metabase
  import opened VolumeSpec
  import opened VolumeDriver
  import opened VolumeCopy
  import opened Runs

  // ----- thick provisioning -----

  /** Zvols whose reservation may not fit after the first `n` operations: those that did not fit at the
      start, and those an operation left half done, until a later resize or change of copies goes through. */
  ghost function Loose(ops: seq<Op>, outs: seq<Outcome>, seen: seq<Disk>, n: nat): set<ZvolName>
    requires n <= |ops| == |outs| && |seen| == |ops| + 1
  {
    if n == 0 then set z | z in seen[0].pool.zvols && !ThickOk(seen[0].pool.zvols[z].props)
    else
      var op, out := ops[n - 1], outs[n - 1];
      Loose(ops, outs, seen, n - 1) + Loosened(op, out, seen[n - 1].pool, seen[n].pool) - Tightened(op, out)
  }

  /** Whatever fails in a run, every other zvol is thin or has all that its copies can need reserved. */
  lemma {:induction false} ThickOverRun(copies: Inherited, ops: seq<Op>, outs: seq<Outcome>, seen: seq<Disk>, n: nat)
    requires Trace(copies, ops, outs, seen) && n <= |ops|
    ensures forall z :: z in seen[n].pool.zvols && z !in Loose(ops, outs, seen, n) ==>
              var v := seen[n].pool.zvols[z].props;
              v.refreservation == 0 || v.refreservation == v.volsize * v.copies
  {
    hide Effect, Remains, Loosened, Tightened;
    if n > 0 {
      ThickOverRun(copies, ops, outs, seen, n - 1);
      var i := n - 1;
      assert StepOk(copies, seen[i], ops[i], outs[i], seen[i + 1]);
      TightenedFit(copies, seen[i], ops[i], outs[i], seen[i + 1]);
    }
  }

  lemma TightenedFit(copies: Inherited, d: Disk, op: Op, out: Outcome, e: Disk)
    requires StepOk(copies, d, op, out, e)
    ensures forall z :: z in Tightened(op, out) && z in e.pool.zvols ==> ThickOk(e.pool.zvols[z].props)
  {
  }

  /** The operation may leave `z` with a reservation that does not fit: it is new, thick, and of a broken
      number of blocks; or ZFS stopped the operation, which may have been before the space was reserved;
      or it has arrived like that. */
  predicate LoosenedAt(op: Op, out: Outcome, p: Pool, q: Pool, z: ZvolName) {
    match op
    case Create(sr, size, thin, block, _) =>
      && !thin && block > 0 && z !in p.zvols && z in q.zvols
      && (size % block != 0 || (out.Failed? && out.cause.ZfsFailed?))
    case Resize(k, _) => z == k && out.Failed? && out.cause.ZfsFailed?
    case SetCopies(k, _) => z == k && out.Failed? && out.cause.ZfsFailed?
    case Receive(_, props) =>
      z !in p.zvols && z in q.zvols && props.refreservation > 0 && props.refreservation != props.volsize * props.copies
    case _ => false
  }

  /** No other zvol is among them. */
  lemma {:induction false} LooseMeans(ops: seq<Op>, outs: seq<Outcome>, seen: seq<Disk>, n: nat, z: ZvolName)
    requires n <= |ops| == |outs| && |seen| == |ops| + 1 && z in Loose(ops, outs, seen, n)
    ensures || (z in seen[0].pool.zvols
                && var v := seen[0].pool.zvols[z].props;
                   v.refreservation > 0 && v.refreservation != v.volsize * v.copies)
            || exists i :: 0 <= i < n && LoosenedAt(ops[i], outs[i], seen[i].pool, seen[i + 1].pool, z)
  {
    if n > 0 {
      if z in Loose(ops, outs, seen, n - 1) {
        LooseMeans(ops, outs, seen, n - 1, z);
      } else {
        assert LoosenedAt(ops[n - 1], outs[n - 1], seen[n - 1].pool, seen[n - 1 + 1].pool, z);
      }
    }
  }

  /** Asked for in whole blocks or with a reservation that fits, and not stopped by ZFS on the way. */
  predicate Tidy(op: Op, out: Outcome) {
    && !(out.Failed? && out.cause.ZfsFailed?)
    && match op
       case Create(_, size, thin, block, _) => thin || block == 0 || size % block == 0
       case Receive(_, props) => props.refreservation == 0 || props.refreservation == props.volsize * props.copies
       case _ => true
  }

  /** Without any other operation, all is thin or has exactly what its copies can need reserved, as it had
      at the start. */
  lemma {:induction false} NeverLoose(copies: Inherited, ops: seq<Op>, outs: seq<Outcome>, seen: seq<Disk>, n: nat)
    requires Trace(copies, ops, outs, seen) && n <= |ops| && AllThickOk(seen[0].pool)
    requires forall i :: 0 <= i < n ==> Tidy(ops[i], outs[i])
    ensures forall z :: z in seen[n].pool.zvols ==>
              var v := seen[n].pool.zvols[z].props;
              v.refreservation == 0 || v.refreservation == v.volsize * v.copies
  {
    assert |outs| == |ops| && |seen| == |ops| + 1;
    hide Trace;
    assert Loose(ops, outs, seen, n) == {} by {
      if z :| z in Loose(ops, outs, seen, n) {
        LooseMeans(ops, outs, seen, n, z);
        assert false;
      }
    }
    ThickOverRun(copies, ops, outs, seen, n);
  }

  /** A thick zvol is created with what all its copies can need if and only if it was asked for in whole
      blocks. */
  lemma ThickCreateExactIff(size: nat, volblocksize: nat, copies: nat)
    requires size > 0 && volblocksize > 0 && copies > 0
    ensures var v := NewVolume(RoundUp(size, volblocksize), volblocksize, copies, size * copies).props;
            v.refreservation == v.volsize * v.copies <==> size % volblocksize == 0
  {
    RoundUpOfMultiple(size, volblocksize);
    var rounded := RoundUp(size, volblocksize);
    assert (rounded - size) * copies == rounded * copies - size * copies;
    assert rounded > size ==> (rounded - size) * copies > 0;
    assert size * copies > 0;
  }

  // ----- recorded sizes -----

  /** An accepted operation leaves every recorded size right if and only if the sizes it records fit. */
  lemma SizesRightIff(copies: Inherited, d: Disk, op: Op, e: Disk)
    requires Valid(d.pool) && SizesRight(d) && Effect(copies, d, op, e)
    ensures SizesRight(e) <==> SizesFit(d, op)
  {
    hide Valid, Effect, SizesRight, SizesFit;
    if op.Destroy? {
      SizesAfterDestroy(copies, d, op, e);
    } else if op.Create? || op.ImportExisting? || op.Snapshot? || op.Clone? || op.CopyWithin? || op.TakeIn? {
      SizesWithRow(copies, d, op, e);
    } else {
      SizesStay(copies, d, op, e);
    }
  }

  lemma SizesAfterDestroy(copies: Inherited, d: Disk, op: Op, e: Disk)
    requires op.Destroy? && Valid(d.pool) && SizesRight(d) && Effect(copies, d, op, e)
    ensures SizesRight(e) <==> SizesFit(d, op)
  {
    hide Valid, SizesRight, DestroySized;
    if VolumeVdi(d, op.k) {
      var made :| VolumeDestroyed(d, op.k, made, e);
      DestroyedSizesIff(d, op.k, made, e);
    } else {
      SnapshotGoneSizes(d, op.k, e);
    }
  }

  lemma SizesWithRow(copies: Inherited, d: Disk, op: Op, e: Disk)
    requires op.Create? || op.ImportExisting? || op.Snapshot? || op.Clone? || op.CopyWithin? || op.TakeIn?
    requires Valid(d.pool) && SizesRight(d) && Effect(copies, d, op, e)
    ensures SizesRight(e) <==> SizesFit(d, op)
  {
    hide Valid, SizesRight;
    match op
    case Create(sr, size, thin, block, _) =>
      var z: ZvolName :| z.dataset == sr && Created(d, z, size, thin, block, CopiesIn(copies, sr), e);
      RowAdded(d, e, z, z);
    case ImportExisting(k) => RowAdded(d, e, k, k);
    case Snapshot(k) =>
      var n :| Snapshotted(d, k, n, CopiesIn(copies, k.dataset), e);
      RowAdded(d, e, k, n);
    case Clone(k) =>
      var z :| Cloned(d, k, z, CopiesIn(copies, k.dataset), e);
      CloneSizesIff(d, k, z, CopiesIn(copies, k.dataset), e);
    case CopyWithin(k, dstSr) =>
      var z :| CopiedWithin(d, k, dstSr, z, CopiesIn(copies, dstSr), e);
      RowAdded(d, e, k, z);
    case TakeIn(sr, v, recorded) =>
      var z: ZvolName :| z.dataset == sr && TookIn(d, v, recorded, z, CopiesIn(copies, sr), e);
      RowAdded(d, e, z, z);
  }

  lemma SizesStay(copies: Inherited, d: Disk, op: Op, e: Disk)
    requires op.Resize? || op.SetCopies? || op.CleanUpOrphans? || op.GuestWrite? || op.Receive? || op.SendOut?
             || op.Elsewhere?
    requires SizesRight(d) && Effect(copies, d, op, e)
    ensures SizesRight(e) && SizesFit(d, op)
  {
    forall j | j in e.rows ensures SizeOk(e.pool, j, e.rows[j]) {
      assert j in d.rows && SizeOk(d.pool, j, d.rows[j]);
    }
  }

  lemma SnapshotGoneSizes(d: Disk, k: ZvolName, e: Disk)
    requires SizesRight(d) && SnapshotDestroyed(d, k, e)
    ensures SizesRight(e)
  {
    forall j | j in e.rows ensures SizeOk(e.pool, j, e.rows[j]) {
      assert SizeOk(d.pool, j, d.rows[j]);
    }
  }

  lemma CloneSizesIff(d: Disk, k: ZvolName, z: ZvolName, copies: nat, e: Disk)
    requires Valid(d.pool) && SizesRight(d) && Cloned(d, k, z, copies, e)
    ensures SizesRight(e) <==> CloneSized(d, k)
  {
    hide Valid;
    RowAdded(d, e, k, z);
    CloneSizedIff(d, k, z, copies, e);
  }

  lemma CloneSizedIff(d: Disk, k: ZvolName, z: ZvolName, copies: nat, e: Disk)
    requires Valid(d.pool) && Cloned(d, k, z, copies, e)
    ensures SizeOk(e.pool, z, e.rows[z]) <==> CloneSized(d, k)
  {
  }

  /** With the size of `k` recovered and one row `n` added, all depends on that row. */
  lemma RowAdded(d: Disk, e: Disk, k: ZvolName, n: ZvolName)
    requires SizesRight(d) && n in e.rows && n !in d.rows
    requires if k in d.rows && KnownSize(d, k).Some? then e.rows == Recovered(d, k)[n := e.rows[n]]
             else e.rows == d.rows[n := e.rows[n]]
    requires forall z :: z in e.pool.zvols && z != n ==> z in d.pool.zvols && e.pool.zvols[z] == d.pool.zvols[z]
    ensures SizesRight(e) <==> SizeOk(e.pool, n, e.rows[n])
  {
    forall j | j in e.rows && j != n ensures SizeOk(e.pool, j, e.rows[j]) {
      assert SizeOk(d.pool, j, d.rows[j]);
    }
  }

  /** Destroying a VDI records the right size for each clone it makes if and only if no clone-less snapshot
      is of another size than the VDI, that is, predates a resize. */
  lemma DestroyedSizesIff(d: Disk, k: ZvolName, made: seq<ZvolName>, e: Disk)
    requires Valid(d.pool) && SizesRight(d) && VolumeDestroyed(d, k, made, e)
    ensures SizesRight(e) <==> DestroySized(d, k)
  {
    hide Valid, VolumeGone;
    var vsize := KnownSize(d, k).value;
    VolumeGoneMeans(d.pool, e.pool, k, made);
    if SizesRight(e) {
      forall s | Cloneless(d.pool, k, s) ensures d.pool.snaps[s].volsize == vsize {
        assert NewHome(d.pool, e.pool, k, s, made);
        var c := e.pool.snaps[s].holder;
        assert SameSnapshot(d.pool.snaps[s], e.pool.snaps[s]);
        assert SizeOk(e.pool, c, e.rows[c]);
      }
    }
    if DestroySized(d, k) {
      forall j | j in e.rows ensures SizeOk(e.pool, j, e.rows[j]) {
        if j in made {
          assert Served(d.pool, e.pool, k, j);
          var s :| MadeFor(d.pool, e.pool, k, j, s);
          assert SameSnapshot(d.pool.snaps[s], e.pool.snaps[s]);
        } else {
          assert SizeOk(d.pool, j, d.rows[j]);
        }
      }
    }
  }

  /** Over a run in which everything is accepted, the recorded sizes are right in all states between the
      operations if and only if every operation records sizes that fit. */
  lemma {:induction false} SizesOverRunIff(copies: Inherited, ops: seq<Op>, seen: seq<Disk>)
    requires AcceptedRun(copies, ops, seen) && SizesRight(seen[0])
    ensures (forall i :: 0 <= i <= |ops| ==> SizesRight(seen[i])) <==> AllSizesFit(seen, ops)
  {
    assert |seen| == |ops| + 1;
    hide AcceptedRun, SizesRight, SizesFit;
    if forall i :: 0 <= i <= |ops| ==> SizesRight(seen[i]) {
      forall i | 0 <= i < |ops| ensures SizesFit(seen[i], ops[i]) {
        SizesAt(copies, ops, seen, i);
      }
    }
    if AllSizesFit(seen, ops) {
      for n := 0 to |ops|
        invariant forall i :: 0 <= i <= n ==> SizesRight(seen[i])
      {
        SizesAt(copies, ops, seen, n);
      }
    }
  }

  /** A run whose operations are all accepted, through well-formed pools. */
  ghost predicate AcceptedRun(copies: Inherited, ops: seq<Op>, seen: seq<Disk>) {
    && |seen| == |ops| + 1
    && (forall i :: 0 <= i <= |ops| ==> Valid(seen[i].pool))
    && (forall i :: 0 <= i < |ops| ==> Effect(copies, seen[i], ops[i], seen[i + 1]))
  }

  /** What `Drive` returns when nothing fails is such a run. */
  lemma AllDone(copies: Inherited, ops: seq<Op>, outs: seq<Outcome>, seen: seq<Disk>)
    requires Trace(copies, ops, outs, seen) && forall i :: 0 <= i <= |ops| ==> Valid(seen[i].pool)
    requires forall i :: 0 <= i < |ops| ==> outs[i] == Done
    ensures AcceptedRun(copies, ops, seen)
  {
    hide Valid, Effect;
    forall i | 0 <= i < |ops| ensures Effect(copies, seen[i], ops[i], seen[i + 1]) {
      assert StepOk(copies, seen[i], ops[i], outs[i], seen[i + 1]) && outs[i] == Done;
    }
  }

  lemma AcceptedStep(copies: Inherited, ops: seq<Op>, seen: seq<Disk>, i: nat)
    requires AcceptedRun(copies, ops, seen) && i < |ops|
    ensures Valid(seen[i].pool) && Effect(copies, seen[i], ops[i], seen[i + 1])
  {
    hide Valid, Effect;
  }

  lemma SizesAt(copies: Inherited, ops: seq<Op>, seen: seq<Disk>, i: nat)
    requires AcceptedRun(copies, ops, seen) && i < |ops| && SizesRight(seen[i])
    ensures SizesRight(seen[i + 1]) <==> SizesFit(seen[i], ops[i])
  {
    hide Valid, Effect, SizesRight, SizesFit;
    AcceptedStep(copies, ops, seen, i);
    SizesRightIff(copies, seen[i], ops[i], seen[i + 1]);
  }

  /** A copy between two pools records a size that fits if and only if the size known for its source is right. */
  lemma AcrossFitsIff(steps: seq<Step>, l: Course, r: Course, i: nat)
    requires Tied(steps, l, r) && i < |steps| && steps[i].Across?
    ensures var (sender, receiver) := if steps[i].fromLeft then (l, r) else (r, l);
            SizesFit(receiver.seen[i], receiver.ops[i]) <==> CopySized(sender.seen[i], steps[i].k)
  {
  }

  // ----- which SR a snapshot ends up in -----

  /** An accepted operation leaves every VDI backed in its own SR if and only if it is no destruction of a
      volume holding the snapshot of a VDI whose first clone, in name order, lies in another SR. */
  lemma HomeIff(copies: Inherited, doomed: set<ZvolName>, d: Disk, op: Op, e: Disk)
    requires Valid(d.pool) && RowsBacked(d, doomed) && Effect(copies, d, op, e)
    ensures RowsBacked(e, doomed) <==> KeepsHome(d, doomed, op)
  {
    hide Valid;
    if op.Destroy? && VolumeVdi(d, op.k) {
      var made :| VolumeDestroyed(d, op.k, made, e);
      VolumeLeavesHomeIff(doomed, d, op.k, made, e);
    } else if op.Destroy? {
      SnapshotGoneHome(doomed, d, op.k, e);
    } else {
      HomesStay(copies, doomed, d, op, e);
    }
  }

  lemma HomesStay(copies: Inherited, doomed: set<ZvolName>, d: Disk, op: Op, e: Disk)
    requires !op.Destroy? && RowsBacked(d, doomed) && Effect(copies, d, op, e)
    ensures RowsBacked(e, doomed)
  {
    hide Effect, Backed;
    forall j | j in e.rows && j !in doomed ensures Backed(e.pool, j, e.rows[j]) {
      if j in d.rows {
        assert Backed(d.pool, j, d.rows[j]);
        OldHomeStays(copies, d, op, e, j);
      } else {
        NewHomeThere(copies, d, op, e, j);
      }
    }
  }

  lemma OldHomeStays(copies: Inherited, d: Disk, op: Op, e: Disk, j: ZvolName)
    requires !op.Destroy? && Effect(copies, d, op, e) && j in d.rows && j in e.rows && Backed(d.pool, j, d.rows[j])
    ensures Backed(e.pool, j, e.rows[j])
  {
  }

  lemma NewHomeThere(copies: Inherited, d: Disk, op: Op, e: Disk, j: ZvolName)
    requires !op.Destroy? && Effect(copies, d, op, e) && j !in d.rows && j in e.rows
    ensures Backed(e.pool, j, e.rows[j])
  {
  }

  lemma SnapshotGoneHome(doomed: set<ZvolName>, d: Disk, k: ZvolName, e: Disk)
    requires RowsBacked(d, doomed) && SnapshotDestroyed(d, k, e)
    ensures RowsBacked(e, doomed)
  {
    forall j | j in e.rows && j !in doomed ensures Backed(e.pool, j, e.rows[j]) {
      assert Backed(d.pool, j, d.rows[j]);
    }
  }

  lemma VolumeLeavesHomeIff(doomed: set<ZvolName>, d: Disk, v: ZvolName, made: seq<ZvolName>, e: Disk)
    requires Valid(d.pool) && RowsBacked(d, doomed) && VolumeDestroyed(d, v, made, e)
    ensures RowsBacked(e, doomed) <==> Steers(d, doomed, v)
  {
    hide Valid, VolumeGone;
    VolumeGoneMeans(d.pool, e.pool, v, made);
    forall j | j in d.rows && j !in doomed && j != v
      ensures j in e.rows && e.rows[j] == d.rows[j]
      ensures Backed(e.pool, j, e.rows[j]) <==> SteersOne(d, v, j)
    {
      StaysHomeIff(doomed, d, v, made, e, j);
    }
    forall j | j in e.rows && j !in d.rows ensures Backed(e.pool, j, e.rows[j]) {
    }
    SteersAll(d, doomed, v);
  }

  /** `Steers`, for one row. */
  ghost predicate SteersOne(d: Disk, v: ZvolName, j: ZvolName)
    requires j in d.rows
  {
    forall z ::
      d.rows[j].snap && HeldBy(d.pool, j.uuid, v) && IsFirstClone(d.pool, z, j.uuid) ==> z.dataset == j.dataset
  }

  lemma SteersAll(d: Disk, doomed: set<ZvolName>, v: ZvolName)
    requires VolumeVdi(d, v)
    ensures Steers(d, doomed, v) <==> forall j :: j in d.rows && j !in doomed && j != v ==> SteersOne(d, v, j)
  {
    if forall j :: j in d.rows && j !in doomed && j != v ==> SteersOne(d, v, j) {
      forall j, z | j in d.rows && j !in doomed && d.rows[j].snap && j.uuid in d.pool.snaps
          && d.pool.snaps[j.uuid].holder == v && IsFirstClone(d.pool, z, j.uuid)
        ensures z.dataset == j.dataset
      {
        assert SteersOne(d, v, j);
      }
    }
  }

  lemma StaysHomeIff(doomed: set<ZvolName>, d: Disk, v: ZvolName, made: seq<ZvolName>, e: Disk, j: ZvolName)
    requires Valid(d.pool) && RowsBacked(d, doomed) && VolumeDestroyed(d, v, made, e) && j in d.rows && j !in doomed
             && j != v
    ensures j in e.rows && e.rows[j] == d.rows[j]
    ensures Backed(e.pool, j, e.rows[j]) <==> SteersOne(d, v, j)
  {
    hide Valid, VolumeGone;
    VolumeGoneMeans(d.pool, e.pool, v, made);
    assert Backed(d.pool, j, d.rows[j]);
    if d.rows[j].snap && d.pool.snaps[j.uuid].holder == v {
      assert NewHome(d.pool, e.pool, v, j.uuid, made);
      var h := e.pool.snaps[j.uuid].holder;
      if HasClone(d.pool, j.uuid) {
        assert IsFirstClone(d.pool, h, j.uuid);
      } else {
        assert forall z :: !IsFirstClone(d.pool, z, j.uuid);
      }
    }
  }

  /** Over a run in which everything is accepted, every VDI is backed in its own SR in all states between
      the operations if and only if no destruction takes a snapshot VDI elsewhere. */
  lemma {:induction false} HomesOverRunIff(copies: Inherited, doomed: set<ZvolName>, ops: seq<Op>, seen: seq<Disk>)
    requires AcceptedRun(copies, ops, seen) && RowsBacked(seen[0], doomed)
    ensures (forall i :: 0 <= i <= |ops| ==> RowsBacked(seen[i], doomed)) <==> AllKeepHome(seen, doomed, ops)
  {
    assert |seen| == |ops| + 1;
    hide AcceptedRun, RowsBacked, KeepsHome;
    if forall i :: 0 <= i <= |ops| ==> RowsBacked(seen[i], doomed) {
      forall i | 0 <= i < |ops| ensures KeepsHome(seen[i], doomed, ops[i]) {
        HomeAt(copies, doomed, ops, seen, i);
      }
    }
    if AllKeepHome(seen, doomed, ops) {
      for n := 0 to |ops|
        invariant forall i :: 0 <= i <= n ==> RowsBacked(seen[i], doomed)
      {
        HomeAt(copies, doomed, ops, seen, n);
      }
    }
  }

  lemma HomeAt(copies: Inherited, doomed: set<ZvolName>, ops: seq<Op>, seen: seq<Disk>, i: nat)
    requires AcceptedRun(copies, ops, seen) && i < |ops| && RowsBacked(seen[i], doomed)
    ensures RowsBacked(seen[i + 1], doomed) <==> KeepsHome(seen[i], doomed, ops[i])
  {
    hide Valid, Effect, RowsBacked, KeepsHome;
    AcceptedStep(copies, ops, seen, i);
    HomeIff(copies, doomed, seen[i], ops[i], seen[i + 1]);
  }

  // ----- orphan cleanup -----

  /** Cleaning up `sr` can take the snapshot VDI `j` of another SR its snapshot: that has come below `sr`, and
      all that is cloned from it can go with it. */
  ghost predicate Exposed(d: Disk, sr: Dataset, c: Cleanup, j: ZvolName) {
    && c.enabled && j in d.rows && d.rows[j].snap
    && OrphanSnapshot(d.pool, d.rows, sr, c, j.uuid) && OldEnough(c.grace, c.snaps, j.uuid)
    && forall z :: IsClone(d.pool, z, j.uuid) ==>
         OrphanZvol(d.rows, sr, c, z) && OldEnough(c.grace, c.zvols, z) && !HoldsSnapshot(d.pool, z)
  }

  /** A snapshot VDI with a clone of its own is exposed to no cleanup, nor is one backed in its own SR. */
  lemma RarelyExposed(d: Disk, sr: Dataset, c: Cleanup, j: ZvolName)
    requires j in d.rows && (Anchored(d.pool, j, d.rows[j]) || Backed(d.pool, j, d.rows[j]))
    ensures !Exposed(d, sr, c, j)
  {
  }

  /** Whatever a cleanup of `sr` destroys of what it may, every VDI keeps its zvol or snapshot, if and only
      if no snapshot VDI is exposed to it. */
  lemma CleanupKeepsIff(d: Disk, doomed: set<ZvolName>, sr: Dataset, c: Cleanup)
    requires RowsPresent(d, doomed)
    ensures (forall q :: CleanedUp(d.pool, d.rows, sr, c, q) ==> RowsPresent(Disk(q, d.rows), doomed))
       <==> (forall j :: j !in doomed ==> !Exposed(d, sr, c, j))
  {
    if forall j :: j !in doomed ==> !Exposed(d, sr, c, j) {
      forall q | CleanedUp(d.pool, d.rows, sr, c, q) ensures RowsPresent(Disk(q, d.rows), doomed) {
        forall j | j in d.rows && j !in doomed ensures Present(q, j, d.rows[j]) {
          assert Present(d.pool, j, d.rows[j]) && !Exposed(d, sr, c, j);
          CleanedKeeps(d, sr, c, q, j);
        }
      }
    }
    if j :| j !in doomed && Exposed(d, sr, c, j) {
      var q := WorstCleanup(d, sr, c, j);
      assert !Present(q, j, d.rows[j]);
    }
  }

  lemma CleanedKeeps(d: Disk, sr: Dataset, c: Cleanup, q: Pool, j: ZvolName)
    requires CleanedUp(d.pool, d.rows, sr, c, q) && j in d.rows && Present(d.pool, j, d.rows[j])
             && !Exposed(d, sr, c, j)
    ensures Present(q, j, d.rows[j])
  {
    if d.rows[j].snap && j.uuid !in q.snaps {
      forall z | IsClone(d.pool, z, j.uuid)
        ensures OrphanZvol(d.rows, sr, c, z) && OldEnough(c.grace, c.zvols, z) && !HoldsSnapshot(d.pool, z)
      {
        assert z !in q.zvols;
      }
    }
  }

  lemma WorstCleanup(d: Disk, sr: Dataset, c: Cleanup, j: ZvolName) returns (q: Pool)
    requires Exposed(d, sr, c, j)
    ensures CleanedUp(d.pool, d.rows, sr, c, q) && j.uuid !in q.snaps
  {
    hide OrphanZvol, HoldsSnapshot;
    q := d.pool.(zvols := map z | z in d.pool.zvols && d.pool.zvols[z].origin != Some(j.uuid) :: d.pool.zvols[z],
                 snaps := d.pool.snaps - {j.uuid});
    assert forall z :: z in d.pool.zvols && z !in q.zvols ==> IsClone(d.pool, z, j.uuid);
  }

  /** `Volume.snapshot` gives every snapshot VDI a clone named after it. Unless the snapshot has another
      clone by then, destroying the volume moves the snapshot onto that clone, and from then on the
      snapshot VDI cannot be destroyed any more. */
  lemma OrphanedSnapshotStuck(p: Pool, r: Pool, v: ZvolName, made: seq<ZvolName>, s: Uuid)
    requires Valid(p) && VolumeGone(p, r, v, made) && s in p.snaps && p.snaps[s].holder == v
    requires IsClone(p, ZvolName(v.dataset, s), s)
    requires forall z :: IsClone(p, z, s) ==> z == ZvolName(v.dataset, s)
    ensures FoundSnapshot(r, v.dataset, s) == Some(SnapName(ZvolName(v.dataset, s), s))
    ensures !SnapshotDestroyable(r, ZvolName(v.dataset, s))
  {
    hide Valid, VolumeGone;
    VolumeGoneMeans(p, r, v, made);
    assert NewHome(p, r, v, s, made) && HasClone(p, s);
  }

  // ----- resizing -----

  /** A size the driver accepts, for a zvol `v` recorded with the size `recorded`. */
  predicate Accepts(v: Zvol, recorded: Option<nat>, newSize: nat) {
    newSize >= if recorded.Some? then recorded.value else v.props.volsize
  }

  /** What a caller can check: the recorded size, in whole blocks, is not below the size of the zvol. */
  predicate RecordCovers(v: Zvol, recorded: Option<nat>) {
    recorded.Some? ==> BlockSize(recorded.value, v.props.volblocksize) >= v.props.volsize
  }

  /** Every size the driver accepts keeps every byte of the zvol if and only if the recorded size is
      unknown or covers the zvol. */
  lemma ResizeKeepsBytesIff(v: Zvol, recorded: Option<nat>)
    requires |v.content| == v.props.volsize
    ensures (forall newSize :: Accepts(v, recorded, newSize) ==>
             Grown(v, Synced(Resized(v, BlockSize(newSize, v.props.volblocksize)))))
       <==> RecordCovers(v, recorded)
  {
    var block := v.props.volblocksize;
    if RecordCovers(v, recorded) {
      forall newSize | Accepts(v, recorded, newSize) ensures Grown(v, Synced(Resized(v, BlockSize(newSize, block)))) {
        BlockSizeGrows(if recorded.Some? then recorded.value else v.props.volsize, newSize, block);
      }
    } else {
      assert Accepts(v, recorded, recorded.value);
      assert !Grown(v, Synced(Resized(v, BlockSize(recorded.value, block))));
    }
  }

  lemma MidResizeGrown(v: Zvol, w: Zvol, recorded: Option<nat>, newSize: nat)
    requires |v.content| == v.props.volsize && Accepts(v, recorded, newSize) && RecordCovers(v, recorded)
    requires MidResize(v, w, BlockSize(newSize, v.props.volblocksize))
    ensures Grown(v, w)
  {
    BlockSizeGrows(if recorded.Some? then recorded.value else v.props.volsize, newSize, v.props.volblocksize);
  }

  lemma GrownTwice(u: Zvol, v: Zvol, w: Zvol)
    requires Grown(u, v) && Grown(v, w)
    ensures Grown(u, w)
  {
    assert u.content <= w.content;
  }

  /** Every state since `from` has the zvol, with a right or unknown size recorded. */
  ghost predicate SizeToldSince(history: seq<Disk>, from: nat, k: ZvolName) {
    from <= |history| && forall i :: from <= i < |history| ==>
      k in history[i].pool.zvols && k in history[i].rows && SizeOk(history[i].pool, k, history[i].rows[k])
  }

  ghost predicate GrownSince(history: seq<Disk>, from: nat, k: ZvolName, v: Zvol)
    requires SizeToldSince(history, from, k)
  {
    forall i :: from <= i < |history| ==> Grown(v, history[i].pool.zvols[k])
  }

  /** Any sequence of resizes, each failing anywhere. Every state it can leave has the size recorded right
      or not at all; what the next operation takes for the size is the size of the zvol. If the recorded
      size covered the zvol at the start, the VDI never shrinks nor loses a byte. */
  method ResizeRun(h: Host, k: ZvolName, sizes: seq<nat>) returns (size: nat)
    requires h.Safe() && k in h.rows && k in h.pool.zvols
    modifies h
    ensures h.Safe() && k in h.rows && k in h.pool.zvols && old(h.history) <= h.history
    ensures h.history == old(h.history) || size == h.pool.zvols[k].props.volsize
    ensures old(SizeOk(h.pool, k, h.rows[k])) ==> size == h.pool.zvols[k].props.volsize
    ensures SizeToldSince(h.history, |old(h.history)|, k)
    ensures old(RecordCovers(h.pool.zvols[k], h.rows[k].vsize)) ==>
              Grown(old(h.pool.zvols[k]), h.pool.zvols[k])
                  && GrownSince(h.history, |old(h.history)|, k, old(h.pool.zvols[k]))
  {
    hide Host.Safe, Valid, Host.Agrees, Grown, MidResize;
    GrownAlready(h.pool.zvols[k]);
    h.SafeNow();
    for i := 0 to |sizes|
      invariant h.Safe() && k in h.rows && k in h.pool.zvols && old(h.history) <= h.history
      invariant h.history == old(h.history) ==> h.Now() == old(h.Now())
      invariant h.history != old(h.history) || old(SizeOk(h.pool, k, h.rows[k])) ==> SizeOk(h.pool, k, h.rows[k])
      invariant SizeToldSince(h.history, |old(h.history)|, k)
      invariant old(RecordCovers(h.pool.zvols[k], h.rows[k].vsize)) ==>
                  && RecordCovers(h.pool.zvols[k], h.rows[k].vsize)
                  && Grown(old(h.pool.zvols[k]), h.pool.zvols[k])
                  && GrownSince(h.history, |old(h.history)|, k, old(h.pool.zvols[k]))
    {
      OneResize(h, k, sizes[i], old(h.pool.zvols[k]), |old(h.history)|);
    }
    var recovered, db := h.RecoverVsize(k);
    size := recovered.value;
  }

  lemma GrownAlready(v: Zvol)
    ensures Grown(v, v)
  {
  }

  /** One more resize; `v` is the zvol as it was when the history was `from` states long. */
  method OneResize(h: Host, k: ZvolName, newSize: nat, ghost v: Zvol, ghost from: nat)
    requires h.Safe() && k in h.rows && k in h.pool.zvols && SizeToldSince(h.history, from, k)
    modifies h
    ensures h.Safe() && k in h.rows && k in h.pool.zvols && old(h.history) <= h.history
            && SizeToldSince(h.history, from, k)
    ensures h.history == old(h.history) ==> h.Now() == old(h.Now())
    ensures h.history != old(h.history) ==> SizeOk(h.pool, k, h.rows[k])
    ensures old(RecordCovers(h.pool.zvols[k], h.rows[k].vsize)) && Grown(v, old(h.pool.zvols[k]))
            && old(GrownSince(h.history, from, k, v)) ==>
              RecordCovers(h.pool.zvols[k], h.rows[k].vsize) && Grown(v, h.pool.zvols[k])
                  && GrownSince(h.history, from, k, v)
  {
    hide Host.Safe, Valid, Host.Agrees, Grown, MidResize, RecordCovers;
    h.SafeNow();
    ghost var u, recorded, was := h.pool.zvols[k], h.rows[k].vsize, h.history;
    assert |u.content| == u.props.volsize by {
      BytesThere(h.pool, k);
    }
    var r := h.Resize(k, newSize);
    h.SafeNow();
    if h.history != was {
      assert Accepts(u, recorded, newSize);
      RightCovers(h.pool.zvols[k], h.rows[k].vsize);
      if RecordCovers(u, recorded) && Grown(v, u) {
        forall i | |was| <= i < |h.history| ensures Grown(v, h.history[i].pool.zvols[k]) {
          MidResizeGrown(u, h.history[i].pool.zvols[k], recorded, newSize);
          GrownTwice(v, u, h.history[i].pool.zvols[k]);
        }
      }
    }
  }

  lemma BytesThere(p: Pool, k: ZvolName)
    requires Valid(p) && k in p.zvols
    ensures |p.zvols[k].content| == p.zvols[k].props.volsize
  {
  }

  lemma RightCovers(v: Zvol, recorded: Option<nat>)
    requires recorded.Some? ==> recorded.value == v.props.volsize
    ensures RecordCovers(v, recorded)
  {
    BlockSizeGrows(v.props.volsize, v.props.volsize, v.props.volblocksize);
  }
}
