/** What a run of operations may do to one zvol, and to one snapshot: which operations change its bytes, its
    size and its reservation, and what therefore stays as it was. */
module ZvolRuns {
  import opened Wrappers
  import opened ZfsPool
  import opened Promotion
  import opened Metabase
  import opened VolumeSpec
  import opened VolumeCopy
  import opened VolumeLaws
  import opened Runs

  predicate ResizeOf(op: Op, z: ZvolName) {
    op.Resize? && op.k == z
  }

  predicate CopiesOf(op: Op, z: ZvolName) {
    op.SetCopies? && op.k == z
  }

  /** What an operation may have made of the zvol `z`, done or not: bytes change by a resize, or by a guest
      that may write; a reservation changes by a resize or another number of copies, and then only if there
      is one, to what all copies need. */
  predicate ZvolStep(op: Op, z: ZvolName, v: Zvol, w: Zvol) {
    && w.props.readonly == v.props.readonly && w.props.volblocksize == v.props.volblocksize
    && (w.props.volsize != v.props.volsize ==> ResizeOf(op, z))
    && (w.props.copies != v.props.copies ==> CopiesOf(op, z))
    && (w.content != v.content ==> ResizeOf(op, z) || (op.GuestWrite? && op.k == z && !v.props.readonly))
    && (w.props.refreservation != v.props.refreservation ==>
          && (ResizeOf(op, z) || CopiesOf(op, z))
          && v.props.refreservation > 0 && w.props.refreservation == w.props.volsize * w.props.copies)
  }

  /** Any zvol, over any operation, accepted or failed. */
  lemma ZvolAfter(copies: Inherited, d: Disk, op: Op, out: Outcome, e: Disk, z: ZvolName)
    requires Valid(d.pool) && StepOk(copies, d, op, out, e) && z in d.pool.zvols && z in e.pool.zvols
    ensures ZvolStep(op, z, d.pool.zvols[z], e.pool.zvols[z])
  {
    hide Valid, Possible;
    if op.Destroy? {
      ZvolAfterDestroy(copies, d, op, out, e, z);
    } else if op.Resize? || op.SetCopies? {
      ZvolAltered(copies, d, op, out, e, z);
    } else {
      ZvolLeft(copies, d, op, out, e, z);
    }
  }

  lemma ZvolAfterDestroy(copies: Inherited, d: Disk, op: Op, out: Outcome, e: Disk, z: ZvolName)
    requires op.Destroy? && Valid(d.pool) && Came(copies, d, op, out, e) && z in d.pool.zvols && z in e.pool.zvols
    ensures ZvolStep(op, z, d.pool.zvols[z], e.pool.zvols[z])
  {
    hide Valid, VolumeGone;
    if out.Done? && VolumeVdi(d, op.k) {
      var made :| VolumeDestroyed(d, op.k, made, e);
      VolumeGoneMeans(d.pool, e.pool, op.k, made);
    }
  }

  lemma ZvolAltered(copies: Inherited, d: Disk, op: Op, out: Outcome, e: Disk, z: ZvolName)
    requires op.Resize? || op.SetCopies?
    requires Came(copies, d, op, out, e) && z in d.pool.zvols && z in e.pool.zvols
    ensures ZvolStep(op, z, d.pool.zvols[z], e.pool.zvols[z])
  {
  }

  lemma ZvolLeft(copies: Inherited, d: Disk, op: Op, out: Outcome, e: Disk, z: ZvolName)
    requires !op.Destroy? && !op.Resize? && !op.SetCopies?
    requires Came(copies, d, op, out, e) && z in d.pool.zvols && z in e.pool.zvols
    ensures ZvolStep(op, z, d.pool.zvols[z], e.pool.zvols[z])
  {
  }

  // ----- one zvol over a run -----

  /** The zvol `z` is there all the time from the `i`th state to the `j`th. */
  ghost predicate ThereFrom(seen: seq<Disk>, z: ZvolName, i: nat, j: nat) {
    i <= j < |seen| && forall t :: i <= t <= j ==> Valid(seen[t].pool) && z in seen[t].pool.zvols
  }

  lemma AfterOne(copies: Inherited, c: Course, z: ZvolName, i: nat, j: nat)
    requires Trace(copies, c.ops, c.outs, c.seen) && ThereFrom(c.seen, z, i, j) && i < j
    ensures ZvolStep(c.ops[j - 1], z, c.seen[j - 1].pool.zvols[z], c.seen[j].pool.zvols[z])
    ensures ThereFrom(c.seen, z, i, j - 1)
  {
    hide Valid, StepOk, ZvolStep;
    assert StepOk(copies, c.seen[j - 1], c.ops[j - 1], c.outs[j - 1], c.seen[j]);
    assert Valid(c.seen[j - 1].pool) && z in c.seen[j - 1].pool.zvols && z in c.seen[j].pool.zvols;
    ZvolAfter(copies, c.seen[j - 1], c.ops[j - 1], c.outs[j - 1], c.seen[j], z);
  }

  /** Whatever is done to a zvol and fails on the way, it never becomes thick; and it never becomes thin
      unless it has no bytes or no copies in between, for which no space can be reserved. */
  lemma {:induction false} ThickStaysThick(copies: Inherited, c: Course, z: ZvolName, i: nat, j: nat)
    requires Trace(copies, c.ops, c.outs, c.seen) && ThereFrom(c.seen, z, i, j)
    ensures var (v, w) := (c.seen[i].pool.zvols[z].props, c.seen[j].pool.zvols[z].props);
            && (w.refreservation > 0 ==> v.refreservation > 0)
            && ((forall t :: i < t <= j ==> NeedsSpace(c.seen[t].pool, z)) ==>
                  (w.refreservation > 0 <==> v.refreservation > 0))
  {
    hide Valid, Trace;
    if i < j {
      AfterOne(copies, c, z, i, j);
      ThickStaysThick(copies, c, z, i, j - 1);
      var w := c.seen[j].pool.zvols[z].props;
      assert NeedsSpace(c.seen[j].pool, z) ==> w.volsize * w.copies > 0;
    }
  }

  predicate NeedsSpace(p: Pool, z: ZvolName) {
    z in p.zvols && p.zvols[z].props.volsize * p.zvols[z].props.copies > 0
  }

  /** Nobody asks for another size of `z` from the `i`th operation to the `j`th. */
  predicate NotResized(ops: seq<Op>, z: ZvolName, i: nat, j: nat) {
    i <= j <= |ops| && forall t :: i <= t < j ==> !ResizeOf(ops[t], z)
  }

  /** As long as it is there and nobody asks to resize it, a read-only zvol stays read-only with its bytes,
      whatever else is done, guest writes to it included. */
  lemma {:induction false} ReadOnlyStays(copies: Inherited, c: Course, z: ZvolName, i: nat, j: nat)
    requires Trace(copies, c.ops, c.outs, c.seen) && ThereFrom(c.seen, z, i, j) && NotResized(c.ops, z, i, j)
    requires c.seen[i].pool.zvols[z].props.readonly
    ensures c.seen[j].pool.zvols[z].content == c.seen[i].pool.zvols[z].content
    ensures WriteProtected(c.seen[j].pool, z)
  {
    hide Valid, Trace;
    if i < j {
      AfterOne(copies, c, z, i, j);
      ReadOnlyStays(copies, c, z, i, j - 1);
      EmptyRefused(c.seen[j - 1].pool, z);
    }
  }

  /** Even its own bytes cannot be written to what is protected. */
  lemma EmptyRefused(p: Pool, z: ZvolName)
    requires WriteProtected(p, z)
    ensures p.zvols[z].props.readonly
  {
    assert SetContent(p, z, p.zvols[z].content).Err?;
  }

  /** What a guest can read from a snapshot VDI is for good what the volume was when the snapshot was taken:
      over any further run, until the VDI is destroyed or somebody asks to resize it. */
  lemma SnapshotVdiStays(copies: Inherited, c: Course, i: nat, n: ZvolName, j: nat)
    requires Trace(copies, c.ops, c.outs, c.seen) && i < j <= |c.ops| && c.ops[i].Snapshot?
    requires Snapshotted(c.seen[i], c.ops[i].k, n, CopiesIn(copies, c.ops[i].k.dataset), c.seen[i + 1])
    requires Valid(c.seen[i].pool) && ThereFrom(c.seen, n, i + 1, j) && NotResized(c.ops, n, i + 1, j)
    ensures var k, rows := c.ops[i].k, c.seen[i].rows;
            var source := if rows[k].snap && rows[k].parent.Some? && ZvolName(k.dataset, rows[k].parent.value) in rows
                          then ZvolName(k.dataset, rows[k].parent.value) else k;
            && source in c.seen[i].pool.zvols && WriteProtected(c.seen[j].pool, n)
            && c.seen[j].pool.zvols[n].content == c.seen[i].pool.zvols[source].content
  {
    hide Valid, Trace;
    SnapshotMeans(c.seen[i], c.ops[i].k, n, CopiesIn(copies, c.ops[i].k.dataset), c.seen[i + 1]);
    EmptyRefused(c.seen[i + 1].pool, n);
    ReadOnlyStays(copies, c, n, i + 1, j);
  }

  // ----- one snapshot over a run -----

  lemma SnapshotAfter(copies: Inherited, d: Disk, op: Op, out: Outcome, e: Disk, s: Uuid)
    requires Valid(d.pool) && StepOk(copies, d, op, out, e) && s in d.pool.snaps && s in e.pool.snaps
    ensures SameSnapshot(d.pool.snaps[s], e.pool.snaps[s])
  {
    hide Valid, Possible, VolumeGone, Tight;
    if op.Destroy? && out.Done? && VolumeVdi(d, op.k) {
      var made :| VolumeDestroyed(d, op.k, made, e);
      VolumeGoneMeans(d.pool, e.pool, op.k, made);
    }
  }

  /** A snapshot keeps its bytes as long as it is there. */
  lemma {:induction false} SnapshotStays(copies: Inherited, c: Course, s: Uuid, i: nat, j: nat)
    requires Trace(copies, c.ops, c.outs, c.seen) && i <= j <= |c.ops|
    requires forall t :: i <= t <= j ==> Valid(c.seen[t].pool) && s in c.seen[t].pool.snaps
    ensures SameSnapshot(c.seen[i].pool.snaps[s], c.seen[j].pool.snaps[s])
  {
    hide Valid, StepOk;
    if i < j {
      SnapshotStays(copies, c, s, i, j - 1);
      assert StepOk(copies, c.seen[j - 1], c.ops[j - 1], c.outs[j - 1], c.seen[j]);
      assert Valid(c.seen[j - 1].pool) && s in c.seen[j - 1].pool.snaps && s in c.seen[j].pool.snaps;
      SnapshotAfter(copies, c.seen[j - 1], c.ops[j - 1], c.outs[j - 1], c.seen[j], s);
    }
  }

  // ----- what goes -----

  /** The zvol `z` may go: it is destroyed, or an orphan that cleanup has come upon. */
  predicate MayGo(d: Disk, op: Op, z: ZvolName) {
    || op == Destroy(z)
    || (op.CleanUpOrphans? && op.cleanup.enabled && z.dataset == op.sr && z !in d.rows && z !in op.cleanup.zvols.inUse)
  }

  predicate SnapshotMayGo(d: Disk, op: Op, s: Uuid) {
    || (op.Destroy? && op.k.uuid == s && op.k in d.rows && d.rows[op.k].snap)
    || (op.CleanUpOrphans? && op.cleanup.enabled && s in d.pool.snaps && d.pool.snaps[s].holder.dataset == op.sr
        && ZvolName(op.sr, s) !in d.rows && d.pool.snaps[s].holder !in op.cleanup.snaps.inUse)
  }

  /** Whatever is done, accepted or failed: a zvol goes only if it is destroyed or cleaned up, a snapshot
      only with its snapshot VDI or cleaned up, and a row only when its VDI has been destroyed. */
  lemma GoneOnlyBy(copies: Inherited, d: Disk, op: Op, out: Outcome, e: Disk)
    requires Valid(d.pool) && StepOk(copies, d, op, out, e)
    ensures forall z :: z in d.pool.zvols && z !in e.pool.zvols ==> MayGo(d, op, z)
    ensures forall s :: s in d.pool.snaps && s !in e.pool.snaps ==> SnapshotMayGo(d, op, s)
    ensures forall k :: k in d.rows && k !in e.rows ==> op == Destroy(k) && out.Done?
  {
    hide Valid, Possible;
    if op.Destroy? {
      GoneByDestroy(copies, d, op, out, e);
    } else {
      GoneByOthers(copies, d, op, out, e);
    }
  }

  lemma GoneByDestroy(copies: Inherited, d: Disk, op: Op, out: Outcome, e: Disk)
    requires op.Destroy? && Valid(d.pool) && Came(copies, d, op, out, e)
    ensures forall z :: z in d.pool.zvols && z !in e.pool.zvols ==> op == Destroy(z)
    ensures forall s :: s in d.pool.snaps && s !in e.pool.snaps ==> SnapshotMayGo(d, op, s)
    ensures forall k :: k in d.rows && k !in e.rows ==> op == Destroy(k) && out.Done?
  {
    hide Valid, VolumeGone, Tight;
    if out.Done? && VolumeVdi(d, op.k) {
      var made :| VolumeDestroyed(d, op.k, made, e);
      VolumeGoneMeans(d.pool, e.pool, op.k, made);
    }
  }

  lemma GoneByOthers(copies: Inherited, d: Disk, op: Op, out: Outcome, e: Disk)
    requires !op.Destroy? && Came(copies, d, op, out, e)
    ensures forall z :: z in d.pool.zvols && z !in e.pool.zvols ==> MayGo(d, op, z)
    ensures forall s :: s in d.pool.snaps && s !in e.pool.snaps ==> SnapshotMayGo(d, op, s)
    ensures d.rows.Keys <= e.rows.Keys
  {
    hide Tight;
  }
}
