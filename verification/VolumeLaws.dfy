/** What the effects of the volume operations amount to, byte by byte and number by number: how large a new
    zvol is, what is in it, who may write to it, and how much space is reserved for it. */
module VolumeLaws {
  import opened Wrappers
  import opened ZfsPool
  import opened Promotion
  import opened Metabase
  import opened VolumeSpec
  import opened VolumeCopy
  import opened Runs

  /** What can be attached to a guest for writing: contents of the right length are taken, whatever they are. */
  ghost predicate Writable(p: Pool, z: ZvolName) {
    z in p.zvols && forall bytes :: SetContent(p, z, bytes).Ok? <==> |bytes| == |p.zvols[z].content|
  }

  /** Nothing can be written to it. */
  ghost predicate WriteProtected(p: Pool, z: ZvolName) {
    z in p.zvols && forall bytes :: SetContent(p, z, bytes).Err?
  }

  /** Only `z` is new, and a row for it. */
  ghost predicate OnlyZvolNew(d: Disk, z: ZvolName, e: Disk) {
    && Extends(d.pool, e.pool) && z !in d.pool.zvols && e.pool.zvols.Keys == d.pool.zvols.Keys + {z}
    && z !in d.rows && e.rows.Keys == d.rows.Keys + {z}
  }

  /** A new VDI: zeros, in the fewest whole blocks that hold `size` bytes. */
  lemma CreatedMeans(d: Disk, z: ZvolName, size: nat, thin: bool, block: nat, copies: nat, e: Disk)
    requires block > 0 && Created(d, z, size, thin, block, copies, e)
    ensures OnlyZvolNew(d, z, e) && e.pool.snaps == d.pool.snaps && Writable(e.pool, z)
    ensures var v := e.pool.zvols[z];
            && size <= v.props.volsize < size + block && v.props.volsize % block == 0
            && v.props.volblocksize == block && v.props.copies == copies
            && v.props.refreservation == (if thin then 0 else size * copies)
            && |v.content| == v.props.volsize && (forall i :: 0 <= i < |v.content| ==> v.content[i] == 0)
            && v.origin == None && e.rows[z] == Row(false, Some(v.props.volsize), None)
  {
    RoundUpOfMultiple(size, block);
  }

  /** A snapshot VDI: the bytes of the volume as they are, for nobody to write to, with no space reserved.
      A snapshot VDI with a parent left is itself no source; the parent is. */
  lemma SnapshotMeans(d: Disk, k: ZvolName, n: ZvolName, copies: nat, e: Disk)
    requires Valid(d.pool) && Snapshotted(d, k, n, copies, e)
    ensures OnlyZvolNew(d, n, e) && WriteProtected(e.pool, n)
    ensures e.pool.snaps.Keys == d.pool.snaps.Keys + {n.uuid} && n.uuid !in d.pool.snaps
    ensures var (source, v, s) := (e.pool.snaps[n.uuid].holder, e.pool.zvols[n], e.pool.snaps[n.uuid]);
            && source in d.pool.zvols && (!d.rows[k].snap ==> source == k)
            && (d.rows[k].snap && d.rows[k].parent.Some? && ZvolName(k.dataset, d.rows[k].parent.value) in d.rows ==>
                  source == ZvolName(k.dataset, d.rows[k].parent.value))
            && v.content == s.content == d.pool.zvols[source].content
            && v.props.volsize == s.volsize == d.pool.zvols[source].props.volsize
            && v.props.refreservation == 0 && v.props.copies == copies && v.origin == Some(n.uuid)
            && (forall t :: t in d.pool.snaps ==> d.pool.snaps[t].txg < s.txg)
            && e.rows[n].snap && e.rows[n].parent == if d.rows[k].snap then d.rows[k].parent else Some(k.uuid)
  {
  }

  /** A clone: the bytes of the snapshot, or of the volume as it is, to write to. Space is reserved for all
      its copies exactly if the zvol it comes from is thick. */
  lemma CloneMeans(d: Disk, k: ZvolName, z: ZvolName, copies: nat, e: Disk)
    requires Valid(d.pool) && Cloned(d, k, z, copies, e)
    ensures OnlyZvolNew(d, z, e) && Writable(e.pool, z)
    ensures d.rows[k].snap ==> e.pool.snaps == d.pool.snaps && e.pool.zvols[z].origin == Some(k.uuid)
    ensures !d.rows[k].snap ==> e.pool.zvols[z].origin.Some? && e.pool.zvols[z].origin.value !in d.pool.snaps
    ensures var source := if d.rows[k].snap then d.pool.snaps[k.uuid].holder else k;
            var (was, c) := (d.pool.zvols[source], e.pool.zvols[z]);
            && c.content == (if d.rows[k].snap then d.pool.snaps[k.uuid].content else was.content)
            && c.props.volsize == (if d.rows[k].snap then d.pool.snaps[k.uuid].volsize else was.props.volsize)
            && c.props.copies == copies
            && c.props.refreservation == (if was.props.refreservation > 0 then c.props.volsize * copies else 0)
    ensures !e.rows[z].snap && e.rows[z].parent == None && RowsUpToSize(d.rows, e.rows - {z}, k)
  {
    ForkWritable(d.pool, e.pool, k, d.rows[k].snap, z, copies);
  }

  lemma ForkWritable(p: Pool, q: Pool, k: ZvolName, snap: bool, z: ZvolName, copies: nat)
    requires ForkMade(p, q, k, snap, z, copies)
    ensures Writable(q, z)
  {
  }

  /** A copy on the same pool: the same, in the SR asked for. */
  lemma CopyWithinMeans(d: Disk, k: ZvolName, dstSr: Dataset, z: ZvolName, copies: nat, e: Disk)
    requires Valid(d.pool) && CopiedWithin(d, k, dstSr, z, copies, e)
    ensures OnlyZvolNew(d, z, e) && Writable(e.pool, z) && z.dataset == dstSr
    ensures CopyMeans(d.pool.zvols[k], e.pool.zvols[z], copies)
    ensures e.pool.zvols[z].origin.Some? && e.pool.zvols[z].origin.value !in d.pool.snaps
    ensures !e.rows[z].snap && e.rows[z].parent == None && RowsUpToSize(d.rows, e.rows - {z}, k)
  {
  }

  predicate CopyMeans(v: Zvol, c: Zvol, copies: nat) {
    && c.content == v.content && c.props.volsize == v.props.volsize && c.props.copies == copies
    && c.props.refreservation == if v.props.refreservation > 0 then c.props.volsize * copies else 0
  }

  /** A copy from another pool: the same, and no trace of a snapshot. */
  lemma CopyAcrossMeans(d: Disk, v: Zvol, recorded: Option<nat>, z: ZvolName, copies: nat, e: Disk)
    requires TookIn(d, v, recorded, z, copies, e)
    ensures OnlyZvolNew(d, z, e) && Writable(e.pool, z) && e.pool.snaps == d.pool.snaps
    ensures CopyMeans(v, e.pool.zvols[z], copies) && e.pool.zvols[z].origin == None
    ensures e.rows[z] == Row(false, recorded, None)
  {
  }

  /** A resized VDI: the fewest whole blocks that hold `newSize` bytes, of which all are as they were or new
      and zero. A thin one stays thin, and one that is thick has all its space reserved. */
  lemma ResizeMeans(d: Disk, k: ZvolName, newSize: nat, e: Disk)
    requires Valid(d.pool) && ResizeDone(d, k, newSize, e)
    ensures e.pool.snaps == d.pool.snaps && e.pool.zvols.Keys == d.pool.zvols.Keys && e.rows.Keys == d.rows.Keys
    ensures forall z :: z in d.pool.zvols && z != k ==> e.pool.zvols[z] == d.pool.zvols[z]
    ensures var (was, v) := (d.pool.zvols[k], e.pool.zvols[k]);
            && newSize <= v.props.volsize && e.rows[k].vsize == Some(v.props.volsize)
            && (if was.props.volblocksize > 0
                then v.props.volsize < newSize + was.props.volblocksize && v.props.volsize % was.props.volblocksize == 0
                else v.props.volsize == newSize)
            && |v.content| == v.props.volsize
            && (forall i :: 0 <= i < |v.content| ==> v.content[i] == if i < |was.content| then was.content[i] else 0)
            && v.props.copies == was.props.copies && v.props.readonly == was.props.readonly && v.origin == was.origin
            && (v.props.refreservation > 0 <==> was.props.refreservation > 0 && v.props.volsize * v.props.copies > 0)
            && (v.props.refreservation > 0 ==> v.props.refreservation == v.props.volsize * v.props.copies)
  {
    var was := d.pool.zvols[k];
    assert |was.content| == was.props.volsize;
    if was.props.volblocksize > 0 {
      RoundUpOfMultiple(newSize, was.props.volblocksize);
    }
  }

  /** With another number of copies the bytes are the same, a thin zvol stays thin, and one that is thick has
      space reserved for all of them. */
  lemma CopiesMeans(p: Pool, k: ZvolName, copies: nat, q: Pool)
    requires CopiesSet(p, k, copies, q)
    ensures q.snaps == p.snaps && q.zvols.Keys == p.zvols.Keys
    ensures forall z :: z in p.zvols && z != k ==> q.zvols[z] == p.zvols[z]
    ensures var (was, v) := (p.zvols[k], q.zvols[k]);
            && v.props.copies == copies && v.content == was.content && v.props.volsize == was.props.volsize
            && v.props.readonly == was.props.readonly && v.origin == was.origin
            && (v.props.refreservation > 0 <==> was.props.refreservation > 0 && v.props.volsize * copies > 0)
            && (v.props.refreservation > 0 ==> v.props.refreservation == v.props.volsize * copies)
  {
  }

  /** Nobody but the VDI destroyed has lost its row, and each clone made for it is a VDI, recorded with the
      size recorded for the VDI if there was one. */
  lemma DestroyedRows(d: Disk, k: ZvolName, made: seq<ZvolName>, e: Disk)
    requires VolumeDestroyed(d, k, made, e)
    ensures k !in e.rows && forall j :: j in d.rows && j != k ==> j in e.rows && e.rows[j] == d.rows[j]
    ensures forall j :: j in e.rows && j !in d.rows ==>
              && j in made && !e.rows[j].snap && e.rows[j].parent == None
              && e.rows[j].vsize == if d.rows[k].vsize.Some? then d.rows[k].vsize
                                    else Some(d.pool.zvols[k].props.volsize)
  {
  }

  /** An orphan cleanup of `sr` takes no zvol of another SR, with a row, in use or holding a snapshot, and no
      snapshot below another SR, with a row there, of a zvol in use or with a clone that stays; and under a
      grace period, nothing that is younger or of which the age is not known. */
  lemma CleanupMeans(p: Pool, rows: Rows, sr: Dataset, c: Cleanup, q: Pool)
    requires CleanedUp(p, rows, sr, c, q)
    ensures !c.enabled ==> q == p
    ensures forall z :: z in q.zvols ==> z in p.zvols && q.zvols[z] == p.zvols[z]
    ensures forall s :: s in q.snaps ==> s in p.snaps && q.snaps[s] == p.snaps[s]
    ensures forall z :: z in p.zvols && z !in q.zvols ==>
              && z.dataset == sr && z !in rows && z !in c.zvols.inUse
              && (forall s :: s in p.snaps ==> p.snaps[s].holder != z)
              && (c.grace > 0 ==> z in c.zvols.born && c.zvols.now >= c.zvols.born[z] + c.grace)
    ensures forall s :: s in p.snaps && s !in q.snaps ==>
              && p.snaps[s].holder.dataset == sr && ZvolName(sr, s) !in rows && p.snaps[s].holder !in c.snaps.inUse
              && (forall z :: z in q.zvols ==> q.zvols[z].origin != Some(s))
              && (c.grace > 0 ==> s in c.snaps.born && c.snaps.now >= c.snaps.born[s] + c.grace)
  {
  }

  /** And it takes every other one for which ZFS was not busy. */
  lemma CleanupReaches(p: Pool, rows: Rows, sr: Dataset, c: Cleanup, q: Pool, was: seq<Mishap>, now: seq<Mishap>)
    requires c.enabled && was <= now && CleanedUp(p, rows, sr, c, q) && WellSwept(p, rows, sr, c, q, was, now)
    ensures forall z :: (&& z in p.zvols && z.dataset == sr && z !in rows && z !in c.zvols.inUse
                         && (forall s :: s in p.snaps ==> p.snaps[s].holder != z)
                         && (c.grace <= 0 || (z in c.zvols.born && c.zvols.now >= c.zvols.born[z] + c.grace))
                         && Busy(PDestroyZvol(z)) !in now[|was|..])
                        ==> z !in q.zvols
    ensures forall s :: (&& s in p.snaps && p.snaps[s].holder.dataset == sr && ZvolName(sr, s) !in rows
                         && p.snaps[s].holder !in c.snaps.inUse
                         && (forall z :: z in q.zvols ==> q.zvols[z].origin != Some(s))
                         && (c.grace <= 0 || (s in c.snaps.born && c.snaps.now >= c.snaps.born[s] + c.grace))
                         && Busy(PDestroySnapshot(s)) !in now[|was|..])
                        ==> s !in q.snaps
  {
  }
}
