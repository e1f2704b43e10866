/** What survives a crash: the pool and the committed metabase rows, and what it means for the two
    to agree. */
module Metabase {
  import opened Wrappers
  import opened ZfsPool

  /** A VDI row. `vsize` is NULL while a resize is under way; `parent` is the VDI whose volume is the
      parent volume of a snapshot. */
  datatype Row = Row(snap: bool, vsize: Option<nat>, parent: Option<Uuid>)

  /** Rows of every SR on the pool, keyed by SR dataset and VDI uuid. */
  type Rows = map<ZvolName, Row>

  datatype Disk = Disk(pool: Pool, rows: Rows)

  // ----- agreement between rows and pool -----

  /** A clone and the zvol holding its origin belong to the same SR. */
  ghost predicate SameSr(p: Pool) {
    forall z :: z in p.zvols && p.zvols[z].origin.Some? && p.zvols[z].origin.value in p.snaps
                ==> p.snaps[p.zvols[z].origin.value].holder.dataset == z.dataset
  }

  /** `find_snapshot_by_uuid`: the current name of a snapshot, looked for below one SR dataset. */
  function FoundSnapshot(p: Pool, sr: Dataset, id: Uuid): Option<SnapName> {
    if id in p.snaps && p.snaps[id].holder.dataset == sr then Some(SnapName(p.snaps[id].holder, id)) else None
  }

  /** A snapshot VDI has its snapshot somewhere in the pool, any other VDI its zvol. */
  predicate Present(p: Pool, k: ZvolName, row: Row) {
    if row.snap then k.uuid in p.snaps else k in p.zvols
  }

  /** A snapshot VDI has its snapshot below its own SR dataset, any other VDI its zvol. */
  predicate Backed(p: Pool, k: ZvolName, row: Row) {
    if row.snap then FoundSnapshot(p, k.dataset, k.uuid).Some? else k in p.zvols
  }

  /** The recorded size is either unknown or the size of the zvol. */
  predicate SizeOk(p: Pool, k: ZvolName, row: Row) {
    k in p.zvols && row.vsize.Some? ==> row.vsize.value == p.zvols[k].props.volsize
  }

  /** The materialised clone of a snapshot VDI hangs off its snapshot, or has come to hold it. */
  predicate Anchored(p: Pool, k: ZvolName, row: Row) {
    row.snap ==> IsClone(p, k, k.uuid) || (k.uuid in p.snaps && p.snaps[k.uuid].holder == k)
  }

  /** `doomed` are the VDIs whose destruction has been asked for. */
  ghost predicate RowsPresent(d: Disk, doomed: set<ZvolName>) {
    forall k :: k in d.rows && k !in doomed ==> Present(d.pool, k, d.rows[k])
  }

  ghost predicate RowsBacked(d: Disk, doomed: set<ZvolName>) {
    forall k :: k in d.rows && k !in doomed ==> Backed(d.pool, k, d.rows[k])
  }

  ghost predicate RowsAnchored(d: Disk, doomed: set<ZvolName>) {
    forall k :: k in d.rows && k !in doomed ==> Anchored(d.pool, k, d.rows[k])
  }

  ghost predicate SizesRight(d: Disk) {
    forall k :: k in d.rows ==> SizeOk(d.pool, k, d.rows[k])
  }

  /** What holds only as long as no operation breaks it: that clones stay in the SR of their origin, that
      snapshots stay below the SR of their VDI, and that every recorded size is right. */
  datatype Promises = Promises(oneSr: bool, inSr: bool, sized: bool)

  predicate AtLeast(a: Promises, b: Promises) {
    (b.oneSr ==> a.oneSr) && (b.inSr ==> a.inSr) && (b.sized ==> a.sized)
  }

  ghost predicate Sound(d: Disk, doomed: set<ZvolName>, kept: Promises) {
    && Valid(d.pool)
    && RowsPresent(d, doomed)
    && (kept.oneSr ==> SameSr(d.pool))
    && (kept.inSr ==> RowsBacked(d, doomed))
    && (kept.sized ==> SizesRight(d))
  }

  // ----- what a primitive may do -----

  /** Promoting `z` moves the snapshot `s`. */
  predicate Moves(p: Pool, z: ZvolName, s: Uuid) {
    && z in p.zvols && p.zvols[z].origin.Some? && p.zvols[z].origin.value in p.snaps && s in p.snaps
    && p.snaps[s].holder == p.snaps[p.zvols[z].origin.value].holder
    && p.snaps[s].txg <= p.snaps[p.zvols[z].origin.value].txg
  }

  /** Promoting `z` takes no snapshot VDI out of its SR. */
  ghost predicate MovesHome(d: Disk, doomed: set<ZvolName>, z: ZvolName) {
    forall k :: k in d.rows && k !in doomed && d.rows[k].snap && Moves(d.pool, z, k.uuid) ==> k.dataset == z.dataset
  }

  /** The zvol that promoting `z` takes snapshots from is not the materialised clone of a snapshot VDI. */
  ghost predicate LeavesAnchors(d: Disk, doomed: set<ZvolName>, z: ZvolName) {
    z in d.pool.zvols && d.pool.zvols[z].origin.Some? && d.pool.zvols[z].origin.value in d.pool.snaps ==>
      var h := d.pool.snaps[d.pool.zvols[z].origin.value].holder;
      h in d.rows && d.rows[h].snap ==> h in doomed
  }

  /** Primitives that take nothing away from a row that is not doomed and break none of the promises. */
  ghost predicate Harmless(d: Disk, doomed: set<ZvolName>, kept: Promises, c: Prim) {
    match c
    case PCreate(z, _) => z !in d.rows
    case PReceive(z, _, _, _) => z !in d.rows
    case PClone(s, z, _) =>
      z !in d.rows && (kept.oneSr && s in d.pool.snaps ==> d.pool.snaps[s].holder.dataset == z.dataset)
    case PPromote(z) => LeavesAnchors(d, doomed, z) && (kept.inSr ==> MovesHome(d, doomed, z))
    case PDestroyZvol(z) => z in d.rows ==> z in doomed
    case PDestroySnapshot(s) =>
      HasClone(d.pool, s) || forall k :: k in d.rows && k.uuid == s && d.rows[k].snap ==> k in doomed
    case PResize(z, _) => kept.sized && z in d.rows ==> d.rows[z].vsize.None?
    case _ => true
  }

  lemma HarmlessKeepsSound(d: Disk, doomed: set<ZvolName>, kept: Promises, c: Prim)
    requires Sound(d, doomed, kept) && Harmless(d, doomed, kept, c)
    ensures Sound(Disk(After(d.pool, c), d.rows), doomed, kept)
  {
    StepKeepsValid(d.pool, c);
    StepKeepsPresent(d, doomed, kept, c);
    if kept.oneSr {
      StepKeepsSameSr(d, doomed, kept, c);
    }
    if kept.inSr {
      StepKeepsBacked(d, doomed, kept, c);
    }
    if kept.sized {
      StepKeepsSizes(d, doomed, kept, c);
    }
  }

  lemma StepKeepsPresent(d: Disk, doomed: set<ZvolName>, kept: Promises, c: Prim)
    requires Valid(d.pool) && RowsPresent(d, doomed) && Harmless(d, doomed, kept, c)
    ensures RowsPresent(Disk(After(d.pool, c), d.rows), doomed)
  {
    var q := After(d.pool, c);
    forall k | k in d.rows && k !in doomed ensures Present(q, k, d.rows[k]) {
      assert Present(d.pool, k, d.rows[k]);
    }
  }

  lemma StepKeepsSameSr(d: Disk, doomed: set<ZvolName>, kept: Promises, c: Prim)
    requires Valid(d.pool) && SameSr(d.pool) && kept.oneSr && Harmless(d, doomed, kept, c)
    ensures SameSr(After(d.pool, c))
  {
    var p, q := d.pool, After(d.pool, c);
    if Apply(p, c).Ok? {
      match c
      case PPromote(z) => PromoteKeepsSameSr(p, z);
      case PSnapshot(_, _) =>
        forall y | y in q.zvols && q.zvols[y].origin.Some? && q.zvols[y].origin.value in q.snaps
          ensures q.snaps[q.zvols[y].origin.value].holder.dataset == y.dataset {
          assert OriginOlder(p, y);
        }
      case PReceive(_, _, _, _) =>
        forall y | y in q.zvols && q.zvols[y].origin.Some? && q.zvols[y].origin.value in q.snaps
          ensures q.snaps[q.zvols[y].origin.value].holder.dataset == y.dataset {
          assert OriginOlder(p, y);
        }
      case _ =>
    }
  }

  lemma PromoteKeepsSameSr(p: Pool, z: ZvolName)
    requires Valid(p) && SameSr(p) && Promote(p, z).Ok?
    ensures SameSr(Promote(p, z).value)
  {
    assert OriginOlder(p, z);
    var h := p.snaps[p.zvols[z].origin.value].holder;
    assert p.zvols[h].origin.Some? ==> OriginOlder(p, h);
  }

  /** Any primitive but promotion keeps snapshots where they are, whatever SR a clone is made in. */
  lemma StepKeepsBacked(d: Disk, doomed: set<ZvolName>, kept: Promises, c: Prim)
    requires Valid(d.pool) && RowsBacked(d, doomed) && kept.inSr && Harmless(d, doomed, kept, c)
    ensures RowsBacked(Disk(After(d.pool, c), d.rows), doomed)
  {
    var q := After(d.pool, c);
    forall k | k in d.rows && k !in doomed ensures Backed(q, k, d.rows[k]) {
      assert Backed(d.pool, k, d.rows[k]);
      if c.PPromote? && Apply(d.pool, c).Ok? && d.rows[k].snap {
        assert OriginOlder(d.pool, c.z);
        assert Moves(d.pool, c.z, k.uuid) ==> k.dataset == c.z.dataset;
      }
    }
  }

  lemma StepKeepsSizes(d: Disk, doomed: set<ZvolName>, kept: Promises, c: Prim)
    requires SizesRight(d) && kept.sized && Harmless(d, doomed, kept, c)
    ensures SizesRight(Disk(After(d.pool, c), d.rows))
  {
    var q := After(d.pool, c);
    forall k | k in d.rows ensures SizeOk(q, k, d.rows[k]) {
      assert SizeOk(d.pool, k, d.rows[k]);
    }
  }

  lemma StepKeepsAnchors(d: Disk, doomed: set<ZvolName>, kept: Promises, c: Prim)
    requires Valid(d.pool) && RowsAnchored(d, doomed) && Harmless(d, doomed, kept, c)
    ensures RowsAnchored(Disk(After(d.pool, c), d.rows), doomed)
  {
    var q := After(d.pool, c);
    forall k | k in d.rows && k !in doomed ensures Anchored(q, k, d.rows[k]) {
      assert Anchored(d.pool, k, d.rows[k]);
      if c.PPromote? && Apply(d.pool, c).Ok? && d.rows[k].snap {
        assert OriginOlder(d.pool, c.z);
      }
    }
  }

  // ----- crashes -----

  /** Every state in `history`, oldest first, is sound. */
  ghost predicate AllSound(history: seq<Disk>, doomed: set<ZvolName>, kept: Promises) {
    history == [] || (Sound(history[|history| - 1], doomed, kept) && AllSound(history[..|history| - 1], doomed, kept))
  }

  lemma {:induction false} SoundAt(history: seq<Disk>, doomed: set<ZvolName>, kept: Promises, d: Disk)
    requires AllSound(history, doomed, kept) && d in history
    ensures Sound(d, doomed, kept)
  {
    if d != history[|history| - 1] {
      SoundAt(history[..|history| - 1], doomed, kept, d);
    }
  }

  /** Asking for another destruction, or giving up a promise, leaves the past as sound as is still claimed. */
  lemma {:induction false} LessClaimed(history: seq<Disk>, doomed: set<ZvolName>, more: set<ZvolName>, kept: Promises,
                                       less: Promises)
    requires AllSound(history, doomed, kept) && doomed <= more && AtLeast(kept, less)
    ensures AllSound(history, more, less)
  {
    if history != [] {
      LessClaimed(history[..|history| - 1], doomed, more, kept, less);
      var d := history[|history| - 1];
      forall j | j in d.rows && j !in more
        ensures Present(d.pool, j, d.rows[j]) && (less.inSr ==> Backed(d.pool, j, d.rows[j])) {
        assert j !in doomed;
      }
    }
  }

  lemma OneMore(history: seq<Disk>, doomed: set<ZvolName>, kept: Promises, d: Disk)
    requires AllSound(history, doomed, kept) && Sound(d, doomed, kept)
    ensures AllSound(history + [d], doomed, kept)
  {
    assert (history + [d])[..|history|] == history;
  }
}
