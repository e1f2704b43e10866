/** Runs of accepted operations that break a natural promise. Each starts on an empty pool; the
    operations may take any unused uuids, and these take the ones named here. */
module Witnesses {
  import opened Wrappers
  import opened ZfsPool
  import opened Promotion
  import opened Metabase
  import opened VolumeSpec
  import opened Runs
  import opened RunLaws
  import RecursiveDestroy

  const START := Disk(Pool(map[], map[], 0), map[])
  const PLAIN: Inherited := map[]

  // ----- how operations go through -----

  lemma Begin()
    ensures AcceptedRun(PLAIN, [], [START])
  {
  }

  lemma Longer(ops: seq<Op>, seen: seq<Disk>, op: Op, e: Disk) returns (ops': seq<Op>, seen': seq<Disk>)
    requires AcceptedRun(PLAIN, ops, seen) && |seen| == |ops| + 1 && Effect(PLAIN, seen[|ops|], op, e) && Valid(e.pool)
    ensures ops' == ops + [op] && seen' == seen + [e] && AcceptedRun(PLAIN, ops', seen')
  {
    hide Valid, Effect;
    ops', seen' := ops + [op], seen + [e];
    forall i | 0 <= i <= |ops'| ensures Valid(seen'[i].pool) {
      assert i <= |ops| ==> seen'[i] == seen[i];
    }
    forall i | 0 <= i < |ops'| ensures Effect(PLAIN, seen'[i], ops'[i], seen'[i + 1]) {
      if i < |ops| {
        assert seen'[i] == seen[i] && seen'[i + 1] == seen[i + 1] && ops'[i] == ops[i];
      }
    }
  }

  lemma Creates(d: Disk, z: ZvolName, size: nat) returns (e: Disk)
    requires Valid(d.pool) && Unused(d, z)
    ensures Valid(e.pool) && Effect(PLAIN, d, Create(z.dataset, size, true, 1, 0), e)
    ensures e ==
              Disk(d.pool.(zvols := d.pool.zvols[z := NewVolume(size, 1, 1, 0)]),
                   d.rows[z := Row(false, Some(size), None)])
  {
    e := Disk(d.pool.(zvols := d.pool.zvols[z := NewVolume(size, 1, 1, 0)]), d.rows[z := Row(false, Some(size), None)]);
    assert Created(d, z, size, true, 1, 1, e);
    ZvolStepKeepsValid(d.pool, e.pool);
  }

  lemma Snapshots(d: Disk, k: ZvolName, n: ZvolName) returns (e: Disk)
    requires Valid(d.pool) && k in d.rows && KnownSize(d, k).Some? && SnapshotSource(d.rows, k) in d.pool.zvols
    requires Unused(d, n) && n.dataset == k.dataset
    ensures Valid(e.pool) && Effect(PLAIN, d, Snapshot(k), e)
    ensures e == Disk(WithSnapshot(d.pool, SnapshotSource(d.rows, k), n, 1),
                      Recovered(d, k)[n := Row(true, KnownSize(d, k), if d.rows[k].snap then d.rows[k].parent
                                               else Some(k.uuid))])
  {
    var source := SnapshotSource(d.rows, k);
    e := Disk(WithSnapshot(d.pool, source, n, 1),
              Recovered(d, k)[n := Row(true, KnownSize(d, k), if d.rows[k].snap then d.rows[k].parent
                                       else Some(k.uuid))]);
    assert Snapshotted(d, k, n, CopiesIn(PLAIN, k.dataset), e);
    SnapshotKeepsValid(d.pool, source, n.uuid);
    var p := TakeSnapshot(d.pool, source, n.uuid).value;
    CloneKeepsValid(p, n.uuid, n, 1);
    ZvolStepKeepsValid(CloneSnapshot(p, n.uuid, n, 1).value, e.pool);
  }

  lemma Resizes(d: Disk, k: ZvolName, newSize: nat) returns (e: Disk)
    requires Valid(d.pool) && k in d.rows && k in d.pool.zvols && KnownSize(d, k).Some?
             && KnownSize(d, k).value <= newSize
    requires d.pool.zvols[k].props.volblocksize == 1
    ensures Valid(e.pool) && Effect(PLAIN, d, Resize(k, newSize), e)
    ensures e == Disk(d.pool.(zvols := d.pool.zvols[k := Synced(Resized(d.pool.zvols[k], newSize))]),
                      d.rows[k := d.rows[k].(vsize := Some(newSize))])
  {
    e := Disk(d.pool.(zvols := d.pool.zvols[k := Synced(Resized(d.pool.zvols[k], newSize))]),
              d.rows[k := d.rows[k].(vsize := Some(newSize))]);
    ZvolStepKeepsValid(d.pool, e.pool);
  }

  lemma Writes(d: Disk, k: ZvolName, data: Content) returns (e: Disk)
    requires Valid(d.pool) && k in d.pool.zvols && !d.pool.zvols[k].props.readonly
    requires |data| == |d.pool.zvols[k].content|
    ensures Valid(e.pool) && Effect(PLAIN, d, GuestWrite(k, data), e)
    ensures e == Disk(d.pool.(zvols := d.pool.zvols[k := d.pool.zvols[k].(content := data)]), d.rows)
  {
    e := Disk(d.pool.(zvols := d.pool.zvols[k := d.pool.zvols[k].(content := data)]), d.rows);
    ZvolStepKeepsValid(d.pool, e.pool);
  }

  /** A clone of the snapshot VDI `k`. */
  lemma ClonesSnapshot(d: Disk, k: ZvolName, z: ZvolName) returns (e: Disk)
    requires Valid(d.pool) && k in d.rows && d.rows[k].snap && KnownSize(d, k).Some?
             && FoundSnapshot(d.pool, k.dataset, k.uuid).Some?
    requires Unused(d, z) && z.dataset == k.dataset
    ensures k.uuid in d.pool.snaps && d.pool.snaps[k.uuid].holder in d.pool.zvols
    ensures Valid(e.pool) && Effect(PLAIN, d, Clone(k), e)
    ensures e == Disk(WithFork(d.pool, k.uuid, z, 1), Recovered(d, k)[z := Row(false, KnownSize(d, k), None)])
  {
    e := Disk(WithFork(d.pool, k.uuid, z, 1), Recovered(d, k)[z := Row(false, KnownSize(d, k), None)]);
    assert ForkMade(d.pool, e.pool, k, true, z, 1);
    assert Cloned(d, k, z, CopiesIn(PLAIN, k.dataset), e);
    CloneKeepsValid(d.pool, k.uuid, z, 1);
    ZvolStepKeepsValid(CloneSnapshot(d.pool, k.uuid, z, 1).value, e.pool);
  }

  /** A clone of the volume `k`, through a snapshot `t` taken on the spot. */
  lemma ClonesVolume(d: Disk, k: ZvolName, t: Uuid, z: ZvolName) returns (e: Disk)
    requires Valid(d.pool) && VolumeVdi(d, k) && k in d.pool.zvols && KnownSize(d, k).Some?
    requires t !in d.pool.snaps && z !in d.pool.zvols && z !in d.rows && z.dataset == k.dataset
    ensures Valid(e.pool) && Effect(PLAIN, d, Clone(k), e)
    ensures t in Sent(d.pool, k, t).snaps
    ensures e == Disk(WithFork(Sent(d.pool, k, t), t, z, 1), Recovered(d, k)[z := Row(false, KnownSize(d, k), None)])
  {
    var p := Sent(d.pool, k, t);
    e := Disk(WithFork(p, t, z, 1), Recovered(d, k)[z := Row(false, KnownSize(d, k), None)]);
    assert ForkMade(d.pool, e.pool, k, false, z, 1);
    assert Cloned(d, k, z, CopiesIn(PLAIN, k.dataset), e);
    SnapshotKeepsValid(d.pool, k, t);
    CloneKeepsValid(p, t, z, 1);
    ZvolStepKeepsValid(CloneSnapshot(p, t, z, 1).value, e.pool);
  }

  /** With a snapshot `t` of `k`. */
  function Sent(p: Pool, k: ZvolName, t: Uuid): Pool
    requires k in p.zvols
  {
    var v := p.zvols[k];
    p.(snaps := p.snaps[t := Snap(k, p.txg, v.content, v.props.volsize, v.props.volblocksize)], txg := p.txg + 1)
  }

  lemma CopiesToSr(d: Disk, k: ZvolName, t: Uuid, z: ZvolName) returns (e: Disk)
    requires Valid(d.pool) && VolumeVdi(d, k) && k in d.pool.zvols && KnownSize(d, k).Some?
    requires d.pool.zvols[k].props.refreservation == 0
    requires t !in d.pool.snaps && z !in d.pool.zvols && z !in d.rows
    ensures Valid(e.pool) && Effect(PLAIN, d, CopyWithin(k, z.dataset), e)
    ensures t in Sent(d.pool, k, t).snaps
    ensures e == Disk(WithFork(Sent(d.pool, k, t), t, z, 1), Recovered(d, k)[z := Row(false, KnownSize(d, k), None)])
  {
    var p := Sent(d.pool, k, t);
    e := Disk(WithFork(p, t, z, 1), Recovered(d, k)[z := Row(false, KnownSize(d, k), None)]);
    assert ForkedOff(d.pool, e.pool, k, z, 1);
    assert CopiedWithin(d, k, z.dataset, z, CopiesIn(PLAIN, z.dataset), e);
    SnapshotKeepsValid(d.pool, k, t);
    CloneKeepsValid(p, t, z, 1);
    ZvolStepKeepsValid(CloneSnapshot(p, t, z, 1).value, e.pool);
  }

  /** Destroying the volume `v` by way of `deps`, of which `made` are new in `p1`. */
  lemma Destroys(d: Disk, p1: Pool, v: ZvolName, snaps: seq<Uuid>, deps: seq<ZvolName>, made: seq<ZvolName>)
    returns (e: Disk)
    requires Valid(d.pool) && VolumeVdi(d, v) && v in d.pool.zvols && KnownSize(d, v).Some?
    requires Chosen(d.pool, p1, v, snaps, deps, made)
    requires forall c :: c in made ==> c !in d.rows && c.dataset == v.dataset
    ensures Valid(e.pool) && Effect(PLAIN, d, Destroy(v), e) && PromoteAll(p1, deps).Ok?
    ensures e.pool == PromoteAll(p1, deps).value.(zvols := PromoteAll(p1, deps).value.zvols - {v})
    ensures e.rows == (d.rows + (map c | c in made :: Row(false, KnownSize(d, v), None))) - {v}
  {
    hide Valid, Chosen, PromoteAll;
    LoopAccepted(d.pool, p1, v, snaps, deps, made);
    var q := PromoteAll(p1, deps).value;
    e := Disk(q.(zvols := q.zvols - {v}), (d.rows + (map c | c in made :: Row(false, KnownSize(d, v), None))) - {v});
    assert Freed(d.pool, q, v, made);
    assert VolumeGone(d.pool, e.pool, v, made);
    assert VolumeDestroyed(d, v, made, e);
    VolumeGoneMeans(d.pool, e.pool, v, made);
  }

  /** Destroying a volume with one snapshot `s`, the first clone of which is `c`. */
  lemma DestroysOne(d: Disk, v: ZvolName, s: Uuid, c: ZvolName) returns (e: Disk)
    requires Valid(d.pool) && VolumeVdi(d, v) && v in d.pool.zvols
    requires (forall t :: t in d.pool.snaps && d.pool.snaps[t].holder == v <==> t == s) && IsFirstClone(d.pool, c, s)
    ensures Valid(e.pool) && Effect(PLAIN, d, Destroy(v), e) && Promote(d.pool, c).Ok?
    ensures e.pool == Promote(d.pool, c).value.(zvols := Promote(d.pool, c).value.zvols - {v}) && e.rows == d.rows - {v}
  {
    hide Valid, Chosen, Effect, Promote, IsFirstClone;
    OneChosen(d.pool, v, s, c);
    e := Destroys(d, d.pool, v, [s], [c], []);
    assert PromoteAll(d.pool, [c]) == Promote(d.pool, c) by {
      OneTurn(d.pool, c);
    }
    assert (map x: ZvolName | x in [] :: Row(false, KnownSize(d, v), None)) == map[];
  }

  lemma OneChosen(p: Pool, v: ZvolName, s: Uuid, c: ZvolName)
    requires Valid(p) && (forall t :: t in p.snaps && p.snaps[t].holder == v <==> t == s) && IsFirstClone(p, c, s)
    ensures Chosen(p, p, v, [s], [c], [])
  {
    hide Valid;
    assert Picked(p, p, v.dataset, [s], [c], []) by {
      assert HasClone(p, s);
    }
  }

  lemma OneTurn(p: Pool, c: ZvolName)
    ensures PromoteAll(p, [c]) == Promote(p, c)
  {
  }

  // ----- a resize that cuts off data -----

  const V := ZvolName(1, 1)
  const S := ZvolName(1, 2)
  const N := ZvolName(1, 3)
  const C := ZvolName(1, 4)

  function TruncatingOps(small: nat, big: nat, data: Content): seq<Op> {
    [Create(1, small, true, 1, 0), Snapshot(V), Resize(V, big), Snapshot(S), Clone(N), GuestWrite(C, data),
     Resize(C, small)]
  }

  /** The snapshot of a snapshot VDI is one of its grown parent, but recorded with the old size, and so is
      a clone of it. A resize of that clone to the recorded size is accepted and cuts off its end. */
  lemma ResizeTruncates(small: nat, big: nat, data: Content) returns (seen: seq<Disk>)
    requires small < big == |data|
    ensures AcceptedRun(PLAIN, TruncatingOps(small, big, data), seen) && |seen| == 8 && seen[0] == START
    ensures C in seen[6].pool.zvols && seen[6].pool.zvols[C].content == data
    ensures C in seen[7].pool.zvols && seen[7].pool.zvols[C].content == data[..small]
            && seen[7].pool.zvols[C].props.volsize == small
  {
    hide Valid, Effect, AcceptedRun;
    var ops;
    ops, seen := MiscountedSnapshot(small, big);
    var d5 := ClonesSnapshot(seen[4], N, C);
    var d6 := Writes(d5, C, data);
    var d7 := Resizes(d6, C, small);
    ops, seen := Longer(ops, seen, Clone(N), d5);
    ops, seen := Longer(ops, seen, GuestWrite(C, data), d6);
    ops, seen := Longer(ops, seen, Resize(C, small), d7);
    assert ops == TruncatingOps(small, big, data);
  }

  /** A volume snapshotted small and then grown, and a snapshot of that snapshot VDI. */
  lemma MiscountedSnapshot(small: nat, big: nat) returns (ops: seq<Op>, seen: seq<Disk>)
    requires small < big
    ensures ops == [Create(1, small, true, 1, 0), Snapshot(V), Resize(V, big), Snapshot(S)]
    ensures AcceptedRun(PLAIN, ops, seen) && |seen| == 5 && seen[0] == START && Valid(seen[4].pool)
    ensures var d := seen[4];
            && d.rows ==
                 map[V := Row(false, Some(big), None), S := Row(true, Some(small), Some(V.uuid)),
                     N := Row(true, Some(small), Some(V.uuid))]
            && d.pool.zvols.Keys == {V, S, N} && d.pool.snaps.Keys == {S.uuid, N.uuid}
            && d.pool.snaps[N.uuid] == Snap(V, 1, Zeros(big), big, 1)
  {
    hide Valid, Effect, AcceptedRun, Zeros;
    Begin();
    var d1 := Creates(START, V, small);
    var d2 := Snapshots(d1, V, S);
    var d3 := Resizes(d2, V, big);
    assert d3.pool.zvols[V].content == Zeros(big) by {
      GrownZeros(small, big);
    }
    var d4 := Snapshots(d3, S, N);
    ops, seen := Longer([], [START], Create(1, small, true, 1, 0), d1);
    ops, seen := Longer(ops, seen, Snapshot(V), d2);
    ops, seen := Longer(ops, seen, Resize(V, big), d3);
    ops, seen := Longer(ops, seen, Snapshot(S), d4);
  }

  lemma GrownZeros(small: nat, big: nat)
    requires small < big
    ensures |Zeros(small)| == small && Resized(NewVolume(small, 1, 1, 0), big).content == Zeros(big)
  {
  }

  // ----- a copy that takes a snapshot VDI out of its SR -----

  /** Sorted by name, the archive comes first. */
  const ARCHIVE: Dataset := 1
  const OFFICE: Dataset := 2
  const BASE := ZvolName(OFFICE, 1)
  const BACKUP := ZvolName(OFFICE, 2)
  const WORK := ZvolName(OFFICE, 3)
  const TOKEN: Uuid := 4
  const COPY := ZvolName(ARCHIVE, 5)

  function LosingOps(size: nat): seq<Op> {
    [Create(OFFICE, size, true, 1, 0), Snapshot(BASE), Clone(BACKUP), CopyWithin(WORK, ARCHIVE), Destroy(WORK),
     Destroy(BASE)]
  }

  /** Nobody destroys the snapshot VDI and every operation is accepted, but its snapshot ends up on the copy
      in the other SR, where the driver does not look for it. */
  lemma SnapshotLostToOtherSr(size: nat) returns (seen: seq<Disk>)
    ensures AcceptedRun(PLAIN, LosingOps(size), seen) && |seen| == 7 && seen[0] == START
    ensures var e := seen[6];
            && BACKUP in e.rows && e.rows[BACKUP].snap && !Backed(e.pool, BACKUP, e.rows[BACKUP])
            && BACKUP.uuid in e.pool.snaps && e.pool.snaps[BACKUP.uuid].holder == COPY
  {
    hide Valid, Effect, AcceptedRun;
    Begin();
    var d1 := Creates(START, BASE, size);
    var d2 := Snapshots(d1, BASE, BACKUP);
    var ops;
    ops, seen := Longer([], [START], Create(OFFICE, size, true, 1, 0), d1);
    ops, seen := Longer(ops, seen, Snapshot(BASE), d2);
    ops, seen := CopiedToArchive(ops, seen, true);
    ops, seen := BothDestroyed(ops, seen, true);
    assert ops == LosingOps(size);
  }

  /** A volume and its snapshot VDI, the snapshot with a clone of its own or, as older revisions of the
      driver left it, without. */
  ghost predicate BackedUp(d: Disk, own: bool) {
    && Valid(d.pool) && d.pool.zvols.Keys == {BASE} + (if own then {BACKUP} else {})
    && d.pool.snaps.Keys == {BACKUP.uuid}
    && d.pool.zvols[BASE].origin == None && (own ==> d.pool.zvols[BACKUP].origin == Some(BACKUP.uuid))
    && d.pool.zvols[BASE].props.refreservation == 0 && d.pool.snaps[BACKUP.uuid].holder == BASE
    && d.rows.Keys == {BASE, BACKUP} && d.rows[BACKUP].snap && d.rows[BACKUP].vsize.Some? && !d.rows[BASE].snap
  }

  /** A clone of the snapshot VDI, and a copy of the clone in the archive. */
  lemma CopiedToArchive(ops: seq<Op>, seen: seq<Disk>, own: bool) returns (ops': seq<Op>, seen': seq<Disk>)
    requires AcceptedRun(PLAIN, ops, seen) && |seen| == |ops| + 1 && BackedUp(seen[|ops|], own)
    ensures ops' == ops + [Clone(BACKUP), CopyWithin(WORK, ARCHIVE)] && AcceptedRun(PLAIN, ops', seen')
    ensures |seen'| == |ops'| + 1 && seen'[0] == seen[0] && Valid(seen'[|ops'|].pool) && Copied(seen'[|ops'|], own)
  {
    hide Valid, Effect, AcceptedRun;
    var d3 := ClonesSnapshot(seen[|ops|], BACKUP, WORK);
    var d4 := CopiesToSr(d3, WORK, TOKEN, COPY);
    ops', seen' := Longer(ops, seen, Clone(BACKUP), d3);
    ops', seen' := Longer(ops', seen', CopyWithin(WORK, ARCHIVE), d4);
    assert ops' == ops + [Clone(BACKUP), CopyWithin(WORK, ARCHIVE)];
  }

  ghost predicate Copied(d: Disk, own: bool) {
    && d.pool.zvols.Keys == {BASE, WORK, COPY} + (if own then {BACKUP} else {})
    && d.pool.snaps.Keys == {BACKUP.uuid, TOKEN}
    && d.pool.zvols[BASE].origin == None && (own ==> d.pool.zvols[BACKUP].origin == Some(BACKUP.uuid))
    && d.pool.zvols[WORK].origin == Some(BACKUP.uuid) && d.pool.zvols[COPY].origin == Some(TOKEN)
    && d.pool.snaps[BACKUP.uuid].holder == BASE && d.pool.snaps[TOKEN].holder == WORK
    && d.rows.Keys == {BASE, BACKUP, WORK, COPY} && d.rows[BACKUP].snap && !d.rows[WORK].snap && !d.rows[BASE].snap
  }

  /** Both volumes of the office destroyed: the snapshot is now on the copy. */
  lemma BothDestroyed(ops: seq<Op>, seen: seq<Disk>, own: bool) returns (ops': seq<Op>, seen': seq<Disk>)
    requires AcceptedRun(PLAIN, ops, seen) && |seen| == |ops| + 1 && Valid(seen[|ops|].pool) && Copied(seen[|ops|], own)
    ensures ops' == ops + [Destroy(WORK), Destroy(BASE)] && AcceptedRun(PLAIN, ops', seen')
    ensures |seen'| == |ops'| + 1 && seen'[0] == seen[0] && Valid(seen'[|ops'|].pool) && OnCopy(seen'[|ops'|], own)
  {
    hide Valid, Effect, AcceptedRun, Promote, IsFirstClone;
    var d4 := seen[|ops|];
    OnlyClone(d4.pool, COPY, TOKEN);
    var d5 := DestroysOne(d4, WORK, TOKEN, COPY);
    WorkGone(d4, d5, own);
    CopyFirst(d5.pool);
    var d6 := DestroysOne(d5, BASE, BACKUP.uuid, COPY);
    BaseGone(d5, d6, own);
    ops', seen' := Longer(ops, seen, Destroy(WORK), d5);
    ops', seen' := Longer(ops', seen', Destroy(BASE), d6);
    assert ops' == ops + [Destroy(WORK), Destroy(BASE)];
  }

  lemma OnlyClone(p: Pool, z: ZvolName, s: Uuid)
    requires IsClone(p, z, s) && forall y :: IsClone(p, y, s) ==> y == z
    ensures IsFirstClone(p, z, s)
  {
  }

  /** The copy now hangs off the snapshot of the first volume, and holds the transient snapshot itself. */
  ghost predicate WithoutWork(d: Disk, own: bool) {
    && d.pool.zvols.Keys == {BASE, COPY} + (if own then {BACKUP} else {}) && d.pool.snaps.Keys == {BACKUP.uuid, TOKEN}
    && d.pool.zvols[BASE].origin == None && (own ==> d.pool.zvols[BACKUP].origin == Some(BACKUP.uuid))
    && d.pool.zvols[COPY].origin == Some(BACKUP.uuid)
    && d.pool.snaps[BACKUP.uuid].holder == BASE && d.pool.snaps[TOKEN].holder == COPY
    && d.rows.Keys == {BASE, BACKUP, COPY} && d.rows[BACKUP].snap && !d.rows[BASE].snap
  }

  lemma WorkGone(d: Disk, e: Disk, own: bool)
    requires Copied(d, own) && Promote(d.pool, COPY).Ok? && e.rows == d.rows - {WORK}
    requires e.pool == Promote(d.pool, COPY).value.(zvols := Promote(d.pool, COPY).value.zvols - {WORK})
    ensures WithoutWork(e, own)
  {
  }

  lemma CopyFirst(p: Pool)
    requires {BASE, COPY} <= p.zvols.Keys <= {BASE, BACKUP, COPY}
    requires p.zvols[BASE].origin == None && p.zvols[COPY].origin == Some(BACKUP.uuid)
    ensures IsFirstClone(p, COPY, BACKUP.uuid)
  {
  }

  ghost predicate OnCopy(d: Disk, own: bool) {
    && d.pool.zvols.Keys == {COPY} + (if own then {BACKUP} else {})
    && (own ==> d.pool.zvols[BACKUP].origin == Some(BACKUP.uuid))
    && d.pool.zvols[COPY].origin == None && d.rows.Keys == {BACKUP, COPY} && d.rows[BACKUP].snap
    && BACKUP.uuid in d.pool.snaps && d.pool.snaps[BACKUP.uuid].holder == COPY
    && !Backed(d.pool, BACKUP, d.rows[BACKUP])
  }

  lemma BaseGone(d: Disk, e: Disk, own: bool)
    requires WithoutWork(d, own) && Promote(d.pool, COPY).Ok? && e.rows == d.rows - {BASE}
    requires e.pool == Promote(d.pool, COPY).value.(zvols := Promote(d.pool, COPY).value.zvols - {BASE})
    ensures OnCopy(e, own)
  {
  }

  // ----- a snapshot VDI of an older revision -----

  /** A volume, and a snapshot VDI whose snapshot has no clone of its own. */
  function OldStart(size: nat): Disk {
    var base := NewVolume(size, 1, 1, 0);
    Disk(Pool(map[BASE := base], map[BACKUP.uuid := Snap(BASE, 0, base.content, size, 1)], 1),
         map[BASE := Row(false, Some(size), None), BACKUP := Row(true, Some(size), Some(BASE.uuid))])
  }

  /** Nothing in use, no grace period. */
  const SWEEP: Cleanup := Cleanup(true, 0, Signs({}, map[], 0), Signs({}, map[], 0))

  const SweptOps: seq<Op> :=
    [Clone(BACKUP), CopyWithin(WORK, ARCHIVE), Destroy(WORK), Destroy(BASE), CleanUpOrphans(ARCHIVE, SWEEP)]

  /** The snapshot has come to the archive, where no row speaks for it and nothing is cloned from it. The
      cleanup of the archive destroys it, and the snapshot VDI of the office is left with nothing. */
  lemma OldSnapshotSwept(size: nat) returns (seen: seq<Disk>)
    ensures AcceptedRun(PLAIN, SweptOps, seen) && |seen| == 6 && seen[0] == OldStart(size) && RowsPresent(seen[0], {})
    ensures BACKUP in seen[5].rows && seen[5].rows[BACKUP].snap && !Present(seen[5].pool, BACKUP, seen[5].rows[BACKUP])
  {
    hide Valid, Effect, AcceptedRun, OnCopy, BackedUp, Copied, OldStart;
    OldBegin(size);
    var ops;
    ops, seen := CopiedToArchive([], [OldStart(size)], false);
    ops, seen := BothDestroyed(ops, seen, false);
    var e := Swept(seen[4]);
    ops, seen := Longer(ops, seen, CleanUpOrphans(ARCHIVE, SWEEP), e);
    assert ops == SweptOps;
  }

  lemma OldBegin(size: nat)
    ensures AcceptedRun(PLAIN, [], [OldStart(size)]) && BackedUp(OldStart(size), false)
            && RowsPresent(OldStart(size), {})
  {
  }

  lemma Swept(d: Disk) returns (e: Disk)
    requires Valid(d.pool) && OnCopy(d, false)
    ensures Valid(e.pool) && Effect(PLAIN, d, CleanUpOrphans(ARCHIVE, SWEEP), e)
    ensures BACKUP in e.rows && e.rows[BACKUP].snap && !Present(e.pool, BACKUP, e.rows[BACKUP])
  {
    e := Disk(d.pool.(snaps := d.pool.snaps - {BACKUP.uuid}), d.rows);
    assert !HasClone(d.pool, BACKUP.uuid);
    DestroySnapshotKeepsValid(d.pool, BACKUP.uuid);
  }

  // ----- a snapshot VDI that cannot be destroyed -----

  /** Create, snapshot, destroy: nothing hangs off the snapshot but the clone made with it, and yet the
      snapshot VDI that is left can never be destroyed. */
  lemma SnapshotStuck(size: nat) returns (seen: seq<Disk>)
    ensures AcceptedRun(PLAIN, [Create(1, size, true, 1, 0), Snapshot(V), Destroy(V)], seen) && |seen| == 4
            && seen[0] == START
    ensures var e := seen[3];
              S in e.rows && e.rows[S].snap && Backed(e.pool, S, e.rows[S]) && !SnapshotDestroyable(e.pool, S)
  {
    hide Valid, Effect, AcceptedRun, Promote, IsFirstClone;
    Begin();
    var d1 := Creates(START, V, size);
    var d2 := Snapshots(d1, V, S);
    OnlyClone(d2.pool, S, S.uuid);
    var d3 := DestroysOne(d2, V, S.uuid, S);
    MovedOntoOwn(d2, d3);
    var ops;
    ops, seen := Longer([], [START], Create(1, size, true, 1, 0), d1);
    ops, seen := Longer(ops, seen, Snapshot(V), d2);
    ops, seen := Longer(ops, seen, Destroy(V), d3);
    assert ops == [Create(1, size, true, 1, 0), Snapshot(V), Destroy(V)];
  }

  lemma MovedOntoOwn(d: Disk, e: Disk)
    requires d.pool.snaps.Keys == {S.uuid} && d.pool.snaps[S.uuid].holder == V && S in d.pool.zvols
             && d.pool.zvols[S].origin == Some(S.uuid)
    requires S in d.rows && d.rows[S].snap && e.rows == d.rows - {V} && Promote(d.pool, S).Ok?
    requires e.pool == Promote(d.pool, S).value.(zvols := Promote(d.pool, S).value.zvols - {V})
    ensures S in e.rows && e.rows[S].snap && Backed(e.pool, S, e.rows[S]) && !SnapshotDestroyable(e.pool, S)
  {
    assert e.pool.snaps[S.uuid].holder == S;
  }

  // ----- a clone recorded with the size of its parent -----

  const T: Uuid := 2
  const FORK := ZvolName(1, 3)
  const HEIR := ZvolName(1, 4)

  function MiscountingOps(small: nat, big: nat): seq<Op> {
    [Create(1, small, true, 1, 0), Clone(V), Destroy(FORK), Resize(V, big), Destroy(V)]
  }

  /** The snapshot taken for a clone outlives it. When the volume has been resized and is destroyed, the
      clone made for that snapshot is as small as the volume was, but recorded with its new size. */
  lemma HeirMiscounted(small: nat, big: nat) returns (seen: seq<Disk>)
    requires small < big
    ensures AcceptedRun(PLAIN, MiscountingOps(small, big), seen) && |seen| == 6 && seen[0] == START
    ensures var e := seen[5];
              HEIR in e.rows && HEIR in e.pool.zvols && e.rows[HEIR].vsize == Some(big)
                  && e.pool.zvols[HEIR].props.volsize == small
  {
    hide Valid, Effect, AcceptedRun, HasClone;
    var ops;
    ops, seen := ForkedAndGrown(small, big);
    var d4 := seen[4];
    NoCloneOfT(d4.pool);
    var d5 := DestroysMaking(d4, V, T, HEIR);
    ops, seen := Longer(ops, seen, Destroy(V), d5);
    assert ops == MiscountingOps(small, big);
  }

  lemma NoCloneOfT(p: Pool)
    requires p.zvols.Keys == {V} && p.zvols[V].origin == None
    ensures !HasClone(p, T)
  {
  }

  /** A volume that was cloned, lost the clone, and grew. */
  lemma ForkedAndGrown(small: nat, big: nat) returns (ops: seq<Op>, seen: seq<Disk>)
    requires small < big
    ensures ops == [Create(1, small, true, 1, 0), Clone(V), Destroy(FORK), Resize(V, big)]
    ensures AcceptedRun(PLAIN, ops, seen) && |seen| == 5 && seen[0] == START && Valid(seen[4].pool)
    ensures var d := seen[4];
            && d.pool.zvols.Keys == {V} && d.pool.zvols[V].origin == None
            && d.rows == map[V := Row(false, Some(big), None)]
            && d.pool.snaps.Keys == {T} && d.pool.snaps[T].holder == V && d.pool.snaps[T].volsize == small
  {
    hide Valid, Effect, AcceptedRun, Resized;
    ops, seen := ForkLost(small);
    var d4 := Resizes(seen[3], V, big);
    ResizedOrigin(seen[3].pool.zvols[V], big);
    ops, seen := Longer(ops, seen, Resize(V, big), d4);
  }

  lemma ForkLost(small: nat) returns (ops: seq<Op>, seen: seq<Disk>)
    ensures ops == [Create(1, small, true, 1, 0), Clone(V), Destroy(FORK)]
    ensures AcceptedRun(PLAIN, ops, seen) && |seen| == 4 && seen[0] == START && Valid(seen[3].pool)
    ensures var d := seen[3];
            && d.pool.zvols == map[V := NewVolume(small, 1, 1, 0)] && d.rows == map[V := Row(false, Some(small), None)]
            && d.pool.snaps.Keys == {T} && d.pool.snaps[T].holder == V && d.pool.snaps[T].volsize == small
  {
    hide Valid, Effect, AcceptedRun, PromoteAll, Chosen, Zeros;
    Begin();
    var d1 := Creates(START, V, small);
    var d2 := ClonesVolume(d1, V, T, FORK);
    NoneHeld(d2.pool, FORK);
    var d3 := Destroys(d2, d2.pool, FORK, [], [], []);
    NoTurn(d2.pool);
    ops, seen := Longer([], [START], Create(1, small, true, 1, 0), d1);
    ops, seen := Longer(ops, seen, Clone(V), d2);
    ops, seen := Longer(ops, seen, Destroy(FORK), d3);
  }

  lemma ResizedOrigin(v: Zvol, volsize: nat)
    ensures Resized(v, volsize).origin == v.origin
  {
  }

  /** Destroying a volume whose one snapshot has no clone: `heir` is made and takes the snapshot. */
  lemma DestroysMaking(d: Disk, v: ZvolName, s: Uuid, heir: ZvolName) returns (e: Disk)
    requires Valid(d.pool) && VolumeVdi(d, v) && v in d.pool.zvols && KnownSize(d, v).Some?
    requires (forall t :: t in d.pool.snaps && d.pool.snaps[t].holder == v <==> t == s) && !HasClone(d.pool, s)
    requires heir !in d.pool.zvols && heir !in d.rows && heir.dataset == v.dataset
    ensures Valid(e.pool) && Effect(PLAIN, d, Destroy(v), e)
            && e.rows == d.rows[heir := Row(false, KnownSize(d, v), None)] - {v}
    ensures heir in e.pool.zvols && e.pool.zvols[heir].props.volsize == d.pool.snaps[s].volsize
  {
    hide Valid, Effect, Chosen, Promote, HasClone;
    var p1 := CloneSnapshot(d.pool, s, heir, 1).value;
    OneMade(d.pool, p1, v, s, heir);
    e := Destroys(d, p1, v, [s], [heir], [heir]);
    OneTurn(p1, heir);
    PromotedSize(p1, heir);
    assert (map c | c in [heir] :: Row(false, KnownSize(d, v), None)) == map[heir := Row(false, KnownSize(d, v), None)];
  }

  lemma OneMade(p: Pool, p1: Pool, v: ZvolName, s: Uuid, heir: ZvolName)
    requires Valid(p) && (forall t :: t in p.snaps && p.snaps[t].holder == v <==> t == s) && !HasClone(p, s)
    requires heir !in p.zvols && heir.dataset == v.dataset && CloneSnapshot(p, s, heir, 1) == Ok(p1)
    ensures Chosen(p, p1, v, [s], [heir], [heir])
  {
    CloneKeepsValid(p, s, heir, 1);
    hide Valid, HasClone;
    assert (set c | c in [heir]) == {heir};
    assert PickedOne(p, p1, v.dataset, s, heir, [heir]);
    assert Picked(p, p1, v.dataset, [s], [heir], [heir]);
  }

  lemma PromotedSize(p: Pool, z: ZvolName)
    requires Promote(p, z).Ok?
    ensures z in Promote(p, z).value.zvols && Promote(p, z).value.zvols[z].props == p.zvols[z].props
  {
  }

  lemma NoneHeld(p: Pool, v: ZvolName)
    requires Valid(p) && !HoldsSnapshot(p, v)
    ensures Chosen(p, p, v, [], [], [])
  {
    hide Valid;
  }

  lemma NoTurn(p: Pool)
    ensures PromoteAll(p, []) == Ok(p)
  {
  }

  // ----- an SR that cannot be destroyed -----

  const LATE := ZvolName(1, 2)
  const EARLY := ZvolName(1, 1)

  /** One snapshot whose random uuid sorts before that of its volume: the SR's nodes, destroyed from the
      last to the first by name, are not in order. */
  lemma SrStuck(size: nat) returns (seen: seq<Disk>)
    ensures AcceptedRun(PLAIN, [Create(1, size, true, 1, 0), Snapshot(LATE)], seen) && |seen| == 3 && seen[0] == START
    ensures RecursiveDestroy.ListedByName(seen[2].pool, 1, EarlyFirst())
    ensures !RecursiveDestroy.Ordered(seen[2].pool, 1, RecursiveDestroy.AllNodes(seen[2].pool), EarlyFirst())
  {
    hide Valid, Effect, AcceptedRun, RecursiveDestroy.ListedByName, RecursiveDestroy.Ordered;
    Begin();
    var d1 := Creates(START, LATE, size);
    var d2 := Snapshots(d1, LATE, EARLY);
    var ops;
    ops, seen := Longer([], [START], Create(1, size, true, 1, 0), d1);
    ops, seen := Longer(ops, seen, Snapshot(LATE), d2);
    assert ops == [Create(1, size, true, 1, 0), Snapshot(LATE)];
    assert !RecursiveDestroy.CloneSortsLater(d2.pool, 1, EARLY);
    SortedEarlyFirst(d2.pool);
    RecursiveDestroy.OrderedIff(d2.pool, 1, EarlyFirst());
  }

  function EarlyFirst(): seq<RecursiveDestroy.Node> {
    [RecursiveDestroy.Root, RecursiveDestroy.Vol(EARLY), RecursiveDestroy.Vol(LATE),
     RecursiveDestroy.Snapshot(EARLY.uuid)]
  }

  lemma SortedEarlyFirst(p: Pool)
    requires p.zvols.Keys == {EARLY, LATE} && p.snaps.Keys == {EARLY.uuid} && p.snaps[EARLY.uuid].holder == LATE
    ensures RecursiveDestroy.ListedByName(p, 1, EarlyFirst())
  {
    var listing := EarlyFirst();
    forall n ensures n in listing <==> RecursiveDestroy.InSr(p, 1, n) {
      assert listing[0] in listing && listing[1] in listing && listing[2] in listing && listing[3] in listing;
    }
  }
}
