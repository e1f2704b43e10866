/** What the volume operations are meant to do: the state each of them leaves when it is accepted, and
    what a step may and may not touch. */
module VolumeSpec {
  import opened Wrappers
  import opened ZfsPool
  import opened Promotion
  import opened Metabase

  datatype DriverError =
    | NoSuchVdi
    | SnapshotMissing
    | SnapshotHasDependents
    | InsufficientSpace
    | ShrinkRejected
    | NoSuchZvol
    | AlreadyRegistered
    | InvalidValue
    | CommitFailed
    | ZfsFailed(errno: Errno)

  // ----- what goes wrong -----

  /** ZFS stays busy through all retries of a command, a commit fails, a stream between pools breaks. */
  datatype Mishap = Busy(c: Prim) | CommitLost | StreamBroken

  /** A command, or a series of commands stopped by the first that fails, has met with a busy device
      exactly if that is what it reports. */
  predicate Told(e: Option<Errno>, was: seq<Mishap>, now: seq<Mishap>) {
    if e == Some(EBUSY) then |now| == |was| + 1 && now[..|was|] == was && now[|was|].Busy? else now == was
  }

  /** An operation has been stopped by the one mishap it reports, if it reports one. */
  predicate Blamed(error: Option<DriverError>, was: seq<Mishap>, now: seq<Mishap>) {
    if error == Some(CommitFailed) then now == was + [CommitLost]
    else Told(if error == Some(ZfsFailed(EBUSY)) then Some(EBUSY) else None, was, now)
  }

  /** ZFS answered busy for the command `c` in between. */
  predicate WasBusy(was: seq<Mishap>, now: seq<Mishap>, c: Prim) {
    was <= now && Busy(c) in now[|was|..]
  }

  function ErrorOf<T>(r: Result<T, DriverError>): Option<DriverError> {
    if r.Ok? then None else Some(r.error)
  }

  // ----- sizes and reservations -----

  function RoundUp(size: nat, block: nat): nat
    requires block > 0
  {
    (size + block - 1) / block * block
  }

  lemma RoundUpOfMultiple(size: nat, block: nat)
    requires block > 0
    ensures RoundUp(size, block) == size <==> size % block == 0
    ensures size <= RoundUp(size, block) < size + block && RoundUp(size, block) % block == 0
  {
    var q, m := size / block, size % block;
    assert size == q * block + m;
    if m == 0 {
      DivUnique(size + block - 1, block, q, block - 1);
    } else {
      DivUnique(size + block - 1, block, q + 1, m - 1);
    }
    ModOfProduct((size + block - 1) / block, block);
  }

  lemma DivUnique(x: int, d: nat, q: int, m: nat)
    requires d > 0 && m < d && x == q * d + m
    ensures x / d == q && x % d == m
  {
    var a := x / d;
    assert x == a * d + x % d;
    assert a < q ==> (a + 1) * d <= q * d;
    assert a > q ==> (q + 1) * d <= a * d;
  }

  lemma ModOfProduct(q: int, d: nat)
    requires d > 0
    ensures q * d % d == 0
  {
    DivUnique(q * d, d, q, 0);
  }

  /** The size ZFS gives a zvol it is asked to resize. */
  function BlockSize(size: nat, block: nat): nat {
    if block > 0 then RoundUp(size, block) else size
  }

  lemma BlockSizeGrows(a: nat, b: nat, block: nat)
    requires a <= b
    ensures a <= BlockSize(a, block) <= BlockSize(b, block)
  {
    if block > 0 {
      RoundUpOfMultiple(a, block);
      QuotientGrows(a + block - 1, b + block - 1, block);
      ProductGrows((a + block - 1) / block, (b + block - 1) / block, block);
    }
  }

  lemma QuotientGrows(x: nat, y: nat, d: nat)
    requires d > 0 && x <= y
    ensures x / d <= y / d
  {
    var a, b := x / d, y / d;
    assert a * d <= x && y < b * d + d;
    assert a > b ==> a * d >= (b + 1) * d;
  }

  lemma ProductGrows(x: nat, y: nat, d: nat)
    requires x <= y
    ensures x * d <= y * d
  {
  }

  function Reservation(size: nat, copies: nat): nat {
    size * copies
  }

  /** Thin, or thick with exactly the space its copies can need. */
  predicate ThickOk(props: Props) {
    props.refreservation == 0 || props.refreservation == props.volsize * props.copies
  }

  ghost predicate AllThickOk(p: Pool) {
    forall z :: z in p.zvols ==> ThickOk(p.zvols[z].props)
  }

  /** Every zvol outside `loose` has the properties it had, or a reservation that fits. */
  ghost predicate Tight(p: Pool, q: Pool, loose: set<ZvolName>) {
    forall z :: z in q.zvols && z !in loose ==>
      ThickOk(q.zvols[z].props) || (z in p.zvols && q.zvols[z].props == p.zvols[z].props)
  }

  /** The properties of a copy of `v`: as large, writable, and thick exactly if `v` is. */
  function CopyProps(v: Zvol, copies: nat): Props {
    Props(v.props.volsize, v.props.volblocksize, copies,
          if v.props.refreservation > 0 then Reservation(v.props.volsize, copies) else 0, false)
  }

  // ----- what a step keeps -----

  /** How a command ends: done, refused for the reason given, or busy. */
  predicate Outcome(p: Pool, r: Result<Pool, Errno>, e: Option<Errno>, q: Pool) {
    if e.None? then r == Ok(q) else q == p && (e.value == EBUSY || r == Err(e.value))
  }

  /** Every snapshot and every zvol outside `lost` is still there, bytes and properties unchanged. */
  ghost predicate DataKept(p: Pool, q: Pool, lost: set<ZvolName>) {
    && (forall z :: z in p.zvols && z !in lost ==>
          z in q.zvols && q.zvols[z].content == p.zvols[z].content && q.zvols[z].props == p.zvols[z].props)
    && (forall s :: s in p.snaps ==> s in q.snaps && SameSnapshot(p.snaps[s], q.snaps[s]))
  }

  /** Everything that was there is there and as it was. */
  ghost predicate Extends(p: Pool, q: Pool) {
    && (forall z :: z in p.zvols ==> z in q.zvols && q.zvols[z] == p.zvols[z])
    && (forall s :: s in p.snaps ==> s in q.snaps && q.snaps[s] == p.snaps[s])
  }

  // ----- the effect of the operations -----

  /** The size of a VDI as the next operation sees it. */
  function KnownSize(d: Disk, k: ZvolName): Option<nat> {
    if k in d.rows && d.rows[k].vsize.Some? then d.rows[k].vsize
    else if k in d.rows && k in d.pool.zvols then Some(d.pool.zvols[k].props.volsize)
    else None
  }

  /** The rows with the size of `k` recovered. */
  function Recovered(d: Disk, k: ZvolName): Rows
    requires k in d.rows
  {
    d.rows[k := d.rows[k].(vsize := KnownSize(d, k))]
  }

  /** At most the recorded size of `k` differs. */
  ghost predicate RowsUpToSize(a: Rows, b: Rows, k: ZvolName) {
    b == a || (k in a && k in b && b == a[k := a[k].(vsize := b[k].vsize)])
  }

  /** A name nothing and nobody has used. */
  ghost predicate Unused(d: Disk, z: ZvolName) {
    z !in d.rows && z !in d.pool.zvols && z.uuid !in d.pool.snaps
  }

  /** An empty zvol that is no clone. */
  function NewVolume(volsize: nat, volblocksize: nat, copies: nat, reservation: nat): Zvol {
    Zvol(Zeros(volsize), Props(volsize, volblocksize, copies, reservation, false), None)
  }

  /** After `Volume.create`: one empty zvol with its row. A thick one is reserved the size asked for. */
  ghost predicate Created(d: Disk, z: ZvolName, size: nat, thin: bool, block: nat, copies: nat, e: Disk)
    requires block > 0
  {
    && Unused(d, z)
    && var reservation := if thin then 0 else Reservation(size, copies);
       e == Disk(d.pool.(zvols := d.pool.zvols[z := NewVolume(RoundUp(size, block), block, copies, reservation)]),
                 d.rows[z := Row(false, Some(RoundUp(size, block)), None)])
  }

  /** The VDI whose zvol `Volume.snapshot` snapshots: for a snapshot VDI, the VDI it was taken of. */
  function SnapshotSource(rows: Rows, k: ZvolName): ZvolName
    requires k in rows
  {
    if rows[k].snap && rows[k].parent.Some? && ZvolName(k.dataset, rows[k].parent.value) in rows
    then ZvolName(k.dataset, rows[k].parent.value)
    else k
  }

  /** One new snapshot with the current bytes of `source`, one new read-only clone of it, nothing else. */
  function WithSnapshot(p: Pool, source: ZvolName, clone: ZvolName, copies: nat): Pool
    requires source in p.zvols
  {
    var v := p.zvols[source];
    var props := Props(v.props.volsize, v.props.volblocksize, copies, 0, true);
    p.(snaps := p.snaps[clone.uuid := Snap(source, p.txg, v.content, v.props.volsize, v.props.volblocksize)],
       zvols := p.zvols[clone := Zvol(v.content, props, Some(clone.uuid))],
       txg := p.txg + 1)
  }

  /** After `Volume.snapshot`: the new VDI `n` is in the SR of `k`, recorded with the size known for `k`. */
  ghost predicate Snapshotted(d: Disk, k: ZvolName, n: ZvolName, copies: nat, e: Disk) {
    && k in d.rows && KnownSize(d, k).Some? && SnapshotSource(d.rows, k) in d.pool.zvols
    && Unused(d, n) && n.dataset == k.dataset
    && e.pool == WithSnapshot(d.pool, SnapshotSource(d.rows, k), n, copies)
    && e.rows ==
         Recovered(d, k)[n := Row(true, KnownSize(d, k), if d.rows[k].snap then d.rows[k].parent else Some(k.uuid))]
  }

  /** The size recorded for the snapshot is that of the zvol it is taken of. */
  predicate SnapshotSized(d: Disk, k: ZvolName) {
    k in d.rows && SnapshotSource(d.rows, k) in d.pool.zvols ==>
        KnownSize(d, k) == Some(d.pool.zvols[SnapshotSource(d.rows, k)].props.volsize)
  }

  /** The pool after a clone of the snapshot `id` has been made, thick if the snapshot's holder is. */
  function WithFork(p: Pool, id: Uuid, clone: ZvolName, copies: nat): Pool
    requires id in p.snaps && p.snaps[id].holder in p.zvols
  {
    var s := p.snaps[id];
    var reservation := if p.zvols[s.holder].props.refreservation > 0 then Reservation(s.volsize, copies) else 0;
    var props := Props(s.volsize, s.volblocksize, copies, reservation, false);
    p.(zvols := p.zvols[clone := Zvol(s.content, props, Some(id))])
  }

  /** `p` with a snapshot of `k` added if `k` is no snapshot VDI, and the clone `z` of it. */
  ghost predicate ForkMade(p: Pool, q: Pool, k: ZvolName, snap: bool, z: ZvolName, copies: nat) {
    && z in q.zvols && z !in p.zvols && q.zvols[z].origin.Some?
    && var id := q.zvols[z].origin.value;
       var base := if snap then Ok(p) else TakeSnapshot(p, k, id);
       && (snap ==> id == k.uuid)
       && base.Ok? && id in base.value.snaps && base.value.snaps[id].holder in base.value.zvols
       && q == WithFork(base.value, id, z, copies)
  }

  /** What a clone of `k` would be made of is there. */
  predicate Cloneable(d: Disk, k: ZvolName) {
    k in d.rows && if d.rows[k].snap then FoundSnapshot(d.pool, k.dataset, k.uuid).Some? else k in d.pool.zvols
  }

  /** After `Volume.clone`, in the SR of `k`. */
  ghost predicate Cloned(d: Disk, k: ZvolName, z: ZvolName, copies: nat, e: Disk) {
    && KnownSize(d, k).Some? && Cloneable(d, k) && z !in d.rows && z.dataset == k.dataset
    && ForkMade(d.pool, e.pool, k, d.rows[k].snap, z, copies)
    && e.rows == Recovered(d, k)[z := Row(false, KnownSize(d, k), None)]
  }

  /** The size recorded for the clone is that of what it is a clone of. */
  predicate CloneSized(d: Disk, k: ZvolName) {
    k in d.rows ==>
      if d.rows[k].snap then k.uuid in d.pool.snaps ==> KnownSize(d, k) == Some(d.pool.snaps[k.uuid].volsize)
      else CopySized(d, k)
  }

  /** The size known for the VDI is that of its zvol. */
  predicate CopySized(d: Disk, k: ZvolName) {
    k in d.rows && k in d.pool.zvols ==> KnownSize(d, k) == Some(d.pool.zvols[k].props.volsize)
  }

  /** `q` is `p` plus one snapshot of `k` as it was, and its clone `dest`, thick if `k` is. */
  ghost predicate ForkedOff(p: Pool, q: Pool, k: ZvolName, dest: ZvolName, copies: nat)
    requires k in p.zvols
  {
    && dest in q.zvols && q.zvols[dest].origin.Some?
    && var t := q.zvols[dest].origin.value;
       && t !in p.snaps && t in q.snaps && dest !in p.zvols
       && q.zvols == p.zvols[dest := q.zvols[dest]] && q.snaps == p.snaps[t := q.snaps[t]]
       && q.snaps[t] == Snap(k, p.txg, p.zvols[k].content, p.zvols[k].props.volsize, p.zvols[k].props.volblocksize)
       && q.zvols[dest] == Zvol(p.zvols[k].content, CopyProps(p.zvols[k], copies), Some(t))
  }

  /** After `Volume.copy` to an SR on the same pool. */
  ghost predicate CopiedWithin(d: Disk, k: ZvolName, dstSr: Dataset, dest: ZvolName, copies: nat, e: Disk) {
    && k in d.rows && k in d.pool.zvols && KnownSize(d, k).Some?
    && dest !in d.rows && dest.dataset == dstSr
    && ForkedOff(d.pool, e.pool, k, dest, copies)
    && e.rows == Recovered(d, k)[dest := Row(false, KnownSize(d, k), None)]
  }

  /** A zvol set to another size: cut off, or filled up with zeros. */
  function Resized(v: Zvol, volsize: nat): Zvol {
    var content := if volsize <= |v.content| then v.content[..volsize] else v.content + Zeros(volsize - |v.content|);
    v.(content := content, props := v.props.(volsize := volsize))
  }

  /** Thick as before, with a reservation that fits. */
  function Synced(v: Zvol): Zvol {
    v.(props := v.props.(refreservation := if v.props.refreservation > 0
                         then Reservation(v.props.volsize, v.props.copies) else 0))
  }

  /** After `Volume.resize`. */
  ghost predicate ResizeDone(d: Disk, k: ZvolName, newSize: nat, e: Disk) {
    && k in d.rows && k in d.pool.zvols && KnownSize(d, k).Some? && KnownSize(d, k).value <= newSize
    && var volsize := BlockSize(newSize, d.pool.zvols[k].props.volblocksize);
       && e.pool == d.pool.(zvols := d.pool.zvols[k := Synced(Resized(d.pool.zvols[k], volsize))])
       && e.rows == d.rows[k := d.rows[k].(vsize := Some(volsize))]
  }

  /** The reservation of `w` is still that of `v`, or has been made to fit because `v` is thick. */
  predicate KeptOrFit(v: Zvol, w: Zvol) {
    || w.props.refreservation == v.props.refreservation
    || (v.props.refreservation > 0 && w.props.refreservation == w.props.volsize * w.props.copies)
  }

  /** The zvol `v`, or what resizing it has made of it; the reservation may not have followed yet. */
  predicate MidResize(v: Zvol, w: Zvol, volsize: nat) {
    var u := if w.props.volsize == volsize then Resized(v, volsize) else v;
    w == u.(props := u.props.(refreservation := w.props.refreservation)) && KeptOrFit(v, w)
  }

  /** However far a resize of `k` has got: at most the recorded size differs and the zvol, which is as it was
      or resized. */
  ghost predicate ResizeLeft(d: Disk, k: ZvolName, newSize: nat, e: Disk) {
    && RowsUpToSize(d.rows, e.rows, k)
    && if k in d.pool.zvols
       then k in e.pool.zvols && e.pool == d.pool.(zvols := d.pool.zvols[k := e.pool.zvols[k]])
            && MidResize(d.pool.zvols[k], e.pool.zvols[k], BlockSize(newSize, d.pool.zvols[k].props.volblocksize))
       else e.pool == d.pool
  }

  /** The same but for the number of copies; the reservation may not have followed yet. */
  predicate OnlyCopiesDiffer(a: Zvol, b: Zvol) {
    && a == b.(props := b.props.(copies := a.props.copies, refreservation := a.props.refreservation))
    && KeptOrFit(a, b)
  }

  /** After `Volume.set` or `Volume.unset` of `copies`. */
  ghost predicate CopiesSet(p: Pool, k: ZvolName, copies: nat, q: Pool) {
    k in p.zvols && q == p.(zvols := p.zvols[k := Synced(p.zvols[k].(props := p.zvols[k].props.(copies := copies)))])
  }

  /** What is left is as it was, and nothing is new. */
  ghost predicate Left(p: Pool, q: Pool) {
    && (forall z :: z in q.zvols ==> z in p.zvols && q.zvols[z] == p.zvols[z])
    && (forall s :: s in q.snaps ==> s in p.snaps && q.snaps[s] == p.snaps[s])
  }

  /** What one orphan scan finds in its surroundings: zvols with an open device or a running daemon, the
      creation times as far as they can be read, and the clock. */
  datatype Signs<K(==)> = Signs(inUse: set<ZvolName>, born: map<K, int>, now: int)

  /** The settings of orphan cleanup, and what its two scans find. */
  datatype Cleanup = Cleanup(enabled: bool, grace: int, zvols: Signs<ZvolName>, snaps: Signs<Uuid>)

  /** The grace period of something born then is over; one of 0 disables the check. */
  predicate GraceOver(grace: int, now: int, born: int) {
    grace <= 0 || now - born >= grace
  }

  /** An age that cannot be told is too young. */
  predicate OldEnough<K(==)>(grace: int, signs: Signs<K>, k: K) {
    grace <= 0 || (k in signs.born && GraceOver(grace, signs.now, signs.born[k]))
  }

  predicate OrphanZvol(rows: Rows, sr: Dataset, c: Cleanup, z: ZvolName) {
    z.dataset == sr && z !in rows && z !in c.zvols.inUse
  }

  predicate OrphanSnapshot(p: Pool, rows: Rows, sr: Dataset, c: Cleanup, s: Uuid) {
    s in p.snaps && p.snaps[s].holder.dataset == sr && ZvolName(sr, s) !in rows && p.snaps[s].holder !in c.snaps.inUse
  }

  /** After orphan cleanup: all that went were orphans, zvols without a snapshot and snapshots without a
      clone; under a grace period, all were known to be at least as old as that. */
  ghost predicate CleanedUp(p: Pool, rows: Rows, sr: Dataset, c: Cleanup, q: Pool) {
    && Left(p, q) && (c.enabled || q == p)
    && (forall z :: z in p.zvols && z !in q.zvols ==>
          && OrphanZvol(rows, sr, c, z) && !HoldsSnapshot(p, z)
          && (c.grace > 0 ==> z in c.zvols.born && c.zvols.now - c.zvols.born[z] >= c.grace))
    && (forall s :: s in p.snaps && s !in q.snaps ==>
          && OrphanSnapshot(p, rows, sr, c, s) && !HasClone(q, s)
          && (c.grace > 0 ==> s in c.snaps.born && c.snaps.now - c.snaps.born[s] >= c.grace))
  }

  /** After orphan cleanup, if enabled: every orphan zvol without a snapshot and every orphan snapshot
      without a clone, if there is no grace period or it is known to be at least as old as that, is gone,
      unless ZFS answered busy for it. */
  ghost predicate WellSwept(p: Pool, rows: Rows, sr: Dataset, c: Cleanup, q: Pool, was: seq<Mishap>, now: seq<Mishap>) {
    c.enabled ==>
      && (forall z :: z in q.zvols && OrphanZvol(rows, sr, c, z) && !HoldsSnapshot(p, z) ==>
            || WasBusy(was, now, PDestroyZvol(z))
            || (c.grace > 0 && (z in c.zvols.born ==> c.zvols.now - c.zvols.born[z] < c.grace)))
      && (forall s :: s in q.snaps && OrphanSnapshot(p, rows, sr, c, s) && !HasClone(q, s) ==>
            || WasBusy(was, now, PDestroySnapshot(s))
            || (c.grace > 0 && (s in c.snaps.born ==> c.snaps.now - c.snaps.born[s] < c.grace)))
  }

  /** Zvols with the given properties and no row may have come. */
  ghost predicate Arrivals(d: Disk, props: Props, q: Pool) {
    && Extends(d.pool, q) && q.snaps == d.pool.snaps
    && (forall z :: z in q.zvols && z !in d.pool.zvols ==> q.zvols[z].props == props && z !in d.rows)
  }

  /** Nothing but the bytes of `z` differs, and they only if it is not read-only. */
  ghost predicate WrittenOnly(p: Pool, z: ZvolName, q: Pool) {
    q == p || (z in p.zvols && z in q.zvols && !p.zvols[z].props.readonly
               && |q.zvols[z].content| == |p.zvols[z].content|
               && q == p.(zvols := p.zvols[z := p.zvols[z].(content := q.zvols[z].content)]))
  }

  /** No smaller, and every byte it had is still there. */
  predicate Grown(a: Zvol, b: Zvol) {
    a.props.volsize <= b.props.volsize && a.content <= b.content
  }

  // ----- destroy -----

  /** A thin clone of `s`, as large as the zvol was when the snapshot was taken. */
  ghost predicate ThinCloneOf(p: Pool, c: ZvolName, s: Uuid) {
    && c in p.zvols && s in p.snaps
    && p.zvols[c].props.volsize == p.snaps[s].volsize && p.zvols[c].props.refreservation == 0
  }

  /** `q` is `p` with the zvols `made` added. */
  ghost predicate GrownByClones(p: Pool, q: Pool, made: set<ZvolName>) {
    && made !! p.zvols.Keys
    && q.zvols.Keys == p.zvols.Keys + made && q.snaps == p.snaps && q.txg == p.txg
    && (forall z :: z in p.zvols ==> q.zvols[z] == p.zvols[z])
  }

  /** The dependents chosen so far: the clone listed first where the snapshot had one, else a new one. */
  ghost predicate Picked(p0: Pool, p: Pool, sr: Dataset, snaps: seq<Uuid>, deps: seq<ZvolName>, made: seq<ZvolName>)
    requires |deps| <= |snaps|
  {
    && (forall j :: 0 <= j < |deps| ==> IsClone(p, deps[j], snaps[j]))
    && (forall j :: 0 <= j < |deps| ==> PickedOne(p0, p, sr, snaps[j], deps[j], made))
    && (forall c :: c in made ==> exists j :: 0 <= j < |deps| && deps[j] == c && !HasClone(p0, snaps[j]))
  }

  ghost predicate PickedOne(p0: Pool, p: Pool, sr: Dataset, s: Uuid, d: ZvolName, made: seq<ZvolName>) {
    if HasClone(p0, s) then IsFirstClone(p0, d, s) else d in made && d.dataset == sr && ThinCloneOf(p, d, s)
  }

  /** One dependent for every snapshot of `v`, in the pool `p1` that has them all. */
  ghost predicate Chosen(p: Pool, p1: Pool, v: ZvolName, snaps: seq<Uuid>, deps: seq<ZvolName>, made: seq<ZvolName>) {
    && Valid(p1) && Listing(p, v, snaps) && GrownByClones(p, p1, set c | c in made)
    && |deps| == |snaps| && Picked(p, p1, v.dataset, snaps, deps, made)
  }

  /** The zvol `v` freed of its snapshots: all dependents promoted, `made` among them. */
  ghost predicate Freed(p: Pool, q: Pool, v: ZvolName, made: seq<ZvolName>) {
    v in p.zvols && exists p1, snaps, deps :: Chosen(p, p1, v, snaps, deps, made) && PromoteAll(p1, deps) == Ok(q)
  }

  /** The pool after `Volume.destroy` of the zvol `v`. */
  ghost predicate VolumeGone(p: Pool, r: Pool, v: ZvolName, made: seq<ZvolName>) {
    exists q :: Freed(p, q, v, made) && r == q.(zvols := q.zvols - {v})
  }

  /** After `Volume.destroy` of a VDI that is no snapshot: each clone made is a VDI of the parent's size. */
  ghost predicate VolumeDestroyed(d: Disk, k: ZvolName, made: seq<ZvolName>, e: Disk) {
    && k in d.rows && !d.rows[k].snap && KnownSize(d, k).Some?
    && VolumeGone(d.pool, e.pool, k, made)
    && (forall c :: c in made ==> c !in d.rows && c.dataset == k.dataset)
    && e.rows == (d.rows + (map c | c in made :: Row(false, KnownSize(d, k), None))) - {k}
  }

  /** When `Volume.destroy` of a snapshot VDI goes through: nothing but the snapshot's own materialised
      clone hangs off it, and that clone, if it exists, holds no snapshot itself. */
  ghost predicate SnapshotDestroyable(p: Pool, k: ZvolName) {
    && FoundSnapshot(p, k.dataset, k.uuid).Some?
    && (forall z :: IsClone(p, z, k.uuid) ==> z == k)
    && !HoldsSnapshot(p, k)
  }

  /** When `Volume.destroy` goes through. */
  ghost predicate Destroyable(d: Disk, k: ZvolName) {
    KnownSize(d, k).Some? && if d.rows[k].snap then SnapshotDestroyable(d.pool, k) else k in d.pool.zvols
  }

  /** After `Volume.destroy` of a snapshot VDI. */
  ghost predicate SnapshotDestroyed(d: Disk, k: ZvolName, e: Disk) {
    && k in d.rows && d.rows[k].snap && SnapshotDestroyable(d.pool, k)
    && e == Disk(d.pool.(zvols := d.pool.zvols - {k}, snaps := d.pool.snaps - {k.uuid}), d.rows - {k})
  }

  predicate HeldBy(p: Pool, s: Uuid, v: ZvolName) {
    s in p.snaps && p.snaps[s].holder == v
  }

  /** Every snapshot VDI whose snapshot `v` holds is in the SR of the clone listed first for it. */
  ghost predicate Steers(d: Disk, doomed: set<ZvolName>, v: ZvolName) {
    forall j, z ::
      (j in d.rows && j !in doomed && d.rows[j].snap && HeldBy(d.pool, j.uuid, v) && IsFirstClone(d.pool, z, j.uuid))
      ==> z.dataset == j.dataset
  }

  lemma SteersLess(d: Disk, doomed: set<ZvolName>, more: set<ZvolName>, v: ZvolName)
    requires Steers(d, doomed, v) && doomed <= more
    ensures Steers(d, more, v)
  {
  }

  ghost predicate Cloneless(p: Pool, v: ZvolName, s: Uuid) {
    s in p.snaps && p.snaps[s].holder == v && !HasClone(p, s)
  }

  /** No snapshot of `v` without a clone is of another size. */
  ghost predicate ClonelessSized(p: Pool, v: ZvolName, vsize: nat) {
    forall s :: Cloneless(p, v, s) ==> p.snaps[s].volsize == vsize
  }

  /** Nothing but the snapshot VDI `k` may have lost something. */
  ghost predicate Shrunk(p: Pool, q: Pool, k: ZvolName) {
    && q.zvols in {p.zvols, p.zvols - {k}} && q.snaps in {p.snaps, p.snaps - {k.uuid}}
  }

  /** The destruction of `k` has got as far as taking something away from the VDI itself. */
  ghost predicate HalfGone(d: Disk, k: ZvolName, e: Disk) {
    k in d.rows && if d.rows[k].snap then e.pool != d.pool else k in d.pool.zvols && k !in e.pool.zvols
  }

  /** A destruction that failed: no zvol but that of a snapshot VDI and no snapshot is lost, unless all it
      failed at is the commit, and then the volume is gone. */
  ghost predicate DestroyLeft(d: Disk, k: ZvolName, atCommit: bool, e: Disk) {
    if k !in d.rows then e.pool == d.pool
    else if !d.rows[k].snap
    then DataKept(d.pool, e.pool, if atCommit then {k} else {}) && (atCommit ==> k !in e.pool.zvols)
    else Shrunk(d.pool, e.pool, k) && (!atCommit ==> e.pool.snaps == d.pool.snaps)
  }

  predicate VolumeVdi(d: Disk, k: ZvolName) {
    k in d.rows && !d.rows[k].snap
  }

  /** The clones destroying `v` would make are of the size it would record for them. */
  ghost predicate DestroySized(d: Disk, v: ZvolName) {
    KnownSize(d, v).Some? ==> ClonelessSized(d.pool, v, KnownSize(d, v).value)
  }

  /** After `Volume.destroy`. */
  ghost predicate DestroyDone(d: Disk, k: ZvolName, e: Disk) {
    if VolumeVdi(d, k) then exists made :: VolumeDestroyed(d, k, made, e) else SnapshotDestroyed(d, k, e)
  }

  // ----- what destroy means for the snapshots -----

  ghost predicate OthersStay(p: Pool, q: Pool, v: ZvolName) {
    forall s :: s in p.snaps && s in q.snaps && p.snaps[s].holder != v ==> q.snaps[s].holder == p.snaps[s].holder
  }

  /** A snapshot moves onto the clone of it that was listed first, or else one made for it in its SR. */
  ghost predicate NewHome(p: Pool, q: Pool, v: ZvolName, s: Uuid, made: seq<ZvolName>) {
    && s in q.snaps
    && var h := q.snaps[s].holder;
       if HasClone(p, s) then IsFirstClone(p, h, s) else h in made && h.dataset == v.dataset && ThinCloneOf(q, h, s)
  }

  /** `c` is the thin clone made for the snapshot `s` of `v`, which had no clone. */
  ghost predicate MadeFor(p: Pool, q: Pool, v: ZvolName, c: ZvolName, s: Uuid) {
    Cloneless(p, v, s) && ThinCloneOf(q, c, s)
  }

  ghost predicate Served(p: Pool, q: Pool, v: ZvolName, c: ZvolName) {
    exists s :: MadeFor(p, q, v, c, s)
  }

  /** A zvol freed of its snapshots: nothing is lost, each of its snapshots has a new home, the others stay,
      and no clone was made without need. */
  lemma FreedMeans(p: Pool, q: Pool, v: ZvolName, made: seq<ZvolName>)
    requires Valid(p) && Freed(p, q, v, made)
    ensures Valid(q) && v in p.zvols && !HoldsSnapshot(q, v) && (set c | c in made) !! p.zvols.Keys
    ensures q.zvols.Keys == p.zvols.Keys + (set c | c in made) && q.snaps.Keys == p.snaps.Keys
    ensures DataKept(p, q, {}) && OthersStay(p, q, v)
    ensures forall s :: s in p.snaps && p.snaps[s].holder == v ==> NewHome(p, q, v, s, made)
    ensures forall c :: c in made ==> Served(p, q, v, c)
  {
    hide Valid, Listing, Picked, SameData, DataKept, NewHome, Served, Settled;
    var p1, snaps, deps :| Chosen(p, p1, v, snaps, deps, made) && PromoteAll(p1, deps) == Ok(q);
    LoopSettles(p, p1, q, v, snaps, deps, made);
    KeptThroughout(p, p1, q, set c | c in made);
    forall s | s in p.snaps && p.snaps[s].holder == v ensures NewHome(p, q, v, s, made) {
      var j := ListedAt(p, v, snaps, s);
      HomeOf(p, p1, q, v, snaps, deps, made, j);
    }
    forall c | c in made ensures Served(p, q, v, c) {
      ServedByLoop(p, p1, q, v, snaps, deps, made, c);
    }
  }

  lemma LoopSettles(p: Pool, p1: Pool, q: Pool, v: ZvolName, snaps: seq<Uuid>, deps: seq<ZvolName>, made: seq<ZvolName>)
    requires v in p.zvols && Chosen(p, p1, v, snaps, deps, made) && PromoteAll(p1, deps) == Ok(q)
    ensures Valid(q) && SameData(p1, q) && !HoldsSnapshot(q, v) && OthersStay(p, q, v)
    ensures forall j :: 0 <= j < |snaps| ==> snaps[j] in q.snaps && q.snaps[snaps[j]].holder == deps[j]
  {
    PromotionLoop(p1, v, snaps, deps);
  }

  lemma ListedAt(p: Pool, v: ZvolName, snaps: seq<Uuid>, s: Uuid) returns (j: nat)
    requires Listing(p, v, snaps) && s in p.snaps && p.snaps[s].holder == v
    ensures j < |snaps| && snaps[j] == s
  {
    assert s in snaps;
    j :| 0 <= j < |snaps| && snaps[j] == s;
  }

  lemma KeptThroughout(p0: Pool, p1: Pool, p2: Pool, made: set<ZvolName>)
    requires GrownByClones(p0, p1, made) && SameData(p1, p2)
    ensures DataKept(p0, p2, {}) && p2.zvols.Keys == p0.zvols.Keys + made && p2.snaps.Keys == p0.snaps.Keys
  {
    forall s | s in p0.snaps ensures SameSnapshot(p0.snaps[s], p2.snaps[s]) {
      assert SameSnapshot(p1.snaps[s], p2.snaps[s]);
    }
  }

  lemma HomeOf(p0: Pool, p1: Pool, p2: Pool, v: ZvolName, snaps: seq<Uuid>, deps: seq<ZvolName>, made: seq<ZvolName>,
               j: nat)
    requires j < |deps| == |snaps| && Picked(p0, p1, v.dataset, snaps, deps, made)
    requires snaps[j] in p1.snaps && SameData(p1, p2)
    requires snaps[j] in p2.snaps && p2.snaps[snaps[j]].holder == deps[j]
    ensures NewHome(p0, p2, v, snaps[j], made)
  {
    assert PickedOne(p0, p1, v.dataset, snaps[j], deps[j], made);
    assert SameSnapshot(p1.snaps[snaps[j]], p2.snaps[snaps[j]]);
  }

  lemma ServedByLoop(p0: Pool, p1: Pool, p2: Pool, v: ZvolName, snaps: seq<Uuid>, deps: seq<ZvolName>,
                     made: seq<ZvolName>, c: ZvolName)
    requires v in p0.zvols && Chosen(p0, p1, v, snaps, deps, made) && SameData(p1, p2) && c in made
    requires forall j :: 0 <= j < |snaps| ==> snaps[j] in p2.snaps && p2.snaps[snaps[j]].holder == deps[j]
    ensures Served(p0, p2, v, c)
  {
    hide Valid, SameData;
    var j :| 0 <= j < |deps| && deps[j] == c && !HasClone(p0, snaps[j]);
    assert snaps[j] in snaps;
    HomeOf(p0, p1, p2, v, snaps, deps, made, j);
    assert MadeFor(p0, p2, v, c, snaps[j]);
  }

  lemma LoopAccepted(p0: Pool, p1: Pool, k: ZvolName, snaps: seq<Uuid>, deps: seq<ZvolName>, made: seq<ZvolName>)
    requires k in p0.zvols && Chosen(p0, p1, k, snaps, deps, made)
    ensures PromoteAll(p1, deps).Ok?
  {
    PromotionLoop(p1, k, snaps, deps);
  }

  lemma VolumeGoneMeans(p: Pool, r: Pool, v: ZvolName, made: seq<ZvolName>)
    requires Valid(p) && VolumeGone(p, r, v, made)
    ensures Valid(r) && v in p.zvols && v !in r.zvols && (set c | c in made) !! p.zvols.Keys
    ensures r.zvols.Keys == p.zvols.Keys + (set c | c in made) - {v} && r.snaps.Keys == p.snaps.Keys
    ensures DataKept(p, r, {v}) && Tight(p, r, {})
    ensures forall s :: s in p.snaps && p.snaps[s].holder == v ==> NewHome(p, r, v, s, made)
    ensures OthersStay(p, r, v)
    ensures forall c :: c in made ==> Served(p, r, v, c)
  {
    hide Valid, Freed, NewHome, Served, HoldsSnapshot, DataKept;
    var q :| Freed(p, q, v, made) && r == q.(zvols := q.zvols - {v});
    FreedMeans(p, q, v, made);
    FreedKeepsValid(q, v);
    KeptButOne(p, q, r, v);
    forall s | s in p.snaps && p.snaps[s].holder == v ensures NewHome(p, r, v, s, made) {
      HomeStays(p, q, r, v, s, made);
    }
    forall c | c in made ensures Served(p, r, v, c) && ThickOk(r.zvols[c].props) {
      ServedStays(p, q, r, v, c);
    }
    assert Tight(p, r, {}) by {
      MadeTight(p, r, v, made);
    }
  }

  lemma KeptButOne(p: Pool, q: Pool, r: Pool, v: ZvolName)
    requires DataKept(p, q, {}) && r == q.(zvols := q.zvols - {v})
    ensures DataKept(p, r, {v})
  {
  }

  lemma MadeTight(p: Pool, r: Pool, v: ZvolName, made: seq<ZvolName>)
    requires DataKept(p, r, {v}) && r.zvols.Keys == p.zvols.Keys + (set c | c in made) - {v}
    requires forall c :: c in made ==> c in r.zvols && ThickOk(r.zvols[c].props)
    ensures Tight(p, r, {})
  {
  }

  lemma HomeStays(p: Pool, q: Pool, r: Pool, v: ZvolName, s: Uuid, made: seq<ZvolName>)
    requires NewHome(p, q, v, s, made) && !HoldsSnapshot(q, v) && r == q.(zvols := q.zvols - {v})
    ensures NewHome(p, r, v, s, made)
  {
  }

  lemma ServedStays(p: Pool, q: Pool, r: Pool, v: ZvolName, c: ZvolName)
    requires Served(p, q, v, c) && c != v && r == q.(zvols := q.zvols - {v})
    ensures Served(p, r, v, c) && c in r.zvols && ThickOk(r.zvols[c].props)
  {
    var s :| MadeFor(p, q, v, c, s);
    assert MadeFor(p, r, v, c, s);
  }

  lemma FreedKeepsValid(q: Pool, v: ZvolName)
    requires Valid(q) && v in q.zvols && !HoldsSnapshot(q, v)
    ensures Valid(q.(zvols := q.zvols - {v}))
  {
    DestroyZvolKeepsValid(q, v);
  }

  lemma StillPicked(p0: Pool, p: Pool, q: Pool, sr: Dataset, snaps: seq<Uuid>, deps: seq<ZvolName>, made: seq<ZvolName>,
                    dep: ZvolName, isNew: bool)
    requires |deps| < |snaps| && Picked(p0, p, sr, snaps, deps, made)
    requires forall i, j :: 0 <= i < j < |snaps| ==> snaps[i] != snaps[j]
    requires GrownByClones(p0, p, set c | c in made) && GrownByClones(p, q, if isNew then {dep} else {})
    requires if isNew then !HasClone(p, snaps[|deps|]) && IsClone(q, dep, snaps[|deps|])
             && ThinCloneOf(q, dep, snaps[|deps|]) && dep.dataset == sr
             else q == p && IsFirstClone(p, dep, snaps[|deps|])
    ensures Picked(p0, q, sr, snaps, deps + [dep], if isNew then made + [dep] else made)
  {
    hide Picked, PickedOne, IsFirstClone, HasClone;
    var s, made' := snaps[|deps|], if isNew then made + [dep] else made;
    EarlierPicked(p0, p, q, sr, snaps, deps, made, made', if isNew then {dep} else {});
    NewestPicked(p0, p, q, sr, snaps, deps, made, dep, isNew);
    PickedMore(p0, q, sr, snaps, deps, made, dep, isNew);
  }

  /** Dependents picked before stay picked while more clones are made. */
  lemma EarlierPicked(p0: Pool, p: Pool, q: Pool, sr: Dataset, snaps: seq<Uuid>, deps: seq<ZvolName>,
                      made: seq<ZvolName>, made': seq<ZvolName>, more: set<ZvolName>)
    requires |deps| <= |snaps| && Picked(p0, p, sr, snaps, deps, made) && GrownByClones(p, q, more) && made <= made'
    ensures forall j :: 0 <= j < |deps| ==>
              IsClone(q, deps[j], snaps[j]) && PickedOne(p0, q, sr, snaps[j], deps[j], made')
    ensures forall c :: c in made ==> exists j :: 0 <= j < |deps| && deps[j] == c && !HasClone(p0, snaps[j])
  {
    hide HasClone, IsFirstClone;
    forall j | 0 <= j < |deps| ensures IsClone(q, deps[j], snaps[j]) && PickedOne(p0, q, sr, snaps[j], deps[j], made') {
      assert IsClone(p, deps[j], snaps[j]) && PickedOne(p0, p, sr, snaps[j], deps[j], made);
    }
  }

  lemma NewestPicked(p0: Pool, p: Pool, q: Pool, sr: Dataset, snaps: seq<Uuid>, deps: seq<ZvolName>,
                     made: seq<ZvolName>, dep: ZvolName, isNew: bool)
    requires |deps| < |snaps| && Picked(p0, p, sr, snaps, deps, made)
    requires forall i, j :: 0 <= i < j < |snaps| ==> snaps[i] != snaps[j]
    requires GrownByClones(p0, p, set c | c in made)
    requires if isNew then !HasClone(p, snaps[|deps|]) && IsClone(q, dep, snaps[|deps|])
             && ThinCloneOf(q, dep, snaps[|deps|]) && dep.dataset == sr
             else q == p && IsFirstClone(p, dep, snaps[|deps|])
    ensures IsClone(q, dep, snaps[|deps|])
            && PickedOne(p0, q, sr, snaps[|deps|], dep, if isNew then made + [dep] else made)
    ensures isNew ==> !HasClone(p0, snaps[|deps|])
  {
    var s := snaps[|deps|];
    SameClonesOf(p0, p, snaps, deps, made, s);
    hide Picked, ThinCloneOf, IsFirstClone;
    assert !isNew ==> IsClone(p, dep, s) by {
      FirstIsClone(p, dep, s);
    }
    assert !isNew ==> HasClone(p, s);
  }

  lemma FirstIsClone(p: Pool, z: ZvolName, s: Uuid)
    ensures IsFirstClone(p, z, s) ==> IsClone(p, z, s)
  {
  }

  lemma PickedMore(p0: Pool, q: Pool, sr: Dataset, snaps: seq<Uuid>, deps: seq<ZvolName>, made: seq<ZvolName>,
                   dep: ZvolName, isNew: bool)
    requires |deps| < |snaps|
    requires forall j :: 0 <= j < |deps| ==>
               IsClone(q, deps[j], snaps[j]) && PickedOne(p0, q, sr, snaps[j], deps[j], if isNew then made + [dep]
                                                          else made)
    requires forall c :: c in made ==> exists j :: 0 <= j < |deps| && deps[j] == c && !HasClone(p0, snaps[j])
    requires IsClone(q, dep, snaps[|deps|])
             && PickedOne(p0, q, sr, snaps[|deps|], dep, if isNew then made + [dep] else made)
    requires isNew ==> !HasClone(p0, snaps[|deps|])
    ensures Picked(p0, q, sr, snaps, deps + [dep], if isNew then made + [dep] else made)
  {
    hide PickedOne, HasClone, IsClone;
    var made', deps' := if isNew then made + [dep] else made, deps + [dep];
    forall c | c in made' ensures exists j :: 0 <= j < |deps'| && deps'[j] == c && !HasClone(p0, snaps[j]) {
      if c in made {
        var j :| 0 <= j < |deps| && deps[j] == c && !HasClone(p0, snaps[j]);
        assert deps'[j] == c;
      } else {
        assert deps'[|deps|] == c;
      }
    }
  }

  /** The clones made so far are clones of other snapshots. */
  lemma SameClonesOf(p0: Pool, p: Pool, snaps: seq<Uuid>, deps: seq<ZvolName>, made: seq<ZvolName>, s: Uuid)
    requires |deps| <= |snaps| && GrownByClones(p0, p, set c | c in made)
    requires forall j :: 0 <= j < |deps| ==> IsClone(p, deps[j], snaps[j]) && snaps[j] != s
    requires forall c :: c in made ==> exists j :: 0 <= j < |deps| && deps[j] == c && !HasClone(p0, snaps[j])
    ensures forall z :: IsClone(p, z, s) <==> IsClone(p0, z, s)
    ensures HasClone(p, s) <==> HasClone(p0, s)
    ensures forall z :: IsFirstClone(p, z, s) <==> IsFirstClone(p0, z, s)
  {
    forall c | c in made ensures !IsClone(p, c, s) {
      var j :| 0 <= j < |deps| && deps[j] == c && !HasClone(p0, snaps[j]);
      assert IsClone(p, deps[j], snaps[j]);
    }
    forall z | IsClone(p, z, s) ensures IsClone(p0, z, s) {
      assert z in made || z in p0.zvols;
    }
    forall z | IsClone(p0, z, s) ensures IsClone(p, z, s) {
    }
    if HasClone(p, s) {
      var z :| z in p.zvols && p.zvols[z].origin == Some(s);
      assert IsClone(p, z, s);
    }
    if HasClone(p0, s) {
      var z :| z in p0.zvols && p0.zvols[z].origin == Some(s);
      assert IsClone(p0, z, s);
    }
  }

  lemma GrowingKeeps(p0: Pool, p1: Pool, made: set<ZvolName>)
    requires GrownByClones(p0, p1, made)
    ensures DataKept(p0, p1, {})
  {
  }
}
