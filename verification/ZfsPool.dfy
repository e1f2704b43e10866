/** The part of a ZFS pool the driver works on: zvols, snapshots, clone origins, and the
    primitives the driver calls, each with the reasons for which ZFS refuses it. */
module ZfsPool {
  import opened Wrappers

  // Names are only compared, never taken apart, so numbers stand for them; the order of the numbers
  // is the order of the names.
  type Uuid = nat
  type Dataset = nat
  type Content = seq<int>

  /** `<dataset>/<uuid>` */
  datatype ZvolName = ZvolName(dataset: Dataset, uuid: Uuid)

  /** `<dataset>/<uuid>@<id>` */
  datatype SnapName = SnapName(zvol: ZvolName, id: Uuid)

  datatype Props = Props(volsize: nat, volblocksize: nat, copies: nat, refreservation: nat, readonly: bool)

  datatype Zvol = Zvol(content: Content, props: Props, origin: Option<Uuid>)

  /** A snapshot is identified by the part of its name after `@`; its holder changes under promotion. */
  datatype Snap = Snap(holder: ZvolName, txg: nat, content: Content, volsize: nat, volblocksize: nat)

  /** `txg` is the next transaction group: every existing snapshot was taken before it. */
  datatype Pool = Pool(zvols: map<ZvolName, Zvol>, snaps: map<Uuid, Snap>, txg: nat)

  datatype Errno = EBUSY | ENOENT | EEXIST | EINVAL

  // ----- well-formedness -----

  /** Every holder exists, snapshots of one zvol are totally ordered by age, every origin exists and
      is older than every snapshot its clone holds, and no volume is missing bytes. */
  ghost predicate Valid(p: Pool) {
    HoldersExist(p) && AgesDiffer(p) && OriginsOlder(p) && AllBytes(p)
  }

  ghost predicate AllBytes(p: Pool) {
    && (forall z :: z in p.zvols ==> |p.zvols[z].content| == p.zvols[z].props.volsize)
    && (forall s :: s in p.snaps ==> |p.snaps[s].content| == p.snaps[s].volsize)
  }

  ghost predicate HoldersExist(p: Pool) {
    forall s :: s in p.snaps ==> p.snaps[s].holder in p.zvols && p.snaps[s].txg < p.txg
  }

  ghost predicate AgesDiffer(p: Pool) {
    forall s, t :: s in p.snaps && t in p.snaps && s != t && p.snaps[s].holder == p.snaps[t].holder
                   ==> p.snaps[s].txg != p.snaps[t].txg
  }

  ghost predicate OriginsOlder(p: Pool) {
    forall z :: z in p.zvols && p.zvols[z].origin.Some? ==> OriginOlder(p, z)
  }

  ghost predicate OriginOlder(p: Pool, z: ZvolName)
    requires z in p.zvols && p.zvols[z].origin.Some?
  {
    var o := p.zvols[z].origin.value;
    && o in p.snaps
    && forall t :: t in p.snaps && p.snaps[t].holder == z ==> p.snaps[o].txg < p.snaps[t].txg
  }

  predicate HoldsSnapshot(p: Pool, z: ZvolName) {
    exists s :: s in p.snaps && p.snaps[s].holder == z
  }

  predicate IsClone(p: Pool, z: ZvolName, s: Uuid) {
    z in p.zvols && p.zvols[z].origin == Some(s)
  }

  predicate HasClone(p: Pool, s: Uuid) {
    exists z :: z in p.zvols && p.zvols[z].origin == Some(s)
  }

  /** The order of `zfs list`. */
  predicate Before(a: ZvolName, b: ZvolName) {
    a.dataset < b.dataset || (a.dataset == b.dataset && a.uuid < b.uuid)
  }

  /** The clone of `s` that `zfs list` names first. */
  ghost predicate IsFirstClone(p: Pool, z: ZvolName, s: Uuid) {
    IsClone(p, z, s) && forall y :: IsClone(p, y, s) ==> y == z || Before(z, y)
  }

  // ----- primitives -----

  function Zeros(size: nat): Content {
    seq(size, _ => 0)
  }

  function CreateZvol(p: Pool, z: ZvolName, props: Props): Result<Pool, Errno> {
    if z in p.zvols then Err(EEXIST)
    else Ok(p.(zvols := p.zvols[z := Zvol(Zeros(props.volsize), props, None)]))
  }

  function TakeSnapshot(p: Pool, z: ZvolName, s: Uuid): Result<Pool, Errno> {
    if z !in p.zvols then Err(ENOENT)
    else if s in p.snaps then Err(EEXIST)
    else
      var v := p.zvols[z];
      Ok(p.(snaps := p.snaps[s := Snap(z, p.txg, v.content, v.props.volsize, v.props.volblocksize)],
            txg := p.txg + 1))
  }

  /** A clone starts thin and inherits `copies` from the dataset it is created in. */
  function CloneSnapshot(p: Pool, s: Uuid, z: ZvolName, copies: nat): Result<Pool, Errno> {
    if s !in p.snaps then Err(ENOENT)
    else if z in p.zvols then Err(EEXIST)
    else
      var snap := p.snaps[s];
      var props := Props(snap.volsize, snap.volblocksize, copies, 0, false);
      Ok(p.(zvols := p.zvols[z := Zvol(snap.content, props, Some(s))]))
  }

  /** `zfs promote`: the origin and every older snapshot of its holder move onto the clone; the
      holder becomes a clone of the origin and the clone takes over the holder's own origin. */
  function Promote(p: Pool, z: ZvolName): Result<Pool, Errno> {
    if z !in p.zvols then Err(ENOENT)
    else if p.zvols[z].origin.None? then Err(EINVAL)
    else
      var o := p.zvols[z].origin.value;
      if o !in p.snaps || p.snaps[o].holder !in p.zvols || p.snaps[o].holder == z then Err(EINVAL)
      else
        var h := p.snaps[o].holder;
        var cut := p.snaps[o].txg;
        Ok(p.(zvols := p.zvols[z := p.zvols[z].(origin := p.zvols[h].origin)]
                              [h := p.zvols[h].(origin := Some(o))],
              snaps := map s | s in p.snaps ::
                if p.snaps[s].holder == h && p.snaps[s].txg <= cut then p.snaps[s].(holder := z)
                else p.snaps[s]))
  }

  /** Refused while the zvol holds a snapshot. */
  function DestroyZvol(p: Pool, z: ZvolName): Result<Pool, Errno> {
    if z !in p.zvols then Err(ENOENT)
    else if HoldsSnapshot(p, z) then Err(EEXIST)
    else Ok(p.(zvols := p.zvols - {z}))
  }

  /** Refused while a clone depends on the snapshot. */
  function DestroySnapshot(p: Pool, s: Uuid): Result<Pool, Errno> {
    if s !in p.snaps then Err(ENOENT)
    else if HasClone(p, s) then Err(EEXIST)
    else Ok(p.(snaps := p.snaps - {s}))
  }

  /** `zfs set` of anything but the size; the block size is fixed when the zvol is created. */
  function SetProps(p: Pool, z: ZvolName, props: Props): Result<Pool, Errno> {
    if z !in p.zvols then Err(ENOENT)
    else if props.volsize != p.zvols[z].props.volsize
        || props.volblocksize != p.zvols[z].props.volblocksize then Err(EINVAL)
    else Ok(p.(zvols := p.zvols[z := p.zvols[z].(props := props)]))
  }

  /** `zfs set volsize`: growing appends zeros. */
  function ResizeZvol(p: Pool, z: ZvolName, volsize: nat): Result<Pool, Errno> {
    if z !in p.zvols then Err(ENOENT)
    else
      var v := p.zvols[z];
      var content := if volsize <= |v.content| then v.content[..volsize] else v.content + Zeros(volsize - |v.content|);
      Ok(p.(zvols := p.zvols[z := v.(content := content, props := v.props.(volsize := volsize))]))
  }

  /** A guest write, or any other change to the bytes behind `/dev/zvol/<z>`. */
  function SetContent(p: Pool, z: ZvolName, content: Content): Result<Pool, Errno> {
    if z !in p.zvols then Err(ENOENT)
    else if p.zvols[z].props.readonly || |content| != |p.zvols[z].content| then Err(EINVAL)
    else Ok(p.(zvols := p.zvols[z := p.zvols[z].(content := content)]))
  }

  /** A completed `zfs receive` of a full stream: the zvol, and on it the snapshot that was sent. */
  function ReceiveStream(p: Pool, z: ZvolName, s: Uuid, content: Content, props: Props): Result<Pool, Errno> {
    if z in p.zvols || s in p.snaps then Err(EEXIST)
    else if |content| != props.volsize then Err(EINVAL)
    else
      Ok(p.(zvols := p.zvols[z := Zvol(content, props, None)],
            snaps := p.snaps[s := Snap(z, p.txg, content, props.volsize, props.volblocksize)],
            txg := p.txg + 1))
  }

  /** Every way anybody (the driver, a guest, another process) changes the pool. */
  datatype Prim =
    | PCreate(z: ZvolName, props: Props)
    | PSnapshot(z: ZvolName, s: Uuid)
    | PClone(s: Uuid, z: ZvolName, copies: nat)
    | PPromote(z: ZvolName)
    | PDestroyZvol(z: ZvolName)
    | PDestroySnapshot(s: Uuid)
    | PSetProps(z: ZvolName, props: Props)
    | PSetContent(z: ZvolName, content: Content)
    | PResize(z: ZvolName, volsize: nat)
    | PReceive(z: ZvolName, s: Uuid, content: Content, props: Props)

  function Apply(p: Pool, c: Prim): Result<Pool, Errno> {
    match c
    case PCreate(z, props) => CreateZvol(p, z, props)
    case PSnapshot(z, s) => TakeSnapshot(p, z, s)
    case PClone(s, z, copies) => CloneSnapshot(p, s, z, copies)
    case PPromote(z) => Promote(p, z)
    case PDestroyZvol(z) => DestroyZvol(p, z)
    case PDestroySnapshot(s) => DestroySnapshot(p, s)
    case PSetProps(z, props) => SetProps(p, z, props)
    case PSetContent(z, content) => SetContent(p, z, content)
    case PResize(z, volsize) => ResizeZvol(p, z, volsize)
    case PReceive(z, s, content, props) => ReceiveStream(p, z, s, content, props)
  }

  /** A refused primitive leaves the pool as it was. */
  function After(p: Pool, c: Prim): Pool {
    match Apply(p, c)
    case Ok(q) => q
    case Err(_) => p
  }

  function Run(p: Pool, cs: seq<Prim>): Pool
    decreases cs
  {
    if cs == [] then p else Run(After(p, cs[0]), cs[1..])
  }

  // ----- what every step keeps -----

  lemma PromoteKeepsValid(p: Pool, z: ZvolName)
    requires Valid(p)
    requires Promote(p, z).Ok?
    ensures Valid(Promote(p, z).value)
  {
    var q := Promote(p, z).value;
    var o := p.zvols[z].origin.value;
    var h := p.snaps[o].holder;
    assert OriginOlder(p, z);
    assert p.zvols[h].origin.Some? ==> OriginOlder(p, h);
    forall y | y in q.zvols && q.zvols[y].origin.Some? ensures OriginOlder(q, y) {
      if y != z && y != h {
        assert OriginOlder(p, y);
      }
    }
  }

  /** Under well-formedness the only refusals of `promote` are a missing zvol and one that is no clone. */
  lemma PromoteAccepted(p: Pool, z: ZvolName)
    requires Valid(p)
    ensures Promote(p, z).Ok? <==> z in p.zvols && p.zvols[z].origin.Some?
  {
    if z in p.zvols && p.zvols[z].origin.Some? {
      assert OriginOlder(p, z);
    }
  }

  lemma StepKeepsValid(p: Pool, c: Prim)
    requires Valid(p)
    ensures Valid(After(p, c))
  {
    if Apply(p, c).Ok? {
      match c
      case PPromote(z) => PromoteKeepsValid(p, z);
      case PCreate(z, _) => ZvolStepKeepsValid(p, After(p, c));
      case PSetProps(z, _) => ZvolStepKeepsValid(p, After(p, c));
      case PSetContent(z, _) => ZvolStepKeepsValid(p, After(p, c));
      case PResize(z, _) => ZvolStepKeepsValid(p, After(p, c));
      case PReceive(z, s, _, _) => ReceiveKeepsValid(p, z, s, c.content, c.props);
      case PClone(s, z, _) => CloneKeepsValid(p, s, z, c.copies);
      case PSnapshot(z, s) => SnapshotKeepsValid(p, z, s);
      case PDestroyZvol(z) => DestroyZvolKeepsValid(p, z);
      case PDestroySnapshot(s) => DestroySnapshotKeepsValid(p, s);
    }
  }

  /** Steps that add an origin-free zvol or change one zvol's bytes or properties. */
  lemma ZvolStepKeepsValid(p: Pool, q: Pool)
    requires Valid(p)
    requires q.snaps == p.snaps && q.txg == p.txg && p.zvols.Keys <= q.zvols.Keys && AllBytes(q)
    requires forall y :: y in q.zvols && q.zvols[y].origin.Some? ==>
               y in p.zvols && q.zvols[y].origin == p.zvols[y].origin
    ensures Valid(q)
  {
    forall y | y in q.zvols && q.zvols[y].origin.Some? ensures OriginOlder(q, y) {
      assert OriginOlder(p, y);
    }
  }

  lemma CloneKeepsValid(p: Pool, s: Uuid, z: ZvolName, copies: nat)
    requires Valid(p) && CloneSnapshot(p, s, z, copies).Ok?
    ensures Valid(CloneSnapshot(p, s, z, copies).value)
  {
    var q := CloneSnapshot(p, s, z, copies).value;
    forall y | y in q.zvols && q.zvols[y].origin.Some? ensures OriginOlder(q, y) {
      if y != z {
        assert OriginOlder(p, y);
      }
    }
  }

  lemma SnapshotKeepsValid(p: Pool, z: ZvolName, s: Uuid)
    requires Valid(p) && TakeSnapshot(p, z, s).Ok?
    ensures Valid(TakeSnapshot(p, z, s).value)
  {
    var q := TakeSnapshot(p, z, s).value;
    forall y | y in q.zvols && q.zvols[y].origin.Some? ensures OriginOlder(q, y) {
      assert OriginOlder(p, y);
    }
  }

  lemma ReceiveKeepsValid(p: Pool, z: ZvolName, s: Uuid, content: Content, props: Props)
    requires Valid(p) && ReceiveStream(p, z, s, content, props).Ok?
    ensures Valid(ReceiveStream(p, z, s, content, props).value)
  {
    var q := ReceiveStream(p, z, s, content, props).value;
    forall y | y in q.zvols && q.zvols[y].origin.Some? ensures OriginOlder(q, y) {
      assert OriginOlder(p, y);
    }
  }

  lemma DestroyZvolKeepsValid(p: Pool, z: ZvolName)
    requires Valid(p) && DestroyZvol(p, z).Ok?
    ensures Valid(DestroyZvol(p, z).value)
  {
    var q := DestroyZvol(p, z).value;
    forall y | y in q.zvols && q.zvols[y].origin.Some? ensures OriginOlder(q, y) {
      assert OriginOlder(p, y);
    }
  }

  lemma DestroySnapshotKeepsValid(p: Pool, s: Uuid)
    requires Valid(p) && DestroySnapshot(p, s).Ok?
    ensures Valid(DestroySnapshot(p, s).value)
  {
    var q := DestroySnapshot(p, s).value;
    forall y | y in q.zvols && q.zvols[y].origin.Some? ensures OriginOlder(q, y) {
      assert OriginOlder(p, y);
    }
  }

  lemma {:induction false} RunKeepsValid(p: Pool, cs: seq<Prim>)
    requires Valid(p)
    ensures Valid(Run(p, cs))
    decreases cs
  {
    if cs != [] {
      StepKeepsValid(p, cs[0]);
      RunKeepsValid(After(p, cs[0]), cs[1..]);
    }
  }

  // ----- the origin relation is a forest -----

  /** The zvol a clone hangs off: the current holder of its origin. */
  function Parent(p: Pool, z: ZvolName): Option<ZvolName> {
    if z in p.zvols && p.zvols[z].origin.Some? && p.zvols[z].origin.value in p.snaps
    then Some(p.snaps[p.zvols[z].origin.value].holder)
    else None
  }

  /** `path` follows parents, one step at a time. */
  ghost predicate Ascends(p: Pool, path: seq<ZvolName>) {
    forall i, j :: 0 <= i && j == i + 1 && j < |path| ==> Parent(p, path[i]) == Some(path[j])
  }

  ghost function Rank(p: Pool, z: ZvolName): nat {
    if z in p.zvols && p.zvols[z].origin.Some? && p.zvols[z].origin.value in p.snaps
    then 1 + p.snaps[p.zvols[z].origin.value].txg
    else 0
  }

  lemma ParentRanksLower(p: Pool, z: ZvolName)
    requires Valid(p) && Parent(p, z).Some?
    ensures Parent(p, z).value in p.zvols
    ensures Rank(p, Parent(p, z).value) < Rank(p, z)
  {
    var h := Parent(p, z).value;
    if p.zvols[h].origin.Some? {
      assert OriginOlder(p, h);
    }
  }

  lemma {:induction false} RankFalls(p: Pool, path: seq<ZvolName>, i: nat, j: nat)
    requires Valid(p) && Ascends(p, path) && i < j < |path|
    ensures Rank(p, path[j]) < Rank(p, path[i])
    decreases j
  {
    assert Parent(p, path[j - 1]) == Some(path[j]);
    ParentRanksLower(p, path[j - 1]);
    if i < j - 1 {
      RankFalls(p, path, i, j - 1);
    }
  }

  /** No chain of origins ever returns to a zvol it has passed, and every chain ends in existing zvols. */
  lemma OriginsFormForest(p: Pool, path: seq<ZvolName>)
    requires Valid(p) && Ascends(p, path)
    ensures forall i, j :: 0 <= i < j < |path| ==> path[i] != path[j]
    ensures forall i :: 0 < i < |path| ==> path[i] in p.zvols
    ensures |path| > 0 ==> |path| <= Rank(p, path[0]) + 1
  {
    forall i, j | 0 <= i < j < |path| ensures path[i] != path[j] {
      RankFalls(p, path, i, j);
    }
    forall i | 0 < i < |path| ensures path[i] in p.zvols {
      assert Parent(p, path[i - 1]) == Some(path[i]);
      ParentRanksLower(p, path[i - 1]);
    }
    PathShort(p, path);
  }

  lemma {:induction false} PathShort(p: Pool, path: seq<ZvolName>)
    requires Valid(p) && Ascends(p, path)
    ensures |path| > 0 ==> |path| <= Rank(p, path[0]) + 1
  {
    if |path| > 1 {
      assert Parent(p, path[0]) == Some(path[1]);
      ParentRanksLower(p, path[0]);
      PathShort(p, path[1..]);
    }
  }

  /** Whatever sequence of primitives runs, in any interleaving and cut off anywhere, the origin
      relation stays a forest over existing zvols. */
  lemma ForestOverEveryRun(p: Pool, cs: seq<Prim>, path: seq<ZvolName>)
    requires Valid(p)
    requires Ascends(Run(p, cs), path)
    ensures forall i, j :: 0 <= i < j < |path| ==> path[i] != path[j]
    ensures forall i :: 0 < i < |path| ==> path[i] in Run(p, cs).zvols
  {
    RunKeepsValid(p, cs);
    OriginsFormForest(Run(p, cs), path);
  }

  // ----- snapshots are immutable -----

  /** Everything about a snapshot except who holds it. */
  predicate SameSnapshot(a: Snap, b: Snap) {
    a.txg == b.txg && a.content == b.content && a.volsize == b.volsize && a.volblocksize == b.volblocksize
  }

  lemma {:induction false} SnapshotsImmutable(p: Pool, cs: seq<Prim>, s: Uuid)
    requires s in p.snaps
    requires forall i :: 0 <= i < |cs| ==> cs[i] != PDestroySnapshot(s)
    ensures s in Run(p, cs).snaps && SameSnapshot(Run(p, cs).snaps[s], p.snaps[s])
    decreases cs
  {
    if cs != [] {
      assert cs[0] != PDestroySnapshot(s);
      SnapshotsImmutable(After(p, cs[0]), cs[1..], s);
    }
  }
}
