/** Whole runs of the volume plugin: what every run keeps, and what exactly decides the rest. */
module Runs {
  import opened Wrappers
  import opened ZfsPool
  import opened Promotion
  import opened Metabase
  import opened VolumeSpec
  import opened VolumeDriver
  import opened VolumeCopy

  datatype Op =
    | Create(sr: Dataset, size: nat, thin: bool, volblocksize: nat, available: nat)
    | ImportExisting(k: ZvolName)
    | Snapshot(k: ZvolName)
    | Clone(k: ZvolName)
    | CopyWithin(k: ZvolName, dstSr: Dataset)
    | Destroy(k: ZvolName)
    | Resize(k: ZvolName, newSize: nat)
    | SetCopies(k: ZvolName, copies: Option<nat>)
    | CleanUpOrphans(sr: Dataset, cleanup: Cleanup)
    | GuestWrite(k: ZvolName, content: Content)
    | Receive(sr: Dataset, props: Props)
    /** What a copy to or from another pool means for one of the two, and anything else that happens there. */
    | SendOut(k: ZvolName)
    | TakeIn(sr: Dataset, v: Zvol, recorded: Option<nat>)
    | Elsewhere

  predicate Local(op: Op) {
    !op.SendOut? && !op.TakeIn? && !op.Elsewhere?
  }

  /** What can be asked of a single host. */
  type LocalOp = op: Op | Local(op) witness ImportExisting(ZvolName(0, 0))

  datatype Outcome = Done | Failed(cause: DriverError) | CopyFailed(error: CopyError)

  type Inherited = map<Dataset, nat>

  function CopiesIn(copies: Inherited, sr: Dataset): nat {
    if sr in copies then copies[sr] else 1
  }

  // ----- one operation -----

  /** What an accepted operation makes of `d`. */
  ghost predicate Effect(copies: Inherited, d: Disk, op: Op, e: Disk) {
    match op
    case Create(sr, size, thin, block, _) =>
      block > 0 && exists z: ZvolName :: z.dataset == sr && Created(d, z, size, thin, block, CopiesIn(copies, sr), e)
    case ImportExisting(k) =>
      k in d.pool.zvols && k !in d.rows
          && e == Disk(d.pool, d.rows[k := Row(false, Some(d.pool.zvols[k].props.volsize), None)])
    case Snapshot(k) => exists n :: Snapshotted(d, k, n, CopiesIn(copies, k.dataset), e)
    case Clone(k) => exists z :: Cloned(d, k, z, CopiesIn(copies, k.dataset), e)
    case CopyWithin(k, dstSr) => exists z :: CopiedWithin(d, k, dstSr, z, CopiesIn(copies, dstSr), e)
    case Destroy(k) => DestroyDone(d, k, e)
    case Resize(k, newSize) => ResizeDone(d, k, newSize, e)
    case SetCopies(k, c) =>
      e.rows == d.rows && CopiesSet(d.pool, k, if c.Some? then c.value else CopiesIn(copies, k.dataset), e.pool)
    case CleanUpOrphans(sr, cleanup) => e.rows == d.rows && CleanedUp(d.pool, d.rows, sr, cleanup, e.pool)
    case GuestWrite(k, _) => e.rows == d.rows && WrittenOnly(d.pool, k, e.pool)
    case Receive(_, props) => e.rows == d.rows && Arrivals(d, props, e.pool)
    case SendOut(k) =>
      k in d.rows && k in d.pool.zvols && e.rows == Recovered(d, k) && Restored(d.pool, e.pool)
    case TakeIn(sr, v, recorded) => 
      exists z: ZvolName :: z.dataset == sr && TookIn(d, v, recorded, z, CopiesIn(copies, sr), e)
    case Elsewhere => e == d
  }

  /** The pool and rows with a copy of `v`, recorded with the size `recorded`. */
  ghost predicate TookIn(d: Disk, v: Zvol, recorded: Option<nat>, z: ZvolName, copies: nat, e: Disk) {
    && z !in d.rows && z !in d.pool.zvols && CopyOf(d.pool, e.pool, v, z, copies)
    && e.rows == d.rows[z := Row(false, recorded, None)]
  }

  /** What an operation that failed may have left: no row has come or gone, and no other VDI has lost
      anything. */
  ghost predicate Remains(d: Disk, op: Op, out: Outcome, e: Disk) {
    match op
    case Destroy(k) => e.rows == d.rows && DestroyLeft(d, k, out == Failed(CommitFailed), e)
    case Resize(k, newSize) => ResizeLeft(d, k, newSize, e)
    case SetCopies(k, _) =>
      && e.rows == d.rows && OnlyZvol(d.pool, k, e.pool)
      && (k in d.pool.zvols && k in e.pool.zvols ==> OnlyCopiesDiffer(d.pool.zvols[k], e.pool.zvols[k]))
    case CopyWithin(k, _) => RowsUpToSize(d.rows, e.rows, k) && Extends(d.pool, e.pool)
    case SendOut(k) => RowsUpToSize(d.rows, e.rows, k) && Extends(d.pool, e.pool)
    case _ => e.rows == d.rows && Extends(d.pool, e.pool)
  }

  /** Nothing but the zvol `k` differs. */
  ghost predicate OnlyZvol(p: Pool, k: ZvolName, q: Pool) {
    q == p || (k in p.zvols && k in q.zvols && q == p.(zvols := p.zvols[k := q.zvols[k]]))
  }

  /** Zvols whose reservation the operation may leave unfit: only those it was busy with, and only if it
      stopped between its two commands or was asked for something that does not fit. */
  function Loosened(op: Op, out: Outcome, p: Pool, q: Pool): set<ZvolName> {
    match op
    case Create(_, size, thin, block, _) =>
      if !thin && block > 0 && (size % block != 0 || HalfDone(out)) then q.zvols.Keys - p.zvols.Keys else {}
    case Resize(k, _) => if HalfDone(out) then {k} else {}
    case SetCopies(k, _) => if HalfDone(out) then {k} else {}
    case Receive(_, props) => if ThickOk(props) then {} else q.zvols.Keys - p.zvols.Keys
    case _ => {}
  }

  predicate HalfDone(out: Outcome) {
    out.Failed? && out.cause.ZfsFailed?
  }

  /** Zvols whose reservation the operation makes fit. */
  function Tightened(op: Op, out: Outcome): set<ZvolName> {
    if out.Done? && (op.Resize? || op.SetCopies?) then {op.k} else {}
  }

  /** What the operation works on is there, and what it is asked for is allowed. */
  ghost predicate Possible(copies: Inherited, d: Disk, op: Op) {
    match op
    case Create(sr, size, thin, block, available) =>
      block > 0 && (thin || size * CopiesIn(copies, sr) <= available)
    case ImportExisting(k) => k in d.pool.zvols && k !in d.rows
    case Snapshot(k) => KnownSize(d, k).Some? && SnapshotSource(d.rows, k) in d.pool.zvols
    case Clone(k) => KnownSize(d, k).Some? && Cloneable(d, k)
    case CopyWithin(k, _) => k in d.rows && k in d.pool.zvols
    case SendOut(k) => k in d.rows && k in d.pool.zvols
    case Destroy(k) => Destroyable(d, k)
    case Resize(k, newSize) => k in d.pool.zvols && KnownSize(d, k).Some? && KnownSize(d, k).value <= newSize
    case SetCopies(k, c) => k in d.pool.zvols && (c.None? || c.value in {1, 2, 3})
    case _ => true
  }

  /** Something was busy, a commit failed, or a stream between pools broke. */
  predicate BadLuck(out: Outcome) {
    match out
    case Done => false
    case Failed(cause) => cause in {ZfsFailed(EBUSY), CommitFailed}
    case CopyFailed(error) =>
      && (error.NotStarted? ==> error.cause in {ZfsFailed(EBUSY), CommitFailed})
      && (error.ReplicationFailed? ==> error.refusal in {None, Some(EBUSY)})
  }

  /** An operation goes through exactly if it is possible, bad luck apart. */
  ghost predicate StepOk(copies: Inherited, d: Disk, op: Op, out: Outcome, e: Disk) {
    && (out.Done? ==> Possible(copies, d, op)) && (Possible(copies, d, op) ==> out.Done? || BadLuck(out))
    && Came(copies, d, op, out, e)
  }

  /** The state the operation has led to. */
  ghost predicate Came(copies: Inherited, d: Disk, op: Op, out: Outcome, e: Disk) {
    && (if out.Done? then Effect(copies, d, op, e) else Remains(d, op, out, e))
    && Tight(d.pool, e.pool, Loosened(op, out, d.pool, e.pool))
  }

  /** The sizes the operation records are those of the zvols it records them for. */
  ghost predicate SizesFit(d: Disk, op: Op) {
    match op
    case Snapshot(k) => SnapshotSized(d, k)
    case Clone(k) => CloneSized(d, k)
    case CopyWithin(k, _) => CopySized(d, k)
    case TakeIn(_, v, recorded) => recorded.Some? ==> recorded.value == v.props.volsize
    case Destroy(k) => VolumeVdi(d, k) ==> DestroySized(d, k)
    case _ => true
  }

  /** The operation takes no snapshot VDI out of its SR. */
  ghost predicate KeepsHome(d: Disk, doomed: set<ZvolName>, op: Op) {
    op.Destroy? && VolumeVdi(d, op.k) ==> Steers(d, doomed, op.k)
  }

  predicate WithinSr(op: Op) {
    op.CopyWithin? ==> op.dstSr == op.k.dataset
  }

  ghost function StillPromised(kept: Promises, d: Disk, doomed: set<ZvolName>, op: Op): Promises {
    Promises(kept.oneSr && WithinSr(op), kept.inSr && KeepsHome(d, doomed, op), kept.sized && SizesFit(d, op))
  }

  /** The VDI the operation has begun to take away. */
  ghost function DoomedBy(d: Disk, op: Op, e: Disk): set<ZvolName> {
    if op.Destroy? && HalfGone(d, op.k, e) then {op.k} else {}
  }

  /** Accepted if possible. */
  ghost predicate Smooth(copies: Inherited, d: Disk, op: Op, out: Outcome) {
    Possible(copies, d, op) ==> out.Done?
  }

  ghost predicate AllSmooth(copies: Inherited, c: Course) {
    c.Fits() && forall i :: 0 <= i < |c.ops| ==> Smooth(copies, c.seen[i], c.ops[i], c.outs[i])
  }

  /** What the operation is excused by: nothing possible fails without a mishap, one that reports a busy
      device or a lost commit has met with just that, and one that is done has met with none. Cleanup, which
      never fails, leaves behind only what it found busy. */
  ghost predicate Excused(copies: Inherited, d: Disk, op: Op, out: Outcome, e: Disk, was: seq<Mishap>,
                          now: seq<Mishap>) {
    && was <= now && (Possible(copies, d, op) && !out.Done? ==> now != was)
    && (out.Failed? ==> Blamed(Some(out.cause), was, now))
    && (out.Done? && !Unanswered(op) ==> now == was)
    && (op.CleanUpOrphans? ==> WellSwept(d.pool, d.rows, op.sr, op.cleanup, e.pool, was, now))
  }

  /** Whatever happens, the driver reports no failure of it. */
  predicate Unanswered(op: Op) {
    op.CleanUpOrphans? || op.GuestWrite? || op.Receive?
  }

  /** One operation, which may fail at any of its steps. */
  method Perform(h: Host, op: LocalOp) returns (out: Outcome)
    requires h.Safe() && h.Guarded()
    modifies h
    ensures h.Safe()
    ensures h.doomed == old(h.doomed) + DoomedBy(old(h.Now()), op, h.Now())
    ensures StepOk(h.inheritedCopies, old(h.Now()), op, out, h.Now())
    ensures Excused(h.inheritedCopies, old(h.Now()), op, out, h.Now(), old(h.mishaps), h.mishaps)
    ensures AtLeast(h.promises, StillPromised(old(h.promises), old(h.Now()), old(h.doomed), op))
  {
    hide Host.Safe, Host.Guarded, StillPromised, Possible, Came, Excused;
    out := Attempt(h, op);
    if out.Done? {
      DonePossible(h.inheritedCopies, old(h.Now()), op, out, h.Now());
    }
  }

  /** A request that is not refused for what it asks. */
  predicate Asked(copies: Inherited, op: Op) {
    match op
    case Create(sr, size, thin, block, available) =>
      block > 0 && (thin || size * CopiesIn(copies, sr) <= available)
    case SetCopies(_, c) => c.None? || c.value in {1, 2, 3}
    case _ => true
  }

  /** An operation that has had its effect had all it works on. */
  lemma DonePossible(copies: Inherited, d: Disk, op: Op, out: Outcome, e: Disk)
    requires Came(copies, d, op, out, e) && out.Done?
    requires Asked(copies, op) && (op.Destroy? ==> KnownSize(d, op.k).Some?)
    ensures Possible(copies, d, op)
  {
    hide SnapshotDestroyable, Tight, Loosened, ForkedOff, Created, ForkMade;
    if op.Destroy? && VolumeVdi(d, op.k) {
      var made :| VolumeDestroyed(d, op.k, made, e);
      VolumeWasThere(d, op.k, made, e);
    }
  }

  lemma VolumeWasThere(d: Disk, k: ZvolName, made: seq<ZvolName>, e: Disk)
    requires VolumeDestroyed(d, k, made, e)
    ensures k in d.pool.zvols
  {
  }

  method Attempt(h: Host, op: LocalOp) returns (out: Outcome)
    requires h.Safe() && h.Guarded()
    modifies h
    ensures h.Safe()
    ensures h.doomed == old(h.doomed) + DoomedBy(old(h.Now()), op, h.Now())
    ensures Came(h.inheritedCopies, old(h.Now()), op, out, h.Now())
    ensures Excused(h.inheritedCopies, old(h.Now()), op, out, h.Now(), old(h.mishaps), h.mishaps)
    ensures out.Done? ==> Asked(h.inheritedCopies, op) && (op.Destroy? ==> KnownSize(old(h.Now()), op.k).Some?)
    ensures old(Possible(h.inheritedCopies, h.Now(), op)) ==> out.Done? || BadLuck(out)
    ensures AtLeast(h.promises, StillPromised(old(h.promises), old(h.Now()), old(h.doomed), op))
  {
    hide Host.Safe, Host.Guarded, StillPromised, Possible, Came, Excused;
    if Unanswered(op) {
      out := Done;
      Happen(h, op);
      StillAsPromised(h.promises, old(h.Now()), old(h.doomed), op);
    } else if op.Destroy? || op.Resize? || op.SetCopies? {
      out := Alter(h, op);
    } else {
      out := Add(h, op);
    }
  }

  lemma StillAsPromised(now: Promises, d: Disk, doomed: set<ZvolName>, op: Op)
    ensures AtLeast(now, StillPromised(now, d, doomed, op))
  {
  }

  /** Operations that only add something. */
  method Add(h: Host, op: LocalOp) returns (out: Outcome)
    requires h.Safe() && h.Guarded() && !Unanswered(op) && !op.Destroy? && !op.Resize? && !op.SetCopies?
    modifies h
    ensures h.Safe() && h.doomed == old(h.doomed)
    ensures Came(h.inheritedCopies, old(h.Now()), op, out, h.Now())
    ensures Excused(h.inheritedCopies, old(h.Now()), op, out, h.Now(), old(h.mishaps), h.mishaps)
    ensures out.Done? ==> Asked(h.inheritedCopies, op)
    ensures old(Possible(h.inheritedCopies, h.Now(), op)) ==> out.Done? || BadLuck(out)
    ensures AtLeast(h.promises, StillPromised(old(h.promises), old(h.Now()), old(h.doomed), op))
  {
    hide Host.Safe, Host.Guarded, Valid, Tight, SnapshotSized, CloneSized, CopySized, Created, Snapshotted, Cloned;
    hide CopiedWithin, Extends, RowsUpToSize, Cloneable;
    h.NothingNew(h.pool);
    assert forall sr :: h.CopiesOf(sr) == CopiesIn(h.inheritedCopies, sr);
    match op
    case Create(sr, size, thin, block, available) =>
      if block == 0 {
        return Failed(InvalidValue);
      }
      var r := h.Create(sr, size, thin, block, available);
      out := if r.Ok? then Done else Failed(r.error);
    case ImportExisting(k) =>
      var r := h.ImportExisting(k);
      out := if r.Ok? then Done else Failed(r.error);
    case Snapshot(k) =>
      var r := h.Snapshot(k);
      out := if r.Ok? then Done else Failed(r.error);
    case Clone(k) =>
      var r := h.Clone(k);
      out := if r.Ok? then Done else Failed(r.error);
    case CopyWithin(k, dstSr) =>
      var r := VolumeCopy.CopyWithin(h, k, dstSr);
      out := if r.Ok? then Done else CopyFailed(r.error);
  }

  /** Operations on what is there. */
  method Alter(h: Host, op: LocalOp) returns (out: Outcome)
    requires h.Safe() && h.Guarded() && (op.Destroy? || op.Resize? || op.SetCopies?)
    modifies h
    ensures h.Safe()
    ensures h.doomed == old(h.doomed) + DoomedBy(old(h.Now()), op, h.Now())
    ensures Came(h.inheritedCopies, old(h.Now()), op, out, h.Now())
    ensures Excused(h.inheritedCopies, old(h.Now()), op, out, h.Now(), old(h.mishaps), h.mishaps)
    ensures out.Done? ==> Asked(h.inheritedCopies, op) && (op.Destroy? ==> KnownSize(old(h.Now()), op.k).Some?)
    ensures old(Possible(h.inheritedCopies, h.Now(), op)) ==> out.Done? || BadLuck(out)
    ensures AtLeast(h.promises, StillPromised(old(h.promises), old(h.Now()), old(h.doomed), op))
  {
    hide Host.Safe, Host.Guarded, Valid, Steers, Tight, DestroySized, DestroyDone, ResizeDone, CopiesSet, DataKept;
    hide Shrunk, RowsUpToSize, OnlyZvol, Host.Resizing, Destroyable, DestroyLeft, HalfGone, ResizeLeft;
    hide OnlyCopiesDiffer;
    h.NothingNew(h.pool);
    assert forall sr :: h.CopiesOf(sr) == CopiesIn(h.inheritedCopies, sr);
    match op
    case Destroy(k) =>
      var r := h.Destroy(k);
      out := if r.Ok? then Done else Failed(r.error);
    case Resize(k, newSize) =>
      var r := h.Resize(k, newSize);
      out := if r.Ok? then Done else Failed(r.error);
    case SetCopies(k, c) =>
      var r := h.SetCopies(k, c);
      OneVdi(old(h.Now()), h.Now(), k);
      out := if r.Ok? then Done else Failed(r.error);
  }

  /** What cannot fail: cleanup does what it can, and the rest is not up to the driver. */
  method Happen(h: Host, op: LocalOp)
    requires h.Safe() && h.Guarded() && Unanswered(op)
    modifies h
    ensures h.Safe() && h.doomed == old(h.doomed) && h.promises == old(h.promises)
    ensures Came(h.inheritedCopies, old(h.Now()), op, Done, h.Now())
    ensures Excused(h.inheritedCopies, old(h.Now()), op, Done, h.Now(), old(h.mishaps), h.mishaps)
  {
    hide Host.Safe, Host.Guarded, Valid, Tight, CleanedUp, WellSwept, WrittenOnly, Arrivals;
    match op
    case CleanUpOrphans(sr, cleanup) =>
      h.CleanUpOrphans(sr, cleanup);
      LittleHappens(old(h.Now()), h.Now(), op);
    case GuestWrite(k, content) =>
      h.GuestWrite(k, content);
      LittleHappens(old(h.Now()), h.Now(), op);
    case Receive(sr, props) =>
      h.Receive(sr, props);
      LittleHappens(old(h.Now()), h.Now(), op);
  }

  lemma OneVdi(d: Disk, e: Disk, k: ZvolName)
    requires if k in d.pool.zvols then k in e.pool.zvols
             && e.pool == d.pool.(zvols := d.pool.zvols[k := e.pool.zvols[k]]) else e.pool == d.pool
    ensures OnlyZvol(d.pool, k, e.pool)
  {
  }

  lemma LittleHappens(d: Disk, e: Disk, op: Op)
    ensures op.CleanUpOrphans? && CleanedUp(d.pool, d.rows, op.sr, op.cleanup, e.pool) ==> Tight(d.pool, e.pool, {})
    ensures op.GuestWrite? && WrittenOnly(d.pool, op.k, e.pool) ==> Tight(d.pool, e.pool, {})
    ensures op.Receive? && Arrivals(d, op.props, e.pool) ==> Tight(d.pool, e.pool, Loosened(op, Done, d.pool, e.pool))
  {
  }

  // ----- runs -----

  /** `seen` are the states between the operations. */
  ghost predicate Trace(copies: Inherited, ops: seq<Op>, outs: seq<Outcome>, seen: seq<Disk>) {
    && |outs| == |ops| && |seen| == |ops| + 1
    && forall i :: 0 <= i < |ops| ==> StepOk(copies, seen[i], ops[i], outs[i], seen[i + 1])
  }

  predicate AllWithinSr(ops: seq<Op>) {
    forall i :: 0 <= i < |ops| ==> WithinSr(ops[i])
  }

  ghost predicate AllKeepHome(seen: seq<Disk>, doomed: set<ZvolName>, ops: seq<Op>)
    requires |seen| >= |ops|
  {
    forall i :: 0 <= i < |ops| ==> KeepsHome(seen[i], doomed, ops[i])
  }

  ghost predicate AllSizesFit(seen: seq<Disk>, ops: seq<Op>)
    requires |seen| >= |ops|
  {
    forall i :: 0 <= i < |ops| ==> SizesFit(seen[i], ops[i])
  }

  /** What has been promised from `kept` on is still promised, as far as the operations allow. */
  ghost predicate PromisesStand(kept: Promises, doomed: set<ZvolName>, seen: seq<Disk>, ops: seq<Op>, now: Promises)
    requires |seen| >= |ops|
  {
    && (kept.oneSr && AllWithinSr(ops) ==> now.oneSr && (kept.inSr ==> now.inSr))
    && (kept.inSr && AllKeepHome(seen, doomed, ops) ==> now.inSr)
    && (kept.sized && AllSizesFit(seen, ops) ==> now.sized)
  }

  /** As long as clones stay in the SR of their origin, promotion cannot take a snapshot elsewhere. */
  lemma SameSrKeepsHome(d: Disk, doomed: set<ZvolName>, op: Op)
    requires SameSr(d.pool) && RowsBacked(d, doomed)
    ensures KeepsHome(d, doomed, op)
  {
    if op.Destroy? && VolumeVdi(d, op.k) {
      forall j, z | j in d.rows && j !in doomed && d.rows[j].snap && j.uuid in d.pool.snaps
          && d.pool.snaps[j.uuid].holder == op.k && IsFirstClone(d.pool, z, j.uuid)
        ensures z.dataset == j.dataset
      {
        assert Backed(d.pool, j, d.rows[j]);
      }
    }
  }

  lemma PromisesStandStep(kept: Promises, doomed: set<ZvolName>, more: set<ZvolName>, seen: seq<Disk>, ops: seq<Op>,
                          op: Op, before: Promises, now: Promises, e: Disk)
    requires |seen| == |ops| + 1 && PromisesStand(kept, doomed, seen, ops, before)
    requires var d := seen[|ops|];
             && doomed <= more && Sound(d, more, before) && AtLeast(now, StillPromised(before, d, more, op))
    ensures PromisesStand(kept, doomed, seen + [e], ops + [op], now)
  {
    hide Valid, Steers, SizesFit;
    var d, seen', ops' := seen[|ops|], seen + [e], ops + [op];
    assert forall i :: 0 <= i < |ops| ==> seen'[i] == seen[i] && ops'[i] == ops[i];
    assert seen'[|ops|] == d && ops'[|ops|] == op;
    if before.oneSr && before.inSr {
      SameSrKeepsHome(d, more, op);
    }
    if KeepsHome(d, doomed, op) && op.Destroy? && VolumeVdi(d, op.k) {
      SteersLess(d, doomed, more, op.k);
    }
    assert AllWithinSr(ops') ==> AllWithinSr(ops) && WithinSr(op);
    assert AllKeepHome(seen', doomed, ops') ==> AllKeepHome(seen, doomed, ops) && KeepsHome(d, doomed, op);
    assert AllSizesFit(seen', ops') ==> AllSizesFit(seen, ops) && SizesFit(d, op);
  }

  lemma TraceStep(copies: Inherited, ops: seq<Op>, outs: seq<Outcome>, seen: seq<Disk>, op: Op, out: Outcome, e: Disk)
    requires Trace(copies, ops, outs, seen) && StepOk(copies, seen[|ops|], op, out, e)
    ensures Trace(copies, ops + [op], outs + [out], seen + [e])
  {
    hide StepOk;
    var ops', outs', seen' := ops + [op], outs + [out], seen + [e];
    forall i | 0 <= i < |ops'| ensures StepOk(copies, seen'[i], ops'[i], outs'[i], seen'[i + 1]) {
      if i < |ops| {
        assert StepOk(copies, seen[i], ops[i], outs[i], seen[i + 1]);
        assert seen'[i] == seen[i] && seen'[i + 1] == seen[i + 1];
      }
    }
  }

  // ----- VDIs a failed destruction has left without zvol or snapshot -----

  /** The VDI a destruction has taken something away from without getting to the end. */
  ghost function Torn(d: Disk, op: Op, out: Outcome, e: Disk): set<ZvolName> {
    if out.Done? then {} else DoomedBy(d, op, e)
  }

  ghost function Undone(ops: seq<Op>, outs: seq<Outcome>, seen: seq<Disk>, n: nat): set<ZvolName>
    requires n <= |ops| == |outs| && |seen| == |ops| + 1
  {
    if n == 0 then {} else Undone(ops, outs, seen, n - 1) + Torn(seen[n - 1], ops[n - 1], outs[n - 1], seen[n])
  }

  lemma {:induction false} UndoneGoesOn(ops: seq<Op>, outs: seq<Outcome>, seen: seq<Disk>, op: Op, out: Outcome,
                                        e: Disk, n: nat)
    requires n <= |ops| == |outs| && |seen| == |ops| + 1
    ensures Undone(ops + [op], outs + [out], seen + [e], n) == Undone(ops, outs, seen, n)
  {
    if n > 0 {
      UndoneGoesOn(ops, outs, seen, op, out, e, n - 1);
    }
  }

  /** A volume is among them only if its destruction failed at the commit, a snapshot VDI only if its
      destruction failed after its clone was gone. */
  lemma {:induction false} UndoneMeans(copies: Inherited, ops: seq<Op>, outs: seq<Outcome>, seen: seq<Disk>, n: nat,
                                       k: ZvolName)
    requires Trace(copies, ops, outs, seen) && n <= |ops| && k in Undone(ops, outs, seen, n)
    ensures exists i :: 0 <= i < n && ops[i] == Destroy(k) && !outs[i].Done? && k in seen[i].rows
                        && (outs[i] == Failed(CommitFailed) || seen[i].rows[k].snap)
  {
    var i := n - 1;
    if k in Undone(ops, outs, seen, i) {
      UndoneMeans(copies, ops, outs, seen, i, k);
    } else {
      assert StepOk(copies, seen[i], ops[i], outs[i], seen[n]);
      assert ops[i] == Destroy(k) && !outs[i].Done? && k in seen[i].rows;
    }
  }

  // ----- how far a run has come -----

  /** What a run starts with. */
  datatype Begin = Begin(copies: Inherited, kept: Promises, doomed: set<ZvolName>)

  /** What has happened in it, and the states between the operations. */
  datatype Course = Course(ops: seq<Op>, outs: seq<Outcome>, seen: seq<Disk>) {
    ghost predicate Fits() {
      |outs| == |ops| && |seen| == |ops| + 1
    }

    function With(op: Op, out: Outcome, e: Disk): Course {
      Course(ops + [op], outs + [out], seen + [e])
    }

    function Last(): Disk
      requires seen != []
    {
      seen[|seen| - 1]
    }
  }

  /** In all states between the operations the pool is well formed, and every VDI has its zvol or snapshot
      unless it was doomed at the start or a failed destruction has torn it. */
  ghost predicate AllPresent(b: Begin, c: Course)
    requires c.Fits()
  {
    forall i :: 0 <= i <= |c.ops| ==>
        Valid(c.seen[i].pool) && RowsPresent(c.seen[i], b.doomed + Undone(c.ops, c.outs, c.seen, i))
  }

  ghost predicate Ran(b: Begin, c: Course, now: Promises, doomed: set<ZvolName>) {
    && c.Fits() && Trace(b.copies, c.ops, c.outs, c.seen)
    && PromisesStand(b.kept, b.doomed, c.seen, c.ops, now)
    && AllPresent(b, c) && b.doomed <= doomed
    && (forall k :: k in doomed ==> k in b.doomed || Destroy(k) in c.ops)
    && (forall k :: k in doomed && k in c.Last().rows ==> k in b.doomed + Undone(c.ops, c.outs, c.seen, |c.ops|))
  }

  /** One operation more. */
  lemma RanOn(b: Begin, c: Course, before: Promises, doomed: set<ZvolName>, op: Op, out: Outcome, e: Disk,
              now: Promises, more: set<ZvolName>)
    requires Ran(b, c, before, doomed) && Sound(c.Last(), doomed, before)
    requires StepOk(b.copies, c.Last(), op, out, e) && AtLeast(now, StillPromised(before, c.Last(), doomed, op))
    requires more == doomed + DoomedBy(c.Last(), op, e) && Sound(e, more, now)
    requires forall k :: k in more ==> k !in e.pool.zvols
    ensures Ran(b, c.With(op, out, e), now, more)
  {
    hide StepOk, Valid, PromisesStand, Trace, Sound, AllPresent, StillPromised;
    var d, c' := c.Last(), c.With(op, out, e);
    TraceStep(b.copies, c.ops, c.outs, c.seen, op, out, e);
    PromisesStandStep(b.kept, b.doomed, doomed, c.seen, c.ops, op, before, now, e);
    UndoneGoesOn(c.ops, c.outs, c.seen, op, out, e, |c.ops|);
    assert c'.ops[|c.ops|] == op && c'.outs[|c.ops|] == out && c'.seen[|c.ops|] == d && c'.seen[|c.ops| + 1] == e;
    var undone := Undone(c.ops, c.outs, c.seen, |c.ops|);
    assert Undone(c'.ops, c'.outs, c'.seen, |c'.ops|) == undone + Torn(d, op, out, e);
    forall k | k in more && k in e.rows ensures k in b.doomed + (undone + Torn(d, op, out, e)) {
      DoomedStillThere(b.copies, d, op, out, e, more, k);
    }
    AllPresentOn(b, c, op, out, e, now, more);
    DestroysIn(c.ops, op);
  }

  lemma DestroysIn(ops: seq<Op>, op: Op)
    ensures forall k :: Destroy(k) in ops || op == Destroy(k) ==> Destroy(k) in ops + [op]
  {
  }

  /** A doomed VDI has a row after the operation only if it had one, and was doomed or torn. */
  lemma DoomedStillThere(copies: Inherited, d: Disk, op: Op, out: Outcome, e: Disk, more: set<ZvolName>, k: ZvolName)
    requires StepOk(copies, d, op, out, e) && k in more && k in e.rows && k !in e.pool.zvols
    ensures k in d.rows && (k in DoomedBy(d, op, e) ==> k in Torn(d, op, out, e))
  {
    hide Tight, Possible;
    if out.Done? {
      RowsCome(copies, d, op, e, k);
    } else {
      RowsRemain(d, op, out, e);
    }
  }

  lemma RowsRemain(d: Disk, op: Op, out: Outcome, e: Disk)
    requires Remains(d, op, out, e)
    ensures e.rows.Keys == d.rows.Keys
  {
  }

  /** An accepted operation gives a row only to what has a zvol, and takes that of what it destroys. */
  lemma RowsCome(copies: Inherited, d: Disk, op: Op, e: Disk, k: ZvolName)
    requires Effect(copies, d, op, e) && k in e.rows && k !in e.pool.zvols
    ensures k in d.rows && (op.Destroy? ==> op.k != k)
  {
    hide Valid, ForkMade, ForkedOff, CopyOf, CleanedUp, Arrivals, WrittenOnly, CopiesSet, SnapshotDestroyable;
    match op
    case Snapshot(j) =>
      var n :| Snapshotted(d, j, n, CopiesIn(copies, j.dataset), e);
    case Clone(j) =>
      var z :| Cloned(d, j, z, CopiesIn(copies, j.dataset), e);
      ForkIsThere(d.pool, e.pool, j, d.rows[j].snap, z, CopiesIn(copies, j.dataset));
    case CopyWithin(j, dstSr) =>
      var z :| CopiedWithin(d, j, dstSr, z, CopiesIn(copies, dstSr), e);
      CopyIsThere(d.pool, e.pool, j, z, CopiesIn(copies, dstSr));
    case TakeIn(sr, v, recorded) =>
      var z: ZvolName :| z.dataset == sr && TookIn(d, v, recorded, z, CopiesIn(copies, sr), e);
      ArrivalIsThere(d.pool, e.pool, v, z, CopiesIn(copies, sr));
    case Destroy(j) =>
      if VolumeVdi(d, j) {
        var made :| VolumeDestroyed(d, j, made, e);
        MadeAreThere(d, j, made, e);
      }
    case _ =>
  }

  lemma ForkIsThere(p: Pool, q: Pool, k: ZvolName, snap: bool, z: ZvolName, copies: nat)
    requires ForkMade(p, q, k, snap, z, copies)
    ensures z in q.zvols
  {
  }

  lemma CopyIsThere(p: Pool, q: Pool, k: ZvolName, z: ZvolName, copies: nat)
    requires k in p.zvols && ForkedOff(p, q, k, z, copies)
    ensures z in q.zvols
  {
  }

  lemma ArrivalIsThere(p: Pool, q: Pool, v: Zvol, z: ZvolName, copies: nat)
    requires CopyOf(p, q, v, z, copies)
    ensures z in q.zvols
  {
  }

  lemma MadeAreThere(d: Disk, v: ZvolName, made: seq<ZvolName>, e: Disk)
    requires VolumeDestroyed(d, v, made, e)
    ensures forall c :: c in made && c != v ==> c in e.pool.zvols
  {
    hide Valid;
    var q :| Freed(d.pool, q, v, made) && e.pool == q.(zvols := q.zvols - {v});
    var p1, snaps, deps :| Chosen(d.pool, p1, v, snaps, deps, made) && PromoteAll(p1, deps) == Ok(q);
    PromoteAllKeepsData(p1, deps);
    assert forall c :: c in made ==> c in p1.zvols by {
      MadeGrown(d.pool, p1, made);
    }
  }

  lemma MadeGrown(p: Pool, q: Pool, made: seq<ZvolName>)
    requires GrownByClones(p, q, set c | c in made)
    ensures forall c :: c in made ==> c in q.zvols
  {
  }

  lemma AllPresentOn(b: Begin, c: Course, op: Op, out: Outcome, e: Disk, now: Promises, more: set<ZvolName>)
    requires c.Fits() && AllPresent(b, c) && Sound(e, more, now)
    requires var undone := Undone(c.ops, c.outs, c.seen, |c.ops|) + Torn(c.Last(), op, out, e);
             forall k :: k in more && k in e.rows ==> k in b.doomed + undone
    ensures AllPresent(b, c.With(op, out, e))
  {
    hide Valid, Torn, Undone;
    var c' := c.With(op, out, e);
    forall i | 0 <= i <= |c'.ops|
      ensures Valid(c'.seen[i].pool) && RowsPresent(c'.seen[i], b.doomed + Undone(c'.ops, c'.outs, c'.seen, i))
    {
      if i <= |c.ops| {
        UndoneGoesOn(c.ops, c.outs, c.seen, op, out, e, i);
        assert c'.seen[i] == c.seen[i] && Valid(c.seen[i].pool)
               && RowsPresent(c.seen[i], b.doomed + Undone(c.ops, c.outs, c.seen, i));
      } else {
        LastUndone(c, op, out, e);
        assert c'.seen[i] == e;
      }
    }
  }

  lemma LastUndone(c: Course, op: Op, out: Outcome, e: Disk)
    requires c.Fits()
    ensures var c' := c.With(op, out, e);
            Undone(c'.ops, c'.outs, c'.seen, |c'.ops|) ==
                Undone(c.ops, c.outs, c.seen, |c.ops|) + Torn(c.Last(), op, out, e)
  {
    UndoneGoesOn(c.ops, c.outs, c.seen, op, out, e, |c.ops|);
  }

  /** What is promised of every state a crash could have left, in a run like this. */
  ghost predicate Kept(b: Begin, c: Course, history: seq<Disk>, doomed: set<ZvolName>)
    requires c.Fits()
  {
    var withinSr := b.kept.oneSr && AllWithinSr(c.ops);
    && (forall d :: d in history ==> Valid(d.pool) && RowsPresent(d, doomed))
    && (withinSr ==> forall d :: d in history ==> SameSr(d.pool))
    && (b.kept.inSr && (withinSr || AllKeepHome(c.seen, b.doomed, c.ops)) ==>
          forall d :: d in history ==> RowsBacked(d, doomed))
    && (b.kept.sized && AllSizesFit(c.seen, c.ops) ==> forall d :: d in history ==> SizesRight(d))
  }

  lemma WhatIsKept(b: Begin, c: Course, now: Promises, history: seq<Disk>, doomed: set<ZvolName>)
    requires Ran(b, c, now, doomed) && forall d :: d in history ==> Sound(d, doomed, now)
    ensures Kept(b, c, history, doomed)
  {
    hide Valid, RowsPresent, RowsBacked, SizesRight, SameSr, AllWithinSr, AllKeepHome, AllSizesFit, Trace, AllPresent;
    forall d | d in history
      ensures && Valid(d.pool) && RowsPresent(d, doomed) && (now.oneSr ==> SameSr(d.pool))
              && (now.inSr ==> RowsBacked(d, doomed)) && (now.sized ==> SizesRight(d))
    {
      assert Sound(d, doomed, now);
    }
  }

  lemma RunBegins(b: Begin, d: Disk)
    requires Sound(d, b.doomed, b.kept)
    ensures Ran(b, Course([], [], [d]), b.kept, b.doomed)
  {
  }

  lemma StillGuarded(b: Begin, c: Course, now: Promises, doomed: set<ZvolName>)
    requires Ran(b, c, now, doomed) && b.kept.oneSr && b.kept.inSr && AllWithinSr(c.ops)
    ensures now.inSr
  {
  }

  /** The run goes on with one operation. */
  method StepOn(h: Host, op: LocalOp, ghost b: Begin, ghost c: Course) returns (out: Outcome)
    requires h.Safe() && h.Guarded() && b.copies == h.inheritedCopies
    requires Ran(b, c, h.promises, h.doomed) && c.seen != [] && c.Last() == h.Now()
    modifies h
    ensures h.Safe() && Ran(b, c.With(op, out, h.Now()), h.promises, h.doomed)
    ensures Excused(b.copies, old(h.Now()), op, out, h.Now(), old(h.mishaps), h.mishaps)
  {
    hide Host.Safe, Ran, Sound, StepOk, Host.Guarded, StillPromised, Excused;
    h.PastSound();
    ghost var before, doomed := h.promises, h.doomed;
    out := Perform(h, op);
    h.PastSound();
    h.DoomedAreGone();
    RanOn(b, c, before, doomed, op, out, h.Now(), h.promises, h.doomed);
  }

  /** `met` are the mishaps met with so far, between the operations. */
  ghost predicate AllExcused(copies: Inherited, c: Course, met: seq<seq<Mishap>>)
    requires c.Fits()
  {
    |met| == |c.ops| + 1 && forall i :: 0 <= i < |c.ops| ==>
      Excused(copies, c.seen[i], c.ops[i], c.outs[i], c.seen[i + 1], met[i], met[i + 1])
  }

  lemma ExcusedOn(copies: Inherited, c: Course, met: seq<seq<Mishap>>, op: Op, out: Outcome, e: Disk,
                  now: seq<Mishap>)
    requires c.Fits() && AllExcused(copies, c, met) && Excused(copies, c.Last(), op, out, e, met[|c.ops|], now)
    ensures AllExcused(copies, c.With(op, out, e), met + [now])
  {
    hide Excused;
    var c', met' := c.With(op, out, e), met + [now];
    forall i | 0 <= i < |c'.ops|
      ensures Excused(copies, c'.seen[i], c'.ops[i], c'.outs[i], c'.seen[i + 1], met'[i], met'[i + 1])
    {
      if i < |c.ops| {
        assert Excused(copies, c.seen[i], c.ops[i], c.outs[i], c.seen[i + 1], met[i], met[i + 1]);
      }
    }
  }

  /** In a run that meets with no mishap, exactly the possible operations are accepted. */
  lemma LuckyRun(copies: Inherited, c: Course, met: seq<seq<Mishap>>, i: nat)
    requires c.Fits() && Trace(copies, c.ops, c.outs, c.seen) && AllExcused(copies, c, met)
    requires met[|c.ops|] == met[0] && i < |c.ops|
    ensures c.outs[i].Done? <==> Possible(copies, c.seen[i], c.ops[i])
  {
    hide Possible, Came, WellSwept;
    MishapsStay(copies, c, met, 0, i);
    MishapsStay(copies, c, met, i + 1, |c.ops|);
    assert Excused(copies, c.seen[i], c.ops[i], c.outs[i], c.seen[i + 1], met[i], met[i + 1]);
    assert StepOk(copies, c.seen[i], c.ops[i], c.outs[i], c.seen[i + 1]);
  }

  lemma {:induction false} MishapsStay(copies: Inherited, c: Course, met: seq<seq<Mishap>>, i: nat, j: nat)
    requires c.Fits() && AllExcused(copies, c, met) && i <= j <= |c.ops|
    ensures met[i] <= met[j]
  {
    hide Possible, WellSwept;
    if i < j {
      MishapsStay(copies, c, met, i, j - 1);
      assert Excused(copies, c.seen[j - 1], c.ops[j - 1], c.outs[j - 1], c.seen[j], met[j - 1], met[j]);
    }
  }

  /** Any sequence of operations on one pool, each of which may fail at any of its steps. What happens is
      told operation by operation, with the mishaps that excuse each failure. Between the operations every
      VDI has its zvol or snapshot, unless a destruction that failed has torn it; in every state a crash
      could leave behind, unless its destruction was asked for. Snapshots are also found below the SR of
      their VDI, and recorded sizes are right, as long as the operations allow. */
  method Drive(h: Host, ops: seq<LocalOp>)
    returns (outs: seq<Outcome>, ghost seen: seq<Disk>, ghost met: seq<seq<Mishap>>)
    requires h.Safe()
    requires h.ownClones || (h.promises.oneSr && h.promises.inSr && AllWithinSr(ops))
    modifies h
    ensures h.Safe() && Trace(h.inheritedCopies, ops, outs, seen) && seen[0] == old(h.Now()) && seen[|ops|] == h.Now()
    ensures AllExcused(h.inheritedCopies, Course(ops, outs, seen), met)
    ensures met[0] == old(h.mishaps) && met[|ops|] == h.mishaps
    ensures forall k :: k in h.doomed ==> k in old(h.doomed) || Destroy(k) in ops
    ensures AllPresent(old(Begin(h.inheritedCopies, h.promises, h.doomed)), Course(ops, outs, seen))
    ensures Kept(old(Begin(h.inheritedCopies, h.promises, h.doomed)), Course(ops, outs, seen), h.history, h.doomed)
  {
    hide Host.Safe, Ran, Sound, StepOk, Excused, Kept;
    ghost var b := Begin(h.inheritedCopies, h.promises, h.doomed);
    outs, seen, met := [], [h.Now()], [h.mishaps];
    h.PastSound();
    RunBegins(b, h.Now());
    for i := 0 to |ops|
      invariant h.Safe() && |seen| == i + 1 && |outs| == i && seen[0] == old(h.Now()) && seen[i] == h.Now()
      invariant Ran(b, Course(ops[..i], outs, seen), h.promises, h.doomed)
      invariant AllExcused(h.inheritedCopies, Course(ops[..i], outs, seen), met)
      invariant met[0] == old(h.mishaps) && met[i] == h.mishaps
    {
      ghost var c := Course(ops[..i], outs, seen);
      if !h.ownClones {
        assert AllWithinSr(ops[..i]);
        StillGuarded(b, c, h.promises, h.doomed);
      }
      var out := StepOn(h, ops[i], b, c);
      ExcusedOn(h.inheritedCopies, c, met, ops[i], out, h.Now(), h.mishaps);
      assert ops[..i + 1] == ops[..i] + [ops[i]];
      outs, seen, met := outs + [out], seen + [h.Now()], met + [h.mishaps];
    }
    assert ops[..|ops|] == ops;
    h.PastSound();
    WhatIsKept(b, Course(ops, outs, seen), h.promises, h.history, h.doomed);
    RanMeans(b, Course(ops, outs, seen), h.promises, h.doomed);
  }

  lemma RanMeans(b: Begin, c: Course, now: Promises, doomed: set<ZvolName>)
    requires Ran(b, c, now, doomed)
    ensures c.Fits() && Trace(b.copies, c.ops, c.outs, c.seen) && AllPresent(b, c)
    ensures forall k :: k in doomed ==> k in b.doomed || Destroy(k) in c.ops
  {
  }

  // ----- two pools -----

  /** An operation on one of two pools, or a copy from one to the other. */
  datatype Step = On(left: bool, op: LocalOp) | Across(fromLeft: bool, k: ZvolName, dstSr: Dataset)

  predicate StepsWithinSr(steps: seq<Step>) {
    forall i :: 0 <= i < |steps| ==> steps[i].On? ==> WithinSr(steps[i].op)
  }

  predicate CanSend(d: Disk, k: ZvolName) {
    k in d.rows && k in d.pool.zvols
  }

  /** The step as it is seen on one of the pools, when that pool is in the state `mine` and the other one
      in the state `other`. A copy takes in the zvol that the other pool has at that moment. */
  function View(step: Step, left: bool, other: Disk): Op {
    match step
    case On(l, op) => if l == left then op else Elsewhere
    case Across(fromLeft, k, dstSr) =>
      if fromLeft == left then SendOut(k)
      else if CanSend(other, k) then TakeIn(dstSr, other.pool.zvols[k], KnownSize(other, k))
      else Elsewhere
  }

  /** The two courses are those of the same steps, and a copy ends the same way on both sides. */
  ghost predicate Tied(steps: seq<Step>, l: Course, r: Course) {
    && l.Fits() && r.Fits() && |l.ops| == |r.ops| == |steps|
    && forall i :: 0 <= i < |steps| ==>
         && l.ops[i] == View(steps[i], true, r.seen[i]) && r.ops[i] == View(steps[i], false, l.seen[i])
         && (l.ops[i].TakeIn? || r.ops[i].TakeIn? ==> l.outs[i] == r.outs[i])
  }

  lemma TiedOn(steps: seq<Step>, l: Course, r: Course, step: Step, lout: Outcome, rout: Outcome, d: Disk, e: Disk)
    requires Tied(steps, l, r)
    requires var lop, rop := View(step, true, r.Last()), View(step, false, l.Last()); lop.TakeIn? || rop.TakeIn? ==>
               lout == rout
    ensures Tied(steps + [step], l.With(View(step, true, r.Last()), lout, d),
                 r.With(View(step, false, l.Last()), rout, e))
  {
  }

  lemma BothBegin(a: Host, b: Host, ab: Begin, bb: Begin)
    requires a.Safe() && b.Safe()
    requires ab == Begin(a.inheritedCopies, a.promises, a.doomed)
             && bb == Begin(b.inheritedCopies, b.promises, b.doomed)
    ensures Ran(ab, Course([], [], [a.Now()]), a.promises, a.doomed)
            && Ran(bb, Course([], [], [b.Now()]), b.promises, b.doomed)
    ensures Tied([], Course([], [], [a.Now()]), Course([], [], [b.Now()]))
  {
    hide Host.Safe, Ran, Sound;
    a.PastSound();
    b.PastSound();
    RunBegins(ab, a.Now());
    RunBegins(bb, b.Now());
  }

  lemma ViewsWithinSr(steps: seq<Step>, i: nat, l: Course, r: Course)
    requires i <= |steps| && Tied(steps[..i], l, r) && StepsWithinSr(steps)
    ensures AllWithinSr(l.ops) && AllWithinSr(r.ops)
  {
    forall j | 0 <= j < i ensures WithinSr(l.ops[j]) && WithinSr(r.ops[j]) {
      assert steps[..i][j] == steps[j];
    }
  }

  lemma NothingHappens(copies: Inherited, d: Disk)
    ensures StepOk(copies, d, Elsewhere, Done, d)
  {
  }

  /** Nothing happens on a pool while something happens on the other. */
  lemma RanElsewhere(b: Begin, c: Course, now: Promises, doomed: set<ZvolName>)
    requires Ran(b, c, now, doomed) && Sound(c.Last(), doomed, now)
             && forall k :: k in doomed ==> k !in c.Last().pool.zvols
    ensures Ran(b, c.With(Elsewhere, Done, c.Last()), now, doomed)
  {
    assert c.seen != [];
    hide Ran, Sound, StepOk, StillPromised;
    NothingHappens(b.copies, c.Last());
    StillAsPromised(now, c.Last(), doomed, Elsewhere);
    RanOn(b, c, now, doomed, Elsewhere, Done, c.Last(), now, doomed);
  }

  /** A copy between pools, as it is seen on each of them. */
  method CopyStep(src: Host, dst: Host, k: ZvolName, dstSr: Dataset) returns (sout: Outcome, ghost dout: Outcome)
    requires src != dst && src.Safe() && dst.Safe()
    modifies src`pool, src`rows, src`history, src`mishaps, src`issued
    modifies dst`pool, dst`rows, dst`history, dst`mishaps, dst`issued, dst`promises
    ensures src.Safe() && dst.Safe()
    ensures old(src.mishaps) <= src.mishaps && old(dst.mishaps) <= dst.mishaps
    ensures src.mishaps == old(src.mishaps) && dst.mishaps == old(dst.mishaps) ==>
              dout.Done? && Smooth(src.inheritedCopies, old(src.Now()), SendOut(k), sout)
    ensures var taken :=
              old(if CanSend(src.Now(), k) then TakeIn(dstSr, src.pool.zvols[k], KnownSize(src.Now(), k))
                  else Elsewhere);
            && StepOk(src.inheritedCopies, old(src.Now()), SendOut(k), sout, src.Now())
            && StepOk(dst.inheritedCopies, old(dst.Now()), taken, dout, dst.Now())
            && (taken.TakeIn? ==> sout == dout)
            && AtLeast(dst.promises, StillPromised(old(dst.promises), old(dst.Now()), old(dst.doomed), taken))
  {
    hide Host.Safe, CopyOf, Extends, Tight, Restored, RowsUpToSize, CleanupTold;
    src.NothingNew(dst.pool);
    ghost var can := CanSend(src.Now(), k);
    var r := CopyAcross(src, k, dst, dstSr);
    sout := if r.Ok? then Done else CopyFailed(r.error);
    dout := if can then sout else Done;
  }

  /** One step on two pools. */
  method OneStep(a: Host, b: Host, step: Step, ghost ab: Begin, ghost bb: Begin, ghost l: Course, ghost r: Course)
    returns (ghost lout: Outcome, ghost rout: Outcome)
    requires a != b && a.Safe() && b.Safe() && a.Guarded() && b.Guarded()
    requires ab.copies == a.inheritedCopies && bb.copies == b.inheritedCopies
    requires Ran(ab, l, a.promises, a.doomed) && l.seen != [] && l.Last() == a.Now()
    requires Ran(bb, r, b.promises, b.doomed) && r.seen != [] && r.Last() == b.Now()
    modifies a, b
    ensures a.Safe() && b.Safe()
    ensures Ran(ab, l.With(View(step, true, r.Last()), lout, a.Now()), a.promises, a.doomed)
    ensures Ran(bb, r.With(View(step, false, l.Last()), rout, b.Now()), b.promises, b.doomed)
    ensures View(step, true, r.Last()).TakeIn? || View(step, false, l.Last()).TakeIn? ==> lout == rout
    ensures old(a.mishaps) <= a.mishaps && old(b.mishaps) <= b.mishaps
    ensures a.mishaps == old(a.mishaps) && b.mishaps == old(b.mishaps) ==>
              && Smooth(ab.copies, old(a.Now()), View(step, true, r.Last()), lout)
              && Smooth(bb.copies, old(b.Now()), View(step, false, l.Last()), rout)
  {
    hide Host.Safe, Ran, Sound, StepOk, Host.Guarded, StillPromised, Excused, Possible;
    match step
    case On(left, op) =>
      if left {
        lout := StepOn(a, op, ab, l);
        ExcusedIsSmooth(ab.copies, old(a.Now()), op, lout, a.Now(), old(a.mishaps), a.mishaps);
        rout := Rest(b, bb, r);
      } else {
        lout := Rest(a, ab, l);
        rout := StepOn(b, op, bb, r);
        ExcusedIsSmooth(bb.copies, old(b.Now()), op, rout, b.Now(), old(b.mishaps), b.mishaps);
      }
    case Across(fromLeft, k, dstSr) =>
      if fromLeft {
        lout, rout := CopyOn(a, b, k, dstSr, ab, bb, l, r);
      } else {
        rout, lout := CopyOn(b, a, k, dstSr, bb, ab, r, l);
      }
  }

  lemma ExcusedIsSmooth(copies: Inherited, d: Disk, op: Op, out: Outcome, e: Disk, was: seq<Mishap>, now: seq<Mishap>)
    requires Excused(copies, d, op, out, e, was, now)
    ensures was <= now && (now == was ==> Smooth(copies, d, op, out))
  {
  }

  ghost method Rest(h: Host, b: Begin, c: Course) returns (out: Outcome)
    requires h.Safe() && Ran(b, c, h.promises, h.doomed) && c.seen != [] && c.Last() == h.Now()
    ensures out.Done? && Ran(b, c.With(Elsewhere, out, h.Now()), h.promises, h.doomed)
  {
    hide Host.Safe, Ran, Sound;
    h.PastSound();
    h.DoomedAreGone();
    RanElsewhere(b, c, h.promises, h.doomed);
    out := Done;
  }

  method CopyOn(src: Host, dst: Host, k: ZvolName, dstSr: Dataset, ghost sb: Begin, ghost db: Begin, ghost s: Course,
                ghost d: Course)
    returns (ghost sout: Outcome, ghost dout: Outcome)
    requires src != dst && src.Safe() && dst.Safe() && sb.copies == src.inheritedCopies
             && db.copies == dst.inheritedCopies
    requires Ran(sb, s, src.promises, src.doomed) && s.seen != [] && s.Last() == src.Now()
    requires Ran(db, d, dst.promises, dst.doomed) && d.seen != [] && d.Last() == dst.Now()
    modifies src, dst
    ensures src.Safe() && dst.Safe()
    ensures Ran(sb, s.With(SendOut(k), sout, src.Now()), src.promises, src.doomed)
    ensures var taken := if CanSend(s.Last(), k) then TakeIn(dstSr, s.Last().pool.zvols[k], KnownSize(s.Last(), k))
            else Elsewhere;
            Ran(db, d.With(taken, dout, dst.Now()), dst.promises, dst.doomed) && (taken.TakeIn? ==> sout == dout)
    ensures old(src.mishaps) <= src.mishaps && old(dst.mishaps) <= dst.mishaps
    ensures src.mishaps == old(src.mishaps) && dst.mishaps == old(dst.mishaps) ==>
              dout.Done? && Smooth(sb.copies, old(src.Now()), SendOut(k), sout)
  {
    hide Host.Safe, Ran, Sound, StepOk, Possible;
    src.PastSound();
    dst.PastSound();
    ghost var before := dst.promises;
    ghost var taken := if CanSend(s.Last(), k) then TakeIn(dstSr, s.Last().pool.zvols[k], KnownSize(s.Last(), k))
        else Elsewhere;
    var so;
    ghost var to;
    so, to := CopyStep(src, dst, k, dstSr);
    sout, dout := so, to;
    src.PastSound();
    dst.PastSound();
    src.DoomedAreGone();
    dst.DoomedAreGone();
    RanOn(sb, s, src.promises, src.doomed, SendOut(k), sout, src.Now(), src.promises, src.doomed);
    RanOn(db, d, before, dst.doomed, taken, dout, dst.Now(), dst.promises, dst.doomed);
  }

  lemma SmoothStart(copies: Inherited, d: Disk)
    ensures AllSmooth(copies, Course([], [], [d]))
  {
  }

  lemma SmoothOn(copies: Inherited, c: Course, op: Op, out: Outcome, e: Disk)
    requires AllSmooth(copies, c) && Smooth(copies, c.Last(), op, out)
    ensures AllSmooth(copies, c.With(op, out, e))
  {
    hide Smooth;
  }

  /** Any sequence of operations on two pools and copies between them, each failing anywhere. Each pool
      goes through a course as with operations of its own, of which a copy between the pools is one, so
      that all that holds for the runs on one pool holds for both. Without a mishap, all that is possible
      is accepted. */
  method DriveBoth(a: Host, b: Host, steps: seq<Step>) returns (ghost l: Course, ghost r: Course)
    requires a != b && a.Safe() && b.Safe()
    requires a.ownClones || (a.promises.oneSr && a.promises.inSr && StepsWithinSr(steps))
    requires b.ownClones || (b.promises.oneSr && b.promises.inSr && StepsWithinSr(steps))
    modifies a, b
    ensures a.Safe() && b.Safe() && Tied(steps, l, r)
    ensures l.seen[0] == old(a.Now()) && l.Last() == a.Now() && r.seen[0] == old(b.Now()) && r.Last() == b.Now()
    ensures Trace(a.inheritedCopies, l.ops, l.outs, l.seen) && Trace(b.inheritedCopies, r.ops, r.outs, r.seen)
    ensures forall k :: k in a.doomed ==> k in old(a.doomed) || Destroy(k) in l.ops
    ensures forall k :: k in b.doomed ==> k in old(b.doomed) || Destroy(k) in r.ops
    ensures AllPresent(old(Begin(a.inheritedCopies, a.promises, a.doomed)), l)
    ensures AllPresent(old(Begin(b.inheritedCopies, b.promises, b.doomed)), r)
    ensures Kept(old(Begin(a.inheritedCopies, a.promises, a.doomed)), l, a.history, a.doomed)
    ensures Kept(old(Begin(b.inheritedCopies, b.promises, b.doomed)), r, b.history, b.doomed)
    ensures a.mishaps == old(a.mishaps) && b.mishaps == old(b.mishaps) ==>
              AllSmooth(a.inheritedCopies, l) && AllSmooth(b.inheritedCopies, r)
  {
    hide Host.Safe, Ran, Sound, StepOk, Tied, Kept, AllPresent, Trace, AllSmooth, Smooth;
    SmoothStart(a.inheritedCopies, a.Now());
    SmoothStart(b.inheritedCopies, b.Now());
    ghost var ab, bb := Begin(a.inheritedCopies, a.promises, a.doomed), Begin(b.inheritedCopies, b.promises, b.doomed);
    l, r := Course([], [], [a.Now()]), Course([], [], [b.Now()]);
    BothBegin(a, b, ab, bb);
    for i := 0 to |steps|
      invariant a.Safe() && b.Safe() && l.seen != [] && r.seen != [] && l.Last() == a.Now() && r.Last() == b.Now()
      invariant l.seen[0] == old(a.Now()) && r.seen[0] == old(b.Now()) && Tied(steps[..i], l, r)
      invariant Ran(ab, l, a.promises, a.doomed) && Ran(bb, r, b.promises, b.doomed)
      invariant old(a.mishaps) <= a.mishaps && old(b.mishaps) <= b.mishaps
      invariant a.mishaps == old(a.mishaps) && b.mishaps == old(b.mishaps) ==>
                  AllSmooth(a.inheritedCopies, l) && AllSmooth(b.inheritedCopies, r)
    {
      ghost var met, also := a.mishaps, b.mishaps;
      if !a.ownClones || !b.ownClones {
        ViewsWithinSr(steps, i, l, r);
      }
      if !a.ownClones {
        StillGuarded(ab, l, a.promises, a.doomed);
      }
      if !b.ownClones {
        StillGuarded(bb, r, b.promises, b.doomed);
      }
      ghost var lout, rout := OneStep(a, b, steps[i], ab, bb, l, r);
      assert steps[..i + 1] == steps[..i] + [steps[i]];
      TiedOn(steps[..i], l, r, steps[i], lout, rout, a.Now(), b.Now());
      if a.mishaps == old(a.mishaps) && b.mishaps == old(b.mishaps) {
        assert a.mishaps == met && b.mishaps == also;
        SmoothOn(a.inheritedCopies, l, View(steps[i], true, r.Last()), lout, a.Now());
        SmoothOn(b.inheritedCopies, r, View(steps[i], false, l.Last()), rout, b.Now());
      }
      l, r := l.With(View(steps[i], true, r.Last()), lout, a.Now()),
          r.With(View(steps[i], false, l.Last()), rout, b.Now());
    }
    assert steps[..|steps|] == steps;
    a.PastSound();
    b.PastSound();
    WhatIsKept(ab, l, a.promises, a.history, a.doomed);
    WhatIsKept(bb, r, b.promises, b.history, b.doomed);
    RanMeans(ab, l, a.promises, a.doomed);
    RanMeans(bb, r, b.promises, b.doomed);
  }
}
