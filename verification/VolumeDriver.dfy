/** The volume plugin: each operation is a sequence of ZFS commands, any of which may fail, followed
    by one metabase commit. `history` records every state a crash could leave behind. */
module VolumeDriver {
  import opened Wrappers
  import opened ZfsPool
  import opened Promotion
  import opened Metabase
  import opened VolumeSpec

  class Host {
    var pool: Pool
    var rows: Rows
    var issued: set<Uuid>
    const inheritedCopies: map<Dataset, nat>
    /** Every snapshot VDI was given a clone of its own, as this driver does; older revisions did not. */
    ghost const ownClones: bool
    ghost var history: seq<Disk>
    ghost var doomed: set<ZvolName>
    ghost var promises: Promises
    /** All that went wrong that was not the driver's doing. */
    ghost var mishaps: seq<Mishap>

    // ----- what holds at every moment -----

    ghost function Now(): Disk
      reads this
    {
      Disk(pool, rows)
    }

    /** Every state a crash could have left so far is sound. */
    ghost predicate Safe()
      reads this
    {
      && history != [] && history[|history| - 1] == Now()
      && AllSound(history, doomed, promises)
      && UuidsIssued() && RowsDistinct(rows) && DoomedGone(pool)
      && (ownClones ==> RowsAnchored(Now(), doomed))
    }

    /** Every uuid in sight has been issued. */
    ghost predicate UuidsIssued()
      reads this
    {
      && UuidsIn(pool)
      && (forall k :: k in rows ==> k.uuid in issued)
      && (forall k :: k in doomed ==> k.uuid in issued)
    }

    ghost predicate UuidsIn(p: Pool)
      reads this`issued
    {
      && (forall z :: z in p.zvols ==> z.uuid in issued)
      && (forall s :: s in p.snaps ==> s in issued)
    }

    /** Whatever is doomed has lost its zvol, if it had one. */
    ghost predicate DoomedGone(p: Pool)
      reads this`doomed
    {
      forall k :: k in doomed ==> k !in p.zvols
    }

    /** A name that is nobody's. */
    ghost predicate Nobodys(z: ZvolName)
      reads this`issued, this`rows, this`doomed
    {
      z.uuid in issued && z !in rows && z !in doomed
    }

    /** No two snapshot VDIs share a uuid. */
    ghost predicate RowsDistinct(db: Rows) {
      forall j, k :: j in db && k in db && db[j].snap && db[k].snap && j.uuid == k.uuid ==> j == k
    }

    ghost predicate Issued(c: Prim)
      reads this`issued, this`doomed
    {
      match c
      case PCreate(z, _) => z.uuid in issued && z !in doomed
      case PSnapshot(_, s) => s in issued
      case PClone(_, z, _) => z.uuid in issued && z !in doomed
      case PReceive(z, s, _, _) => z.uuid in issued && z !in doomed && s in issued
      case _ => true
    }

    /** The VDI `k` may have this row, apart from the size in it. */
    ghost predicate RowHeld(k: ZvolName, row: Row)
      reads this
    {
      && k.uuid in issued
      && (k !in doomed ==>
          Present(pool, k, row) && (promises.inSr ==> Backed(pool, k, row)) && (ownClones ==> Anchored(pool, k, row)))
    }

    ghost predicate RowFine(k: ZvolName, row: Row)
      reads this
    {
      RowHeld(k, row) && (promises.sized ==> SizeOk(pool, k, row))
    }

    /** Rows that may be committed. */
    ghost predicate Agrees(db: Rows)
      reads this
    {
      (forall k :: k in db ==> RowFine(k, db[k])) && RowsDistinct(db)
    }

    /** What most operations need of `Safe`. */
    lemma SafeNow()
      requires Safe()
      ensures forall k :: k in rows ==> k.uuid in issued
      ensures Valid(pool) && Agrees(rows) && UuidsIssued() && DoomedGone(pool)
      ensures promises.oneSr ==> SameSr(pool)
      ensures history != [] && history[|history| - 1] == Now()
    {
      assert Sound(Now(), doomed, promises);
      forall k | k in rows ensures RowFine(k, rows[k]) {
        assert promises.sized ==> SizeOk(pool, k, rows[k]);
      }
    }

    lemma DoomedAreGone()
      requires Safe()
      ensures forall k :: k in doomed ==> k !in pool.zvols
    {
    }

    /** Every state a crash could have left. */
    lemma PastSound()
      requires Safe()
      ensures forall d :: d in history ==> Sound(d, doomed, promises)
      ensures Now() in history
    {
      forall d | d in history ensures Sound(d, doomed, promises) {
        SoundAt(history, doomed, promises, d);
      }
    }

    lemma AgreesIsSound(db: Rows)
      requires Valid(pool) && (promises.oneSr ==> SameSr(pool)) && Agrees(db)
      ensures Sound(Disk(pool, db), doomed, promises)
      ensures ownClones ==> RowsAnchored(Disk(pool, db), doomed)
    {
      var d := Disk(pool, db);
      forall k | k in db
        ensures k !in doomed ==> Present(pool, k, db[k]) && (promises.inSr ==> Backed(pool, k, db[k])) {
        assert RowFine(k, db[k]);
      }
      forall k | k in db ensures promises.sized ==> SizeOk(pool, k, db[k]) {
        assert RowFine(k, db[k]);
      }
      forall k | k in db && k !in doomed ensures ownClones ==> Anchored(pool, k, db[k]) {
        assert RowFine(k, db[k]);
      }
    }

    constructor (copies: map<Dataset, nat>)
      ensures Safe() && doomed == {} && rows == map[] && pool == Pool(map[], map[], 0) && inheritedCopies == copies
      ensures ownClones && promises == Promises(true, true, true) && history == [Now()]
    {
      pool := Pool(map[], map[], 0);
      rows := map[];
      issued := {};
      inheritedCopies := copies;
      ownClones := true;
      doomed := {};
      promises := Promises(true, true, true);
      mishaps := [];
      history := [Disk(Pool(map[], map[], 0), map[])];
    }

    function CopiesOf(sr: Dataset): nat {
      if sr in inheritedCopies then inheritedCopies[sr] else 1
    }

    // ----- commands -----

    /** One ZFS command. It may be refused, or fail as busy after its retries; then nothing changes. */
    method RunZfs(c: Prim) returns (e: Option<Errno>)
      modifies this`pool, this`history, this`mishaps
      ensures e.None? ==> Apply(old(pool), c) == Ok(pool)
      ensures e.Some? ==> pool == old(pool) && (e.value == EBUSY || Apply(old(pool), c) == Err(e.value))
      ensures history == old(history) + (if e.None? then [Now()] else [])
      ensures mishaps == old(mishaps) + (if e == Some(EBUSY) then [Busy(c)] else [])
      ensures Valid(old(pool)) ==> Valid(pool)
      ensures old(Safe()) && Harmless(old(Now()), doomed, promises, c) && Issued(c) ==> Safe()
    {
      hide Valid, Harmless, Apply, AllSound, RowsAnchored, UuidsIn, RowsDistinct, Issued, DoomedGone;
      var busy: bool := *;
      if busy {
        mishaps := mishaps + [Busy(c)];
        return Some(EBUSY);
      }
      NeverBusyItself(pool, c);
      match Apply(pool, c)
      case Err(errno) =>
        e := Some(errno);
      case Ok(q) =>
        HarmlessStep(c);
        if Valid(pool) {
          StepKeepsValid(pool, c);
        }
        pool := q;
        history := history + [Now()];
        e := None;
    }

    lemma NeverBusyItself(p: Pool, c: Prim)
      ensures Apply(p, c) != Err(EBUSY)
    {
    }

    lemma HarmlessStep(c: Prim)
      requires Apply(pool, c).Ok?
      ensures var d := Disk(Apply(pool, c).value, rows);
              Safe() && Harmless(Now(), doomed, promises, c) ==>
                && AllSound(history + [d], doomed, promises)
                && (ownClones ==> RowsAnchored(d, doomed))
      ensures UuidsIn(pool) && Issued(c) ==> UuidsIn(Apply(pool, c).value)
      ensures DoomedGone(pool) && Issued(c) ==> DoomedGone(Apply(pool, c).value)
    {
      if Safe() && Harmless(Now(), doomed, promises, c) {
        HarmlessKeepsSound(Now(), doomed, promises, c);
        OneMore(history, doomed, promises, Disk(After(pool, c), rows));
        if ownClones {
          StepKeepsAnchors(Now(), doomed, promises, c);
        }
      }
    }

    /** `create_zvol`, without the reservation a thick zvol gets afterwards. */
    method NewZvol(z: ZvolName, props: Props) returns (e: Option<Errno>)
      requires Safe() && Nobodys(z)
      modifies this`pool, this`history, this`mishaps
      ensures Told(e, old(mishaps), mishaps)
      ensures Safe() && Outcome(old(pool), CreateZvol(old(pool), z, props), e, pool)
    {
      e := RunZfs(PCreate(z, props));
    }

    /** `take_snapshot` */
    method SnapshotZvol(z: ZvolName, id: Uuid) returns (e: Option<Errno>)
      requires Safe() && id in issued
      modifies this`pool, this`history, this`mishaps
      ensures Told(e, old(mishaps), mishaps)
      ensures Safe() && Outcome(old(pool), TakeSnapshot(old(pool), z, id), e, pool)
    {
      e := RunZfs(PSnapshot(z, id));
    }

    /** `clone_snapshot` */
    method CloneZvol(id: Uuid, z: ZvolName) returns (e: Option<Errno>)
      requires Safe() && Nobodys(z)
      requires promises.oneSr && id in pool.snaps ==> pool.snaps[id].holder.dataset == z.dataset
      modifies this`pool, this`history, this`mishaps
      ensures Told(e, old(mishaps), mishaps)
      ensures Safe() && Outcome(old(pool), CloneSnapshot(old(pool), id, z, CopiesOf(z.dataset)), e, pool)
    {
      e := RunZfs(PClone(id, z, CopiesOf(z.dataset)));
    }

    /** `promote_clone` */
    method PromoteZvol(z: ZvolName) returns (e: Option<Errno>)
      requires Safe() && LeavesAnchors(Now(), doomed, z) && (promises.inSr ==> MovesHome(Now(), doomed, z))
      modifies this`pool, this`history, this`mishaps
      ensures Told(e, old(mishaps), mishaps)
      ensures Safe() && Outcome(old(pool), Promote(old(pool), z), e, pool)
    {
      e := RunZfs(PPromote(z));
    }

    /** `destroy_zvol` of a zvol without a row. */
    method RemoveZvol(z: ZvolName) returns (e: Option<Errno>)
      requires Safe() && z !in rows
      modifies this`pool, this`history, this`mishaps
      ensures Told(e, old(mishaps), mishaps)
      ensures mishaps == old(mishaps) + if e == Some(EBUSY) then [Busy(PDestroyZvol(z))] else []
      ensures Safe() && Outcome(old(pool), DestroyZvol(old(pool), z), e, pool)
    {
      e := RunZfs(PDestroyZvol(z));
    }

    /** `destroy_zvol` of a snapshot that no living snapshot row relies on. */
    method RemoveSnapshot(id: Uuid) returns (e: Option<Errno>)
      requires Safe() && (forall k :: k in rows && k.uuid == id && rows[k].snap ==> k in doomed)
      modifies this`pool, this`history, this`mishaps
      ensures Told(e, old(mishaps), mishaps)
      ensures mishaps == old(mishaps) + if e == Some(EBUSY) then [Busy(PDestroySnapshot(id))] else []
      ensures Safe() && Outcome(old(pool), DestroySnapshot(old(pool), id), e, pool)
    {
      e := RunZfs(PDestroySnapshot(id));
    }

    /** `destroy_zvol` of the zvol of a VDI, which with that is doomed. */
    method RemoveVdi(k: ZvolName) returns (e: Option<Errno>)
      requires Safe() && k in rows
      modifies this`pool, this`history, this`mishaps, this`doomed
      ensures Told(e, old(mishaps), mishaps)
      ensures Safe() && Outcome(old(pool), DestroyZvol(old(pool), k), e, pool)
      ensures doomed == old(doomed) + if e.None? then {k} else {}
    {
      e := DoomBy(k, PDestroyZvol(k));
    }

    /** `destroy_zvol` of the snapshot of a VDI, which with that is doomed. */
    method RemoveVdiSnapshot(k: ZvolName) returns (e: Option<Errno>)
      requires Safe() && k in rows && k !in pool.zvols
      requires forall j :: j in rows && j.uuid == k.uuid && rows[j].snap ==> j == k
      modifies this`pool, this`history, this`mishaps, this`doomed
      ensures Told(e, old(mishaps), mishaps)
      ensures Safe() && Outcome(old(pool), DestroySnapshot(old(pool), k.uuid), e, pool)
      ensures doomed == old(doomed) + if e.None? then {k} else {}
    {
      e := DoomBy(k, PDestroySnapshot(k.uuid));
    }

    /** A command that takes something away from the VDI `k`, whose row need not be backed any more. */
    method DoomBy(k: ZvolName, c: Prim) returns (e: Option<Errno>)
      requires Safe() && k in rows && Harmless(Now(), doomed + {k}, promises, c)
      requires Issued(c) && (Apply(pool, c).Ok? ==> k !in Apply(pool, c).value.zvols)
      modifies this`pool, this`history, this`mishaps, this`doomed
      ensures Told(e, old(mishaps), mishaps)
      ensures Safe() && Outcome(old(pool), Apply(old(pool), c), e, pool)
      ensures doomed == old(doomed) + if e.None? then {k} else {}
    {
      hide Valid, Harmless, Apply, AllSound, RowsAnchored, UuidsIn, RowsDistinct, Issued;
      if Apply(pool, c).Ok? {
        DoomStep(k, c);
      }
      e := RunZfs(c);
      if e.None? {
        doomed := doomed + {k};
      } else {
        assert old(history) + [] == old(history);
      }
    }

    lemma DoomStep(k: ZvolName, c: Prim)
      requires Safe() && k in rows && Harmless(Now(), doomed + {k}, promises, c)
      requires Apply(pool, c).Ok? && Issued(c) && k !in Apply(pool, c).value.zvols
      ensures var d := Disk(Apply(pool, c).value, rows);
              && AllSound(history + [d], doomed + {k}, promises)
              && (ownClones ==> RowsAnchored(d, doomed + {k}))
              && UuidsIn(d.pool) && forall j :: j in doomed + {k} ==> j !in d.pool.zvols && j.uuid in issued
    {
      ghost var more := doomed + {k};
      LessClaimed(history, doomed, more, promises, promises);
      assert Sound(Now(), more, promises);
      HarmlessKeepsSound(Now(), more, promises, c);
      OneMore(history, more, promises, Disk(After(pool, c), rows));
      if ownClones {
        assert RowsAnchored(Now(), more);
        StepKeepsAnchors(Now(), more, promises, c);
      }
      HarmlessStep(c);
    }

    /** `zfs set` */
    method SetZvolProps(z: ZvolName, props: Props) returns (e: Option<Errno>)
      requires Safe()
      modifies this`pool, this`history, this`mishaps
      ensures Told(e, old(mishaps), mishaps)
      ensures Safe() && Outcome(old(pool), SetProps(old(pool), z, props), e, pool)
      ensures history == old(history) + (if e.None? then [Now()] else [])
    {
      e := RunZfs(PSetProps(z, props));
    }

    /** `zfs set volsize`, while the row, if sizes are to stay right, has no size in it. */
    method SetVolsize(z: ZvolName, volsize: nat) returns (e: Option<Errno>)
      requires Safe() && (z in rows ==> rows[z].vsize.None?)
      modifies this`pool, this`history, this`mishaps
      ensures Told(e, old(mishaps), mishaps)
      ensures Safe() && Outcome(old(pool), ResizeZvol(old(pool), z, volsize), e, pool)
      ensures history == old(history) + (if e.None? then [Now()] else [])
    {
      e := RunZfs(PResize(z, volsize));
    }

    /** Leaving a `db_context` normally: the whole transaction becomes durable, or none of it does. */
    method Commit(db: Rows) returns (ok: bool)
      modifies this`rows, this`history, this`mishaps
      ensures rows == if ok then db else old(rows)
      ensures history == old(history) + (if ok then [Now()] else [])
      ensures mishaps == old(mishaps) + (if ok then [] else [CommitLost])
      ensures old(Safe() && Agrees(db)) ==> Safe()
    {
      ok := *;
      if !ok {
        mishaps := mishaps + [CommitLost];
      }
      if ok {
        if Safe() && Agrees(db) {
          SafeNow();
          AgreesIsSound(db);
          OneMore(history, doomed, promises, Disk(pool, db));
          assert forall k :: k in db ==> RowFine(k, db[k]);
        }
        rows := db;
        history := history + [Now()];
      }
    }

    /** A stream into this pool breaks. */
    ghost method StreamBreaks()
      modifies this`mishaps
      ensures mishaps == old(mishaps) + [StreamBroken] && (old(Safe()) ==> Safe())
    {
      mishaps := mishaps + [StreamBroken];
    }

    /** From here on less is promised. */
    ghost method Concede(kept: Promises)
      requires Safe() && AtLeast(promises, kept)
      modifies this`promises
      ensures Safe() && promises == kept
    {
      LessClaimed(history, doomed, doomed, promises, kept);
      promises := kept;
    }

    /** A random uuid: any value never seen before. */
    method FreshUuid() returns (u: Uuid)
      modifies this`issued
      ensures u !in old(issued) && issued == old(issued) + {u}
      ensures old(Safe()) ==> Safe() && forall z: ZvolName :: z.uuid == u ==> Nobodys(z)
    {
      SomeUnissued(issued);
      u :| u !in issued;
      issued := issued + {u};
    }

    /** A uuid issued elsewhere comes into use here. */
    method Adopt(u: Uuid)
      modifies this`issued
      ensures issued == old(issued) + {u}
      ensures old(Safe()) ==> Safe()
    {
      issued := issued + {u};
    }

    // ----- queries -----

    method ListZvolSnapshots(z: ZvolName) returns (snaps: seq<Uuid>)
      requires Valid(pool)
      ensures Listing(pool, z, snaps)
    {
      snaps := [];
      var rest := set s | s in pool.snaps && pool.snaps[s].holder == z;
      while rest != {}
        invariant forall s :: s in rest || s in snaps <==> s in pool.snaps && pool.snaps[s].holder == z
        invariant OldestFirst(pool, snaps)
        invariant forall s, t :: s in snaps && t in rest ==> pool.snaps[s].txg < pool.snaps[t].txg
        decreases rest
      {
        var s := Oldest(rest);
        snaps := snaps + [s];
        rest := rest - {s};
      }
    }

    method Oldest(rest: set<Uuid>) returns (s: Uuid)
      requires rest != {} && rest <= pool.snaps.Keys
      ensures s in rest && forall t :: t in rest ==> pool.snaps[s].txg <= pool.snaps[t].txg
    {
      s :| s in rest;
      var unseen := rest - {s};
      while unseen != {}
        invariant unseen <= rest && s in rest
        invariant forall t :: t in rest && t !in unseen ==> pool.snaps[s].txg <= pool.snaps[t].txg
        decreases unseen
      {
        var t :| t in unseen;
        if pool.snaps[t].txg < pool.snaps[s].txg {
          s := t;
        }
        unseen := unseen - {t};
      }
    }

    /** `zfs list -r`: every zvol, sorted by name. */
    method ListByName() returns (names: seq<ZvolName>)
      ensures forall z :: z in names <==> z in pool.zvols
      ensures InNameOrder(names)
    {
      names := [];
      var rest := pool.zvols.Keys;
      while rest != {}
        invariant forall z :: z in rest || z in names <==> z in pool.zvols
        invariant InNameOrder(names)
        invariant forall y, z :: y in names && z in rest ==> Before(y, z)
        decreases rest
      {
        var z := FirstByName(rest);
        names := names + [z];
        rest := rest - {z};
      }
    }

    method FirstByName(rest: set<ZvolName>) returns (z: ZvolName)
      requires rest != {}
      ensures z in rest && forall y :: y in rest ==> y == z || Before(z, y)
    {
      z :| z in rest;
      var unseen := rest - {z};
      while unseen != {}
        invariant unseen <= rest && z in rest
        invariant forall y :: y in rest && y !in unseen ==> y == z || Before(z, y)
        decreases unseen
      {
        var y :| y in unseen;
        if Before(y, z) {
          z := y;
        }
        unseen := unseen - {y};
      }
    }

    /** The zvols listed with the origin `s`, in the order of the listing. */
    method FindSnapshotClones(s: Uuid) returns (clones: seq<ZvolName>)
      ensures forall z :: z in clones <==> IsClone(pool, z, s)
      ensures clones != [] ==> IsFirstClone(pool, clones[0], s)
      ensures clones == [] ==> !HasClone(pool, s)
    {
      clones := [];
      var names := ListByName();
      for i := 0 to |names|
        invariant forall z :: z in clones <==> z in names[..i] && pool.zvols[z].origin == Some(s)
        invariant forall z :: z in names[..i] ==> z in pool.zvols
        invariant clones != [] ==> clones[0] in names[..i]
        invariant forall z :: z in clones ==> z == clones[0] || Before(clones[0], z)
      {
        assert names[..i + 1] == names[..i] + [names[i]];
        assert names[i] in names;
        if pool.zvols[names[i]].origin == Some(s) {
          clones := clones + [names[i]];
        }
      }
      assert names[..|names|] == names;
      forall z | IsClone(pool, z, s) ensures z in clones {
        assert z in names;
      }
    }

    /** Walks the names of all snapshots below the SR dataset, comparing what follows `@`. */
    method FindSnapshotByUuid(sr: Dataset, id: Uuid) returns (name: Option<SnapName>)
      ensures name == FoundSnapshot(pool, sr, id)
    {
      var rest := set s | s in pool.snaps && pool.snaps[s].holder.dataset == sr :: SnapName(pool.snaps[s].holder, s);
      while rest != {}
        invariant forall n :: n in rest ==>
                    n.id in pool.snaps && n == SnapName(pool.snaps[n.id].holder, n.id) && n.zvol.dataset == sr
        invariant FoundSnapshot(pool, sr, id).Some? ==> FoundSnapshot(pool, sr, id).value in rest
        decreases rest
      {
        var n :| n in rest;
        if n.id == id {
          return Some(n);
        }
        rest := rest - {n};
      }
      name := None;
    }

    /** `recover_vdi_vsize`: a NULL size is read back from the zvol and put into the row. */
    method RecoverVsize(k: ZvolName) returns (r: Result<nat, DriverError>, db: Rows)
      requires k in rows
      ensures r.Ok? ==> KnownSize(Now(), k) == Some(r.value) && db == Recovered(Now(), k)
      ensures r.Ok? && rows[k].vsize.None? ==> k in pool.zvols && r.value == pool.zvols[k].props.volsize
      ensures r.Err? <==> rows[k].vsize.None? && k !in pool.zvols
      ensures r.Err? ==> r.error == NoSuchZvol && db == rows
      ensures rows[k].vsize.Some? ==> r == Ok(rows[k].vsize.value)
    {
      db := rows;
      if rows[k].vsize.Some? {
        r := Ok(rows[k].vsize.value);
        assert db == Recovered(Now(), k);
      } else if k in pool.zvols {
        r := Ok(pool.zvols[k].props.volsize);
        db := rows[k := rows[k].(vsize := Some(pool.zvols[k].props.volsize))];
      } else {
        r := Err(NoSuchZvol);
      }
    }

    // ----- destroy -----

    /** The first clone listed for one snapshot, or a clone made for the purpose. */
    method PickDependent(k: ZvolName, s: Uuid) returns (e: Option<Errno>, dep: ZvolName, isNew: bool)
      requires Safe() && s in pool.snaps && pool.snaps[s].holder == k
      modifies this`pool, this`history, this`mishaps, this`issued
      ensures Told(e, old(mishaps), mishaps)
      ensures Safe() && old(issued) <= issued
      ensures GrownByClones(old(pool), pool, if isNew then {dep} else {})
      ensures e.None? && !isNew ==> pool == old(pool) && IsFirstClone(pool, dep, s)
      ensures isNew ==> e.None? && !HasClone(old(pool), s) && IsClone(pool, dep, s) && ThinCloneOf(pool, dep, s)
      ensures isNew ==> dep !in rows && dep.dataset == k.dataset && dep.uuid in issued
      ensures e.Some? ==> e == Some(EBUSY)
    {
      hide Safe, Valid, IsFirstClone;
      SafeNow();
      var clones := FindSnapshotClones(s);
      if clones != [] {
        return None, clones[0], false;
      }
      var uuid := FreshUuid();
      dep := ZvolName(k.dataset, uuid);
      e := CloneZvol(s, dep);
      isNew := e.None?;
    }

    /** Where the first loop of `destroy` stands: `deps` chosen so far, `made` among them. */
    ghost predicate Picking(p0: Pool, k: ZvolName, snaps: seq<Uuid>, deps: seq<ZvolName>, made: seq<ZvolName>)
      reads this
    {
      && Safe() && GrownByClones(p0, pool, set c | c in made) && NewInSr(k.dataset, made)
      && |deps| <= |snaps| && Picked(p0, pool, k.dataset, snaps, deps, made)
    }

    ghost predicate NewInSr(sr: Dataset, made: seq<ZvolName>)
      reads this
    {
      forall c :: c in made ==> c !in rows && c.dataset == sr && c.uuid in issued
    }

    method PickNext(ghost p0: Pool, k: ZvolName, snaps: seq<Uuid>, deps: seq<ZvolName>, made: seq<ZvolName>)
      returns (e: Option<Errno>, deps': seq<ZvolName>, made': seq<ZvolName>)
      requires Picking(p0, k, snaps, deps, made) && Listing(p0, k, snaps) && |deps| < |snaps|
      modifies this`pool, this`history, this`mishaps, this`issued
      ensures Told(e, old(mishaps), mishaps)
      ensures Picking(p0, k, snaps, deps', made')
      ensures |deps'| == if e.None? then |deps| + 1 else |deps|
      ensures e.Some? ==> e == Some(EBUSY)
    {
      hide Safe, Picked, IsFirstClone, HasClone, IsClone, ThinCloneOf;
      deps', made' := deps, made;
      var s := snaps[|deps|];
      assert s in snaps;
      var dep, isNew;
      e, dep, isNew := PickDependent(k, s);
      if e.None? {
        StillPicked(p0, old(pool), pool, k.dataset, snaps, deps, made, dep, isNew);
        deps' := deps + [dep];
        made' := if isNew then made + [dep] else made;
        GrownTwice(p0, old(pool), pool, made, made', dep);
      } else {
        assert pool.zvols == old(pool.zvols);
      }
    }

    lemma GrownTwice(p0: Pool, p1: Pool, p2: Pool, made: seq<ZvolName>, made': seq<ZvolName>, dep: ZvolName)
      requires GrownByClones(p0, p1, set c | c in made)
      requires (made' == made && p2 == p1) || (made' == made + [dep] && GrownByClones(p1, p2, {dep}))
      ensures GrownByClones(p0, p2, set c | c in made')
    {
      assert made' == made + [dep] ==> (set c | c in made') == (set c | c in made) + {dep};
    }

    method PickDependents(k: ZvolName, snaps: seq<Uuid>)
      returns (e: Option<Errno>, deps: seq<ZvolName>, made: seq<ZvolName>)
      requires Safe() && Listing(pool, k, snaps)
      modifies this`pool, this`history, this`mishaps, this`issued
      ensures Told(e, old(mishaps), mishaps)
      ensures Picking(old(pool), k, snaps, deps, made)
      ensures e.None? ==> |deps| == |snaps|
      ensures e.Some? ==> e == Some(EBUSY)
    {
      e, deps, made := None, [], [];
      while |deps| < |snaps| && e.None?
        invariant Picking(old(pool), k, snaps, deps, made) && Told(e, old(mishaps), mishaps)
        invariant e.Some? ==> e == Some(EBUSY)
        decreases |snaps| - |deps|, e.None?
      {
        e, deps, made := PickNext(old(pool), k, snaps, deps, made);
      }
    }

    /** Every snapshot VDI is in the SR of the dependent chosen for its snapshot. */
    ghost predicate Homeward(snaps: seq<Uuid>, deps: seq<ZvolName>)
      requires |deps| == |snaps|
      reads this
    {
      forall i, j :: 0 <= i < |deps| && j in rows && rows[j].snap && j !in doomed && j.uuid == snaps[i] ==>
          j.dataset == deps[i].dataset
    }

    /** Before turn `i` of the promotion loop that began in the pool `p`. */
    ghost predicate Promoting(p: Pool, q: Pool, k: ZvolName, snaps: seq<Uuid>, deps: seq<ZvolName>, i: nat)
      requires i <= |deps| == |snaps|
    {
      && PromoteAll(p, deps[..i]) == Ok(q) && SameData(p, q)
      && k in q.zvols && Listing(q, k, snaps[i..]) && Dependents(q, snaps[i..], deps[i..])
    }

    predicate SnapshotRow(k: ZvolName)
      reads this`rows
    {
      k in rows && rows[k].snap
    }

    /** `promote_clone` for each dependent in turn */
    method PromoteDependents(k: ZvolName, ghost snaps: seq<Uuid>, deps: seq<ZvolName>) returns (e: Option<Errno>)
      requires Safe() && !SnapshotRow(k) && k in pool.zvols && Listing(pool, k, snaps) && Dependents(pool, snaps, deps)
      requires |deps| == |snaps|
      requires promises.inSr ==> Homeward(snaps, deps)
      modifies this`pool, this`history, this`mishaps
      ensures Told(e, old(mishaps), mishaps)
      ensures Safe() && SameData(old(pool), pool)
      ensures e.None? ==> PromoteAll(old(pool), deps) == Ok(pool)
      ensures e.Some? ==> e == Some(EBUSY)
    {
      hide Safe, Listing, Dependents, PromoteAll, SameData;
      e := None;
      PromotingStarts(pool, k, snaps, deps);
      for i := 0 to |deps|
        invariant e.None? && Safe() && Promoting(old(pool), pool, k, snaps, deps, i) && mishaps == old(mishaps)
      {
        SafeNow();
        PromoteTurn(old(pool), pool, k, snaps, deps, i);
        assert promises.inSr ==> MovesHome(Now(), doomed, deps[i]);
        e := PromoteZvol(deps[i]);
        if e.Some? {
          return;
        }
      }
      assert deps[..|deps|] == deps;
    }

    lemma PromotingStarts(p: Pool, k: ZvolName, snaps: seq<Uuid>, deps: seq<ZvolName>)
      requires k in p.zvols && Listing(p, k, snaps) && Dependents(p, snaps, deps)
      ensures Promoting(p, p, k, snaps, deps, 0)
    {
      assert snaps[0..] == snaps && deps[0..] == deps;
    }

    lemma PromoteTurn(p: Pool, q: Pool, k: ZvolName, snaps: seq<Uuid>, deps: seq<ZvolName>, i: nat)
      requires Valid(q) && i < |deps| == |snaps| && Promoting(p, q, k, snaps, deps, i)
      ensures Promote(q, deps[i]).Ok? && Promoting(p, Promote(q, deps[i]).value, k, snaps, deps, i + 1)
      ensures q.zvols[deps[i]].origin == Some(snaps[i]) && snaps[i] in q.snaps && q.snaps[snaps[i]].holder == k
      ensures forall s :: Moves(q, deps[i], s) ==> s == snaps[i]
    {
      hide Valid, SameData, PromoteAll;
      var rest, left := snaps[i..], deps[i..];
      assert rest[0] == snaps[i] && left[0] == deps[i] && rest[1..] == snaps[i + 1..] && left[1..] == deps[i + 1..];
      assert IsClone(q, left[0], rest[0]) && rest[0] in rest;
      DependentsApart(q, k, rest, left);
      OldestMovesAlone(q, k, rest, deps[i]);
      ReadyForNext(q, Promote(q, deps[i]).value, k, rest, left);
      assert deps[..i + 1] == deps[..i] + [deps[i]];
      PromoteAllSnoc(p, deps[..i], deps[i]);
      SameDataTransitive(p, q, Promote(q, deps[i]).value);
      OnlyOldestMoves(q, k, rest, deps[i]);
    }

    lemma OnlyOldestMoves(q: Pool, k: ZvolName, snaps: seq<Uuid>, d: ZvolName)
      requires Listing(q, k, snaps) && snaps != [] && IsClone(q, d, snaps[0])
      ensures forall s :: Moves(q, d, s) ==> s == snaps[0]
    {
      assert snaps[0] in snaps;
      forall s | Moves(q, d, s) ensures s == snaps[0] {
        assert s in snaps;
      }
    }

    /** Frees a zvol of its snapshots: one dependent per snapshot, promoted in creation order. */
    method FreeOfSnapshots(k: ZvolName) returns (e: Option<Errno>, made: seq<ZvolName>)
      requires Safe() && !SnapshotRow(k) && (promises.inSr ==> Steers(Now(), doomed, k))
      modifies this`pool, this`history, this`mishaps, this`issued
      ensures Told(e, old(mishaps), mishaps)
      ensures Safe() && NewInSr(k.dataset, made)
      ensures DataKept(old(pool), pool, {}) && Tight(old(pool), pool, {})
      ensures pool.zvols.Keys == old(pool.zvols.Keys) + (set c | c in made)
      ensures e.None? || e == Some(EBUSY)
      ensures k !in old(pool.zvols) ==> pool == old(pool) && e.None? && made == []
      ensures k in old(pool.zvols) && e.None? ==> Freed(old(pool), pool, k, made)
    {
      hide Safe, Valid, Picked, Listing, SameData, DataKept, PromoteAll, Tight, Steers, Homeward, HasClone;
      SafeNow();
      NothingLost(pool, k);
      if k !in pool.zvols {
        return None, [];
      }
      ghost var d0 := Now();
      var snaps := ListZvolSnapshots(k);
      var deps;
      e, deps, made := PickDependents(k, snaps);
      GrowingKeeps(d0.pool, pool, set c | c in made);
      MadeAreTight(d0.pool, pool, k.dataset, snaps, deps, made);
      if e.Some? {
        return;
      }
      ghost var p1 := pool;
      SafeNow();
      ReadyToPromote(d0, p1, k, snaps, deps, made);
      e := PromoteDependents(k, snaps, deps);
      KeptThroughout(d0.pool, p1, pool, set c | c in made);
      SameDataTight(d0.pool, p1, pool);
      assert e.None? ==> Chosen(d0.pool, p1, k, snaps, deps, made);
    }

    lemma NothingLost(p: Pool, k: ZvolName)
      ensures DataKept(p, p, {}) && DataKept(p, p, {k}) && Tight(p, p, {})
    {
    }

    lemma MadeAreTight(p0: Pool, p: Pool, sr: Dataset, snaps: seq<Uuid>, deps: seq<ZvolName>, made: seq<ZvolName>)
      requires |deps| <= |snaps| && GrownByClones(p0, p, set c | c in made) && Picked(p0, p, sr, snaps, deps, made)
      ensures Tight(p0, p, {})
    {
      forall c | c in made ensures ThickOk(p.zvols[c].props) {
        var j :| 0 <= j < |deps| && deps[j] == c && !HasClone(p0, snaps[j]);
        assert PickedOne(p0, p, sr, snaps[j], deps[j], made);
      }
    }

    lemma SameDataTight(p0: Pool, p1: Pool, p2: Pool)
      requires Tight(p0, p1, {}) && SameData(p1, p2)
      ensures Tight(p0, p2, {})
    {
    }

    /** The dependents picked in `d.pool` for the snapshots of `k` serve in the pool `p1` that has them all. */
    lemma ReadyToPromote(d: Disk, p1: Pool, k: ZvolName, snaps: seq<Uuid>, deps: seq<ZvolName>, made: seq<ZvolName>)
      requires Listing(d.pool, k, snaps) && GrownByClones(d.pool, p1, set c | c in made)
      requires |deps| == |snaps| && Picked(d.pool, p1, k.dataset, snaps, deps, made)
      requires d.rows == rows && (promises.inSr ==> Steers(d, doomed, k) && RowsBacked(d, doomed))
      ensures Listing(p1, k, snaps) && Dependents(p1, snaps, deps)
      ensures promises.inSr ==> Homeward(snaps, deps)
    {
      if promises.inSr {
        forall i, j | 0 <= i < |deps| && j in rows && rows[j].snap && j !in doomed && j.uuid == snaps[i]
          ensures j.dataset == deps[i].dataset {
          assert snaps[i] in snaps && Backed(d.pool, j, rows[j]);
          assert PickedOne(d.pool, p1, k.dataset, snaps[i], deps[i], made);
        }
      }
    }

    /** Frees a zvol of its snapshots and destroys it. */
    method DestroyBacking(k: ZvolName) returns (e: Option<Errno>, made: seq<ZvolName>)
      requires Safe() && k in rows && !rows[k].snap && (promises.inSr ==> Steers(Now(), doomed, k))
      modifies this`pool, this`history, this`mishaps, this`issued, this`doomed
      ensures Told(e, old(mishaps), mishaps)
      ensures Safe() && NewInSr(k.dataset, made) && Tight(old(pool), pool, {})
      ensures doomed == old(doomed) + if e.None? then {k} else {}
      ensures e.None? ==> VolumeGone(old(pool), pool, k, made)
      ensures e.Some? ==> DataKept(old(pool), pool, {}) && pool.zvols.Keys >= old(pool.zvols).Keys
      ensures e.Some? && k in old(pool.zvols) ==> e == Some(EBUSY)
    {
      hide Safe, Valid, Steers, Freed, VolumeGone, Tight, DataKept, DestroyZvol;
      SafeNow();
      e, made := FreeOfSnapshots(k);
      if e.None? {
        if k in old(pool.zvols) {
          FreedIsDestroyable(old(pool), pool, k, made);
        } else {
          NothingToDestroy(pool, k);
        }
        e := RemoveVdi(k);
      }
    }

    lemma NothingToDestroy(p: Pool, k: ZvolName)
      requires k !in p.zvols
      ensures DestroyZvol(p, k).Err?
    {
    }

    lemma FreedIsDestroyable(p: Pool, q: Pool, k: ZvolName, made: seq<ZvolName>)
      requires Valid(p) && Freed(p, q, k, made)
      ensures DestroyZvol(q, k).Ok? && VolumeGone(p, DestroyZvol(q, k).value, k, made)
              && Tight(p, DestroyZvol(q, k).value, {})
    {
      hide Valid, Freed;
      FreedMeans(p, q, k, made);
      assert DestroyZvol(q, k) == Ok(q.(zvols := q.zvols - {k}));
      VolumeGoneMeans(p, q.(zvols := q.zvols - {k}), k, made);
    }

    /** `Volume.destroy` of a VDI that is no snapshot. If its zvol exists, only a busy device or a failed
        commit can stop it, and stopping it anywhere loses no other VDI and no snapshot. The result
        names the clones made for snapshots that had none; each becomes a VDI. */
    method DestroyVolume(k: ZvolName, vsize: nat) returns (r: Result<seq<ZvolName>, DriverError>)
      requires Safe() && k in rows && !rows[k].snap && KnownSize(Now(), k) == Some(vsize)
      modifies this
      ensures Blamed(ErrorOf(r), old(mishaps), mishaps)
      ensures Safe() && Tight(old(pool), pool, {})
      ensures doomed == old(doomed) + if r.Ok? || r.error == CommitFailed then {k} else {}
      ensures AtLeast(promises, old(promises).(inSr := old(promises).inSr && old(Steers(Now(), doomed, k)),
                                               sized := old(promises).sized && old(ClonelessSized(pool, k, vsize))))
      ensures r.Ok? ==> VolumeDestroyed(old(Now()), k, r.value, Now())
      ensures r.Err? ==> rows == old(rows)
      ensures if r.Err? && r.error != CommitFailed then DataKept(old(pool), pool, {})
              && pool.zvols.Keys >= old(pool.zvols).Keys
              else k in old(pool.zvols) && k !in pool.zvols && DataKept(old(pool), pool, {k})
      ensures r.Err? && k in old(pool.zvols) ==> r.error in {ZfsFailed(EBUSY), CommitFailed}
    {
      hide Safe, Valid, Steers, VolumeGone, ClonelessSized, Agrees, Tight, DataKept, NewInSr;
      SafeNow();
      Concede(promises.(inSr := promises.inSr && Steers(Now(), doomed, k), sized := promises.sized
                        && ClonelessSized(pool, k, vsize)));
      var e, made := DestroyBacking(k);
      if e.Some? {
        return Err(ZfsFailed(e.value));
      }
      r := RegisterMade(old(pool), k, made, vsize);
      assert Valid(old(pool));
    }

    /** The rows of the clones made, and no row of `k` any more. */
    method RegisterMade(ghost p: Pool, k: ZvolName, made: seq<ZvolName>, vsize: nat)
      returns (r: Result<seq<ZvolName>, DriverError>)
      requires Safe() && Valid(p) && VolumeGone(p, pool, k, made) && NewInSr(k.dataset, made)
      requires promises.sized ==> ClonelessSized(p, k, vsize)
      modifies this`rows, this`history, this`mishaps
      ensures Blamed(ErrorOf(r), old(mishaps), mishaps)
      ensures Safe()
      ensures r == Ok(made) || r == Err(CommitFailed)
      ensures rows == if r.Ok? then (old(rows) + (map c | c in made :: Row(false, Some(vsize), None))) - {k}
              else old(rows)
      ensures DataKept(p, pool, {k}) && k in p.zvols && k !in pool.zvols
      ensures forall c :: c in made ==> c !in old(rows) && c.dataset == k.dataset
    {
      hide Safe, Valid, VolumeGone, ClonelessSized, Agrees, DataKept;
      VolumeGoneMeans(p, pool, k, made);
      RowsAfterDestroy(p, k, made, vsize);
      var ok := Commit((rows + (map c | c in made :: Row(false, Some(vsize), None))) - {k});
      r := if ok then Ok(made) else Err(CommitFailed);
    }

    lemma RowsAfterDestroy(p: Pool, k: ZvolName, made: seq<ZvolName>, vsize: nat)
      requires Safe() && Valid(p) && VolumeGone(p, pool, k, made) && NewInSr(k.dataset, made)
      requires promises.sized ==> ClonelessSized(p, k, vsize)
      ensures Agrees((rows + (map c | c in made :: Row(false, Some(vsize), None))) - {k})
    {
      hide Safe, Valid, VolumeGone, RowFine, Agrees;
      SafeNow();
      var row := Row(false, Some(vsize), None);
      forall c | c in made ensures RowFine(c, row) {
        HeirFine(p, k, made, vsize, c);
      }
      RowsPlusMade(k, made, row);
    }

    /** A clone made for a snapshot may have a row of the size of the volume. */
    lemma HeirFine(p: Pool, k: ZvolName, made: seq<ZvolName>, vsize: nat, c: ZvolName)
      requires Safe() && Valid(p) && VolumeGone(p, pool, k, made) && NewInSr(k.dataset, made) && c in made
      requires promises.sized ==> ClonelessSized(p, k, vsize)
      ensures RowFine(c, Row(false, Some(vsize), None))
    {
      hide Safe, Valid, VolumeGone;
      VolumeGoneMeans(p, pool, k, made);
      assert Served(p, pool, k, c);
      var s :| MadeFor(p, pool, k, c, s);
      assert SameSnapshot(p.snaps[s], pool.snaps[s]);
    }

    lemma RowsPlusMade(k: ZvolName, made: seq<ZvolName>, row: Row)
      requires Agrees(rows) && !row.snap && forall c :: c in made ==> c !in rows && RowFine(c, row)
      ensures Agrees((rows + (map c | c in made :: row)) - {k})
    {
      hide RowFine;
      var db := (rows + (map c | c in made :: row)) - {k};
      forall j | j in db ensures RowFine(j, db[j]) {
        assert j !in made ==> RowFine(j, rows[j]);
      }
    }

    /** `Volume.destroy` of a snapshot VDI: its own materialised clone first, then the snapshot. Unless
        a device is busy or the commit fails, it goes through exactly for a destroyable snapshot. */
    method DestroySnapshotVdi(k: ZvolName) returns (r: Result<(), DriverError>)
      requires Safe() && k in rows && rows[k].snap
      modifies this`pool, this`rows, this`history, this`mishaps, this`doomed
      ensures Blamed(ErrorOf(r), old(mishaps), mishaps)
      ensures Safe() && Tight(old(pool), pool, {})
      ensures doomed == old(doomed) + if pool == old(pool) then {} else {k}
      ensures r.Ok? ==> SnapshotDestroyed(old(Now()), k, Now())
      ensures r.Err? ==> rows == old(rows) && Shrunk(old(pool), pool, k)
      ensures r.Err? && r.error != CommitFailed ==> pool.snaps == old(pool.snaps)
      ensures r.Err? && old(SnapshotDestroyable(pool, k)) ==> r.error in {ZfsFailed(EBUSY), CommitFailed}
      ensures !old(SnapshotDestroyable(pool, k)) ==> pool == old(pool)
    {
      hide Safe, IsClone, HoldsSnapshot, HasClone, Agrees;
      SafeNow();
      var name := FindSnapshotByUuid(k.dataset, k.uuid);
      if name.None? {
        return Err(SnapshotMissing);
      }
      var clones := FindSnapshotClones(k.uuid);
      if exists c :: c in clones && c != k {
        ghost var c :| c in clones && c != k;
        assert IsClone(pool, c, k.uuid);
        return Err(SnapshotHasDependents);
      }
      assert forall z :: IsClone(pool, z, k.uuid) ==> z == k;
      var e := DropSnapshot(k);
      if e.Some? {
        return Err(ZfsFailed(e.value));
      }
      SafeNow();
      AgreesWithout(k);
      var ok := Commit(rows - {k});
      r := if ok then Ok(()) else Err(CommitFailed);
    }

    lemma AgreesWithout(k: ZvolName)
      requires Agrees(rows)
      ensures Agrees(rows - {k})
    {
      forall j | j in rows - {k} ensures RowFine(j, (rows - {k})[j]) {
        assert RowFine(j, rows[j]);
      }
    }

    /** Drops the materialised clone, if present, and then the snapshot. */
    method DropSnapshot(k: ZvolName) returns (e: Option<Errno>)
      requires Safe() && k in rows && rows[k].snap
      requires FoundSnapshot(pool, k.dataset, k.uuid).Some?
      requires forall z :: IsClone(pool, z, k.uuid) ==> z == k
      modifies this`pool, this`history, this`mishaps, this`doomed
      ensures Told(e, old(mishaps), mishaps)
      ensures Safe() && Shrunk(old(pool), pool, k)
      ensures doomed == old(doomed) + if pool == old(pool) then {} else {k}
      ensures e.Some? ==> pool.snaps == old(pool.snaps)
      ensures e.None? ==> !HoldsSnapshot(old(pool), k)
      ensures e.None? ==> pool == old(pool).(zvols := old(pool).zvols - {k}, snaps := old(pool).snaps - {k.uuid})
      ensures HoldsSnapshot(old(pool), k) ==> pool == old(pool)
      ensures e.Some? && !HoldsSnapshot(old(pool), k) ==> e == Some(EBUSY)
    {
      hide Safe, Valid, HasClone;
      SafeNow();
      HolderThere(pool, k);
      e := None;
      if k in pool.zvols {
        e := RemoveVdi(k);
      }
      if e.None? {
        assert pool.zvols == old(pool).zvols - {k};
        NoCloneLeft(old(pool), pool, k);
        e := DropBare(k);
      }
    }

    /** Drops a snapshot without a clone. */
    method DropBare(k: ZvolName) returns (e: Option<Errno>)
      requires Safe() && k in rows && rows[k].snap && k !in pool.zvols && k.uuid in pool.snaps
               && !HasClone(pool, k.uuid)
      modifies this`pool, this`history, this`mishaps, this`doomed
      ensures Told(e, old(mishaps), mishaps)
      ensures Safe() && (e.None? || e == Some(EBUSY))
      ensures pool == if e.None? then old(pool).(snaps := old(pool).snaps - {k.uuid}) else old(pool)
      ensures pool == old(pool) <==> e.Some?
      ensures doomed == old(doomed) + if e.None? then {k} else {}
    {
      OnlyRowOf(k);
      hide Safe;
      e := RemoveVdiSnapshot(k);
      assert old(pool).snaps != old(pool).snaps - {k.uuid};
    }

    lemma HolderThere(p: Pool, k: ZvolName)
      requires Valid(p)
      ensures HoldsSnapshot(p, k) ==> k in p.zvols
    {
    }

    lemma NoCloneLeft(p: Pool, q: Pool, k: ZvolName)
      requires q.zvols == p.zvols - {k}
      requires forall z :: IsClone(p, z, k.uuid) ==> z == k
      ensures !HasClone(q, k.uuid)
    {
      forall z | z in q.zvols ensures q.zvols[z].origin != Some(k.uuid) {
        assert IsClone(p, z, k.uuid) ==> z == k;
      }
    }

    lemma OnlyRowOf(k: ZvolName)
      requires Safe() && k in rows && rows[k].snap
      ensures forall j :: j in rows && j.uuid == k.uuid && rows[j].snap ==> j == k
    {
    }

    /** `Volume.destroy` */
    method Destroy(k: ZvolName) returns (r: Result<(), DriverError>)
      requires Safe()
      modifies this
      ensures Blamed(ErrorOf(r), old(mishaps), mishaps)
      ensures Safe() && doomed == old(doomed) + if HalfGone(old(Now()), k, Now()) then {k} else {}
      ensures var steers := old(VolumeVdi(Now(), k) ==> Steers(Now(), doomed, k));
              var fits := old(VolumeVdi(Now(), k) ==> DestroySized(Now(), k));
              var kept := old(promises);
              AtLeast(promises, Promises(kept.oneSr, kept.inSr && steers, kept.sized && fits))
      ensures r.Ok? ==> DestroyDone(old(Now()), k, Now())
      ensures r.Ok? ==> KnownSize(old(Now()), k).Some?
      ensures r.Err? && old(Destroyable(Now(), k)) ==> r.error in {ZfsFailed(EBUSY), CommitFailed}
      ensures r.Err? ==> rows == old(rows) && DestroyLeft(old(Now()), k, r.error == CommitFailed, Now())
      ensures Tight(old(pool), pool, {})
    {
      hide Safe, Valid, Steers, Tight, DataKept, ClonelessSized;
      NothingLost(pool, k);
      if k !in rows {
        return Err(NoSuchVdi);
      }
      var size, db := RecoverVsize(k);
      if size.Err? {
        return Err(size.error);
      }
      if rows[k].snap {
        r := DestroySnapshotVdi(k);
      } else {
        var made := DestroyVolume(k, size.value);
        r := if made.Ok? then Ok(()) else Err(made.error);
      }
    }

    // ----- create, import, snapshot, clone -----

    /** Rows with one more VDI. If its recorded size is not that of its zvol, sizes are no longer promised. */
    method Register(db: Rows, n: ZvolName, row: Row) returns (ok: bool)
      requires Safe() && Agrees(db) && n !in db && RowHeld(n, row)
      requires row.snap ==> forall j :: j in db && db[j].snap ==> j.uuid != n.uuid
      modifies this`rows, this`history, this`mishaps, this`promises
      ensures mishaps == old(mishaps) + if ok then [] else [CommitLost]
      ensures Safe() && rows == if ok then db[n := row] else old(rows)
      ensures promises == old(promises) || (!SizeOk(pool, n, row) && promises == old(promises).(sized := false))
    {
      hide Safe, SizeOk, Present, Backed, Anchored;
      if !SizeOk(pool, n, row) {
        Concede(promises.(sized := false));
      }
      AgreesPlus(db, n, row);
      ok := Commit(db[n := row]);
    }

    lemma AgreesPlus(db: Rows, n: ZvolName, row: Row)
      requires (forall j :: j in db ==> RowFine(j, db[j])) && RowsDistinct(db) && n !in db && RowFine(n, row)
      requires row.snap ==> forall j :: j in db && db[j].snap ==> j.uuid != n.uuid
      ensures Agrees(db[n := row])
    {
    }

    /** Recovering the size of a VDI leaves rows that may be committed. */
    lemma AgreesRecovered(d: Disk, k: ZvolName)
      requires Agrees(rows) && d.rows == rows && k in rows && KnownSize(d, k).Some?
      requires k in pool.zvols ==> k in d.pool.zvols && d.pool.zvols[k].props.volsize == pool.zvols[k].props.volsize
      ensures Agrees(Recovered(d, k))
    {
      var db := Recovered(d, k);
      forall j | j in db ensures RowFine(j, db[j]) {
        assert RowFine(j, rows[j]);
      }
    }

    /** `Volume.create`. A thick zvol is reserved the size asked for times `copies`. */
    method Create(sr: Dataset, size: nat, thin: bool, volblocksize: nat, available: nat)
      returns (r: Result<ZvolName, DriverError>)
      requires Safe() && volblocksize > 0
      modifies this`pool, this`rows, this`history, this`mishaps, this`issued, this`promises
      ensures Blamed(ErrorOf(r), old(mishaps), mishaps)
      ensures Safe() && promises == old(promises) && Extends(old(pool), pool)
      ensures r.Ok? ==>
                r.value.dataset == sr && Created(old(Now()), r.value, size, thin, volblocksize, CopiesOf(sr), Now())
      ensures r.Err? ==> rows == old(rows)
      ensures !thin && size * CopiesOf(sr) > available ==> r == Err(InsufficientSpace) && pool == old(pool)
      ensures r.Ok? ==> pool.zvols[r.value].props.refreservation == if thin then 0 else size * CopiesOf(sr)
      ensures r.Err? && (thin || size * CopiesOf(sr) <= available) ==>
                r.error in {ZfsFailed(EBUSY), CommitFailed}
      ensures Tight(old(pool), pool,
                    if LooseCreate(size, thin, volblocksize, r) then pool.zvols.Keys - old(pool.zvols.Keys) else {})
    {
      hide Safe, Agrees;
      if !thin && Reservation(size, CopiesOf(sr)) > available {
        return Err(InsufficientSpace);
      }
      SafeNow();
      RoundUpOfMultiple(size, volblocksize);
      var uuid := FreshUuid();
      var z := ZvolName(sr, uuid);
      var volsize := RoundUp(size, volblocksize);
      var e := MakeZvol(z, volsize, volblocksize, if thin then None else Some(Reservation(size, CopiesOf(sr))));
      if e.Some? {
        return Err(ZfsFailed(e.value));
      }
      SafeNow();
      var ok := Register(rows, z, Row(false, Some(volsize), None));
      r := if ok then Ok(z) else Err(CommitFailed);
    }

    /** A thick creation that leaves a reservation other than volsize times copies. */
    predicate LooseCreate(size: nat, thin: bool, volblocksize: nat, r: Result<ZvolName, DriverError>)
      requires volblocksize > 0
    {
      !thin && (size % volblocksize != 0 || (r.Err? && r.error.ZfsFailed?))
    }

    /** `create_zvol`: thick provisioning sets the reservation in a second command. */
    method MakeZvol(z: ZvolName, volsize: nat, volblocksize: nat, reservation: Option<nat>) returns (e: Option<Errno>)
      requires Safe() && Nobodys(z) && z !in pool.zvols
      modifies this`pool, this`history, this`mishaps
      ensures Told(e, old(mishaps), mishaps)
      ensures Safe() && Extends(old(pool), pool) && pool.zvols.Keys <= old(pool.zvols.Keys) + {z}
      ensures e.None? ==>
                var reserved := if reservation.Some? then reservation.value else 0;
                var v := NewVolume(volsize, volblocksize, CopiesOf(z.dataset), reserved);
                pool == old(pool).(zvols := old(pool).zvols[z := v])
      ensures e.Some? && reservation.None? ==> pool == old(pool)
      ensures e.Some? ==> e == Some(EBUSY)
    {
      hide Safe;
      var props := Props(volsize, volblocksize, CopiesOf(z.dataset), if reservation.Some? then volsize else 0, false);
      e := NewZvol(z, props);
      if e.None? && reservation.Some? {
        e := SetZvolProps(z, props.(refreservation := reservation.value));
        assert e.None? ==>
            pool.zvols == old(pool).zvols[z := Zvol(Zeros(volsize), props.(refreservation := reservation.value), None)];
      }
    }

    /** `Volume.import_existing` */
    method ImportExisting(k: ZvolName) returns (r: Result<(), DriverError>)
      requires Safe()
      modifies this`rows, this`history, this`mishaps, this`promises
      ensures Blamed(ErrorOf(r), old(mishaps), mishaps)
      ensures Safe() && promises == old(promises)
      ensures r.Ok? ==>
                k in pool.zvols && k !in old(rows)
                    && rows == old(rows)[k := Row(false, Some(pool.zvols[k].props.volsize), None)]
      ensures r.Err? ==> rows == old(rows)
      ensures r.Err? && k in pool.zvols && k !in old(rows) ==> r.error == CommitFailed
    {
      hide Safe, Agrees;
      SafeNow();
      if k !in pool.zvols {
        return Err(NoSuchZvol);
      }
      if k in rows {
        return Err(AlreadyRegistered);
      }
      var ok := Register(rows, k, Row(false, Some(pool.zvols[k].props.volsize), None));
      r := if ok then Ok(()) else Err(CommitFailed);
    }

    /** `Volume.snapshot`: a snapshot, and a read-only clone of it so that it can be attached. */
    method Snapshot(k: ZvolName) returns (r: Result<ZvolName, DriverError>)
      requires Safe()
      modifies this`pool, this`rows, this`history, this`mishaps, this`issued, this`promises
      ensures Blamed(ErrorOf(r), old(mishaps), mishaps)
      ensures Safe() && Extends(old(pool), pool) && Tight(old(pool), pool, {})
      ensures AtLeast(promises, old(promises).(sized := old(promises).sized && old(SnapshotSized(Now(), k))))
      ensures r.Ok? ==> Snapshotted(old(Now()), k, r.value, CopiesOf(k.dataset), Now())
      ensures r.Ok? ==> forall bytes :: SetContent(pool, r.value, bytes).Err?
      ensures r.Err? ==> rows == old(rows)
      ensures r.Err? && KnownSize(old(Now()), k).Some? && SnapshotSource(old(rows), k) in old(pool.zvols) ==>
                r.error in {ZfsFailed(EBUSY), CommitFailed}
    {
      hide Safe, Valid, Agrees, Tight, Extends, WithSnapshot, SnapshotSized, RowFine, SizeOk, DoomedGone, RowsDistinct;
      SafeNow();
      NothingNew(pool);
      if k !in rows {
        return Err(NoSuchVdi);
      }
      var size, db := RecoverVsize(k);
      if size.Err? {
        return Err(size.error);
      }
      var source := SnapshotSource(rows, k);
      var parent := if rows[k].snap then rows[k].parent else Some(k.uuid);
      var id := FreshUuid();
      var clone := ZvolName(k.dataset, id);
      var e := MakeSnapshot(source, clone);
      if e.Some? {
        return Err(ZfsFailed(e.value));
      }
      r := RegisterSnapshot(old(Now()), k, clone, db, Row(true, Some(size.value), parent));
      MadeReadOnly(old(pool), source, clone, CopiesOf(k.dataset));
    }

    lemma MadeReadOnly(p: Pool, source: ZvolName, clone: ZvolName, copies: nat)
      requires source in p.zvols
      ensures forall bytes :: SetContent(WithSnapshot(p, source, clone, copies), clone, bytes).Err?
    {
    }

    /** The row of a snapshot that has just been taken. */
    method RegisterSnapshot(ghost d: Disk, k: ZvolName, clone: ZvolName, db: Rows, row: Row)
      returns (r: Result<ZvolName, DriverError>)
      requires Safe() && Nobodys(clone) && d.rows == rows && k in rows && KnownSize(d, k).Some? && db == Recovered(d, k)
      requires SnapshotSource(rows, k) in d.pool.zvols && clone.dataset == k.dataset && clone !in d.pool.zvols
      requires pool == WithSnapshot(d.pool, SnapshotSource(rows, k), clone, CopiesOf(clone.dataset))
      requires row.snap && row.vsize == KnownSize(d, k) && forall j :: j in rows ==> j.uuid != clone.uuid
      modifies this`rows, this`history, this`mishaps, this`promises
      ensures Blamed(ErrorOf(r), old(mishaps), mishaps)
      ensures Safe() && r in {Ok(clone), Err(CommitFailed)}
      ensures rows == if r.Ok? then db[clone := row] else old(rows)
      ensures AtLeast(promises, old(promises).(sized := old(promises).sized && SnapshotSized(d, k)))
    {
      hide Safe, Valid, Agrees, WithSnapshot, SnapshotSized, RowHeld, SizeOk;
      SafeNow();
      SnapshotKept(d, k, SnapshotSource(rows, k), clone, row);
      AgreesRecovered(d, k);
      var ok := Register(db, clone, row);
      r := if ok then Ok(clone) else Err(CommitFailed);
    }

    lemma SnapshotKept(d: Disk, k: ZvolName, source: ZvolName, clone: ZvolName, row: Row)
      requires k in d.rows && source == SnapshotSource(d.rows, k) && source in d.pool.zvols
               && source.dataset == clone.dataset && clone !in d.pool.zvols
      requires pool == WithSnapshot(d.pool, source, clone, CopiesOf(clone.dataset)) && clone.uuid in issued && row.snap
      requires row.vsize == KnownSize(d, k)
      ensures RowHeld(clone, row) && (SnapshotSized(d, k) ==> SizeOk(pool, clone, row))
      ensures k in pool.zvols && k != clone ==>
                k in d.pool.zvols && d.pool.zvols[k].props.volsize == pool.zvols[k].props.volsize
    {
    }

    method MakeSnapshot(source: ZvolName, clone: ZvolName) returns (e: Option<Errno>)
      requires Safe() && Nobodys(clone) && clone.dataset == source.dataset
      requires clone !in pool.zvols && clone.uuid !in pool.snaps
      modifies this`pool, this`history, this`mishaps
      ensures Told(e, old(mishaps), mishaps)
      ensures Safe() && Extends(old(pool), pool) && Tight(old(pool), pool, {})
      ensures e.None? ==>
                source in old(pool.zvols) && pool == WithSnapshot(old(pool), source, clone, CopiesOf(clone.dataset))
      ensures e.Some? && source in old(pool.zvols) ==> e == Some(EBUSY)
    {
      hide Safe;
      e := SnapshotZvol(source, clone.uuid);
      if e.None? {
        e := Materialise(clone);
      }
    }

    /** The read-only clone that gives a snapshot a block device. */
    method Materialise(clone: ZvolName) returns (e: Option<Errno>)
      requires Safe() && Nobodys(clone) && clone !in pool.zvols
      requires clone.uuid in pool.snaps && pool.snaps[clone.uuid].holder.dataset == clone.dataset
      modifies this`pool, this`history, this`mishaps
      ensures Told(e, old(mishaps), mishaps)
      ensures Safe() && Extends(old(pool), pool) && Tight(old(pool), pool, {})
      ensures e.None? ==>
                var s := pool.snaps[clone.uuid];
                var props := Props(s.volsize, s.volblocksize, CopiesOf(clone.dataset), 0, true);
                pool == old(pool).(zvols := old(pool).zvols[clone := Zvol(s.content, props, Some(clone.uuid))])
      ensures e.Some? ==> e == Some(EBUSY)
    {
      hide Safe;
      e := CloneZvol(clone.uuid, clone);
      if e.None? {
        var v := pool.zvols[clone];
        e := SetZvolProps(clone, v.props.(readonly := true));
        assert e.None? ==> pool.zvols == old(pool).zvols[clone := v.(props := v.props.(readonly := true))];
      }
    }

    /** A clone of a snapshot, thick if the zvol holding the snapshot is thick. */
    method Fork(id: Uuid, clone: ZvolName) returns (e: Option<Errno>)
      requires Safe() && Nobodys(clone) && clone !in pool.zvols
      requires id in pool.snaps && pool.snaps[id].holder in pool.zvols && pool.snaps[id].holder.dataset == clone.dataset
      modifies this`pool, this`history, this`mishaps
      ensures Told(e, old(mishaps), mishaps)
      ensures Safe() && Extends(old(pool), pool) && Tight(old(pool), pool, {})
      ensures e.None? ==> pool == WithFork(old(pool), id, clone, CopiesOf(clone.dataset))
      ensures e.Some? ==> e == Some(EBUSY)
    {
      hide Safe;
      e := CloneZvol(id, clone);
      if e.None? {
        var v := pool.zvols[clone];
        if pool.zvols[pool.snaps[id].holder].props.refreservation > 0 {
          e := SetZvolProps(clone, v.props.(refreservation := Reservation(v.props.volsize, v.props.copies)));
        }
        assert e.None? ==> pool.zvols == WithFork(old(pool), id, clone, CopiesOf(clone.dataset)).zvols;
      }
    }

    /** The snapshot a clone of `k` hangs off: its own for a snapshot VDI, else one taken on the spot. */
    method OriginFor(k: ZvolName) returns (r: Result<Uuid, DriverError>)
      requires Safe() && k in rows
      modifies this`pool, this`history, this`mishaps, this`issued
      ensures Blamed(ErrorOf(r), old(mishaps), mishaps)
      ensures Safe() && Extends(old(pool), pool) && pool.zvols == old(pool.zvols) && old(issued) <= issued
      ensures r.Ok? ==> r.value in pool.snaps && pool.snaps[r.value].holder.dataset == k.dataset
      ensures r.Ok? && rows[k].snap ==> r.value == k.uuid && pool == old(pool)
      ensures r.Ok? && !rows[k].snap ==> TakeSnapshot(old(pool), k, r.value) == Ok(pool)
      ensures if r.Ok? then Cloneable(old(Now()), k) else Cloneable(old(Now()), k) ==> r.error == ZfsFailed(EBUSY)
    {
      hide Safe;
      SafeNow();
      if rows[k].snap {
        var name := FindSnapshotByUuid(k.dataset, k.uuid);
        return if name.None? then Err(SnapshotMissing) else Ok(k.uuid);
      }
      var id := FreshUuid();
      var e := SnapshotZvol(k, id);
      r := if e.None? then Ok(id) else Err(ZfsFailed(e.value));
    }

    method MakeClone(k: ZvolName) returns (r: Result<ZvolName, DriverError>)
      requires Safe() && k in rows
      modifies this`pool, this`history, this`mishaps, this`issued
      ensures Blamed(ErrorOf(r), old(mishaps), mishaps)
      ensures Safe() && Extends(old(pool), pool) && Tight(old(pool), pool, {})
      ensures r.Ok? ==>
                r.value !in rows && r.value.uuid in issued && r.value.dataset == k.dataset && r.value in pool.zvols
      ensures r.Ok? ==> ForkMade(old(pool), pool, k, rows[k].snap, r.value, CopiesOf(k.dataset))
      ensures if r.Ok? then Cloneable(old(Now()), k) else Cloneable(old(Now()), k) ==> r.error == ZfsFailed(EBUSY)
    {
      hide Safe, Valid, Agrees;
      var id := OriginFor(k);
      if id.Err? {
        return Err(id.error);
      }
      SafeNow();
      HolderExists(pool, id.value);
      var uuid := FreshUuid();
      var clone := ZvolName(k.dataset, uuid);
      ghost var base := pool;
      var e := Fork(id.value, clone);
      ExtendsTwice(old(pool), base, pool);
      r := if e.None? then Ok(clone) else Err(ZfsFailed(e.value));
    }

    lemma HolderExists(p: Pool, s: Uuid)
      requires Valid(p) && s in p.snaps
      ensures p.snaps[s].holder in p.zvols
    {
    }

    lemma ExtendsTwice(p: Pool, q: Pool, r: Pool)
      requires Extends(p, q) && q.zvols == p.zvols && Extends(q, r) && Tight(q, r, {})
      ensures Extends(p, r) && Tight(p, r, {})
    {
    }

    /** `Volume.clone`: of a snapshot VDI directly, of any other through a snapshot taken on the spot. */
    method Clone(k: ZvolName) returns (r: Result<ZvolName, DriverError>)
      requires Safe()
      modifies this`pool, this`rows, this`history, this`mishaps, this`issued, this`promises
      ensures Blamed(ErrorOf(r), old(mishaps), mishaps)
      ensures Safe() && Extends(old(pool), pool) && Tight(old(pool), pool, {})
      ensures AtLeast(promises, old(promises).(sized := old(promises).sized && old(CloneSized(Now(), k))))
      ensures r.Ok? ==> Cloned(old(Now()), k, r.value, CopiesOf(k.dataset), Now())
      ensures r.Err? ==> rows == old(rows)
      ensures r.Err? && KnownSize(old(Now()), k).Some? && Cloneable(old(Now()), k) ==>
                r.error in {ZfsFailed(EBUSY), CommitFailed}
    {
      hide Safe, Valid, Agrees, Tight, Extends, ForkMade, CloneSized, Cloneable;
      SafeNow();
      NothingNew(pool);
      if k !in rows {
        return Err(NoSuchVdi);
      }
      var size, db := RecoverVsize(k);
      if size.Err? {
        return Err(size.error);
      }
      r := MakeClone(k);
      if r.Err? {
        return;
      }
      SafeNow();
      CloneSizedMeans(old(Now()), pool, k, r.value, CopiesOf(k.dataset));
      AgreesRecovered(old(Now()), k);
      var ok := Register(db, r.value, Row(false, Some(size.value), None));
      r := if ok then r else Err(CommitFailed);
    }

    lemma NothingNew(p: Pool)
      ensures Extends(p, p) && Tight(p, p, {})
    {
    }

    lemma CloneSizedMeans(d: Disk, q: Pool, k: ZvolName, z: ZvolName, copies: nat)
      requires k in d.rows && KnownSize(d, k).Some? && ForkMade(d.pool, q, k, d.rows[k].snap, z, copies)
               && Extends(d.pool, q)
      ensures CloneSized(d, k) ==> SizeOk(q, z, Row(false, KnownSize(d, k), None))
      ensures k in q.zvols ==> k == z || (k in d.pool.zvols && d.pool.zvols[k] == q.zvols[k])
    {
    }

    // ----- resize, copies -----

    /** `vol_sync_thick_refreservation`: whatever it was, the reservation of a thick zvol becomes exact. */
    method SyncThick(z: ZvolName) returns (e: Option<Errno>)
      requires Safe() && z in pool.zvols
      modifies this`pool, this`history, this`mishaps
      ensures Told(e, old(mishaps), mishaps)
      ensures Safe()
      ensures pool ==
                old(pool).(zvols := old(pool).zvols[z := if e.None? then Synced(old(pool).zvols[z])
                                                    else old(pool).zvols[z]])
      ensures history == old(history) || (e.None? && history == old(history) + [Now()])
      ensures e.Some? ==> e == Some(EBUSY)
      ensures e.None? ==>
                var now, was := pool.zvols[z].props, old(pool).zvols[z].props;
                now.refreservation == if was.refreservation > 0 then now.volsize * now.copies else 0
    {
      hide Safe;
      var props := pool.zvols[z].props;
      var exact := Reservation(props.volsize, props.copies);
      e := None;
      if props.refreservation > 0 && props.refreservation != exact {
        e := SetZvolProps(z, props.(refreservation := exact));
      }
      assert e.Some? ==> pool.zvols == old(pool).zvols[z := old(pool).zvols[z]];
      assert e.None? ==> pool.zvols == old(pool).zvols[z := Synced(old(pool).zvols[z])];
    }

    /** Every state since `from` has the rows of now, and the zvol as it was or resized. */
    ghost predicate Growing(from: nat, k: ZvolName, v: Zvol, volsize: nat)
      reads this
    {
      from <= |history| && forall i :: from <= i < |history| ==>
        history[i].rows == rows && k in history[i].pool.zvols && MidResize(v, history[i].pool.zvols[k], volsize)
    }

    lemma MidResizeStarts(p: Pool, k: ZvolName, volsize: nat)
      requires Valid(p) && k in p.zvols
      ensures MidResize(p.zvols[k], p.zvols[k], volsize)
    {
      var v := p.zvols[k];
      assert |v.content| == v.props.volsize;
      assert v.props.volsize == volsize ==> Resized(v, volsize).content == v.content;
    }

    /** Resizes a zvol and then makes its reservation exact again. */
    method Grow(k: ZvolName, volsize: nat) returns (e: Option<Errno>)
      requires Safe() && k in pool.zvols && (k in rows ==> rows[k].vsize.None?)
      modifies this`pool, this`history, this`mishaps
      ensures Told(e, old(mishaps), mishaps)
      ensures Safe() && old(history) <= history && Growing(|old(history)|, k, old(pool.zvols[k]), volsize)
      ensures k in pool.zvols && pool == old(pool).(zvols := old(pool).zvols[k := pool.zvols[k]])
              && MidResize(old(pool.zvols[k]), pool.zvols[k], volsize)
      ensures e.None? ==> pool.zvols[k] == Synced(Resized(old(pool.zvols[k]), volsize))
      ensures e.Some? ==> e == Some(EBUSY)
    {
      hide Safe;
      SafeNow();
      MidResizeStarts(pool, k, volsize);
      e := SetVolsize(k, volsize);
      assert pool.zvols == old(pool).zvols[k := pool.zvols[k]];
      if e.None? {
        e := SyncThick(k);
        assert pool.zvols == old(pool).zvols[k := pool.zvols[k]];
      }
    }

    /** `Volume.resize`: the row size is nulled, the zvol resized, the size read back. A crash anywhere
        leaves the row size unknown or right, and the zvol as it was or at the size asked for. */
    method Resize(k: ZvolName, newSize: nat) returns (r: Result<(), DriverError>)
      requires Safe()
      modifies this`pool, this`rows, this`history, this`mishaps
      ensures Blamed(ErrorOf(r), old(mishaps), mishaps)
      ensures Safe() && old(history) <= history
      ensures Resizing(|old(history)|, k, old(pool), newSize)
      ensures history != old(history) ==> KnownSize(old(Now()), k).Some? && KnownSize(old(Now()), k).value <= newSize
      ensures r.Err? && k in old(rows) && k in old(pool.zvols) ==>
                r.error in {ShrinkRejected, ZfsFailed(EBUSY), CommitFailed}
      ensures r == Err(ShrinkRejected) <==> KnownSize(old(Now()), k).Some? && newSize < KnownSize(old(Now()), k).value
      ensures ResizeLeft(old(Now()), k, newSize, Now())
      ensures r.Ok? ==> ResizeDone(old(Now()), k, newSize, Now())
      ensures Tight(old(pool), pool, if r.Err? && r.error.ZfsFailed? then {k} else {})
    {
      hide Safe, Agrees, Tight, Growing, MidResize, Resized, Valid, BlockSize, RowFine, UuidsIssued, DoomedGone,
          RowsDistinct, RowHeld, ResizeLeft, ResizeDone;
      SafeNow();
      NothingNew(pool);
      NotResizedYet(Now(), k, newSize);
      if k !in rows {
        return Err(NoSuchVdi);
      }
      var size, db := RecoverVsize(k);
      if size.Err? {
        return Err(size.error);
      }
      if newSize < size.value {
        return Err(ShrinkRejected);
      }
      VsizeOnly(k, None);
      var ok := Commit(rows[k := rows[k].(vsize := None)]);
      if !ok {
        return Err(CommitFailed);
      }
      if k !in pool.zvols {
        return Err(NoSuchZvol);
      }
      var volsize := BlockSize(newSize, pool.zvols[k].props.volblocksize);
      r := GrowAndRecord(k, volsize);
      ResizeTold(old(Now()), Now(), k, newSize, r);
    }

    lemma NotResizedYet(d: Disk, k: ZvolName, newSize: nat)
      requires Valid(d.pool)
      ensures ResizeLeft(d, k, newSize, d)
      ensures k in d.rows ==> ResizeLeft(d, k, newSize, Disk(d.pool, d.rows[k := d.rows[k].(vsize := None)]))
      ensures k in d.pool.zvols ==>
                MidResize(d.pool.zvols[k], d.pool.zvols[k], BlockSize(newSize, d.pool.zvols[k].props.volblocksize))
    {
      if k in d.pool.zvols {
        MidResizeStarts(d.pool, k, BlockSize(newSize, d.pool.zvols[k].props.volblocksize));
      }
    }

    /** Every state since `from` has a right or unknown size for `k`, and its zvol as it was or resized. */
    ghost predicate Resizing(from: nat, k: ZvolName, p: Pool, newSize: nat)
      reads this
    {
      from <= |history| && forall i :: from <= i < |history| ==>
        && k in history[i].rows && SizeOk(history[i].pool, k, history[i].rows[k])
        && (k in p.zvols ==>
            k in history[i].pool.zvols && MidResize(p.zvols[k], history[i].pool.zvols[k],
                                                    BlockSize(newSize, p.zvols[k].props.volblocksize)))
    }

    lemma ResizeTold(d: Disk, e: Disk, k: ZvolName, newSize: nat, r: Result<(), DriverError>)
      requires k in d.rows && k in d.pool.zvols && k in e.pool.zvols && KnownSize(d, k).Some?
               && KnownSize(d, k).value <= newSize
      requires e.pool == d.pool.(zvols := d.pool.zvols[k := e.pool.zvols[k]])
               && MidResize(d.pool.zvols[k], e.pool.zvols[k], BlockSize(newSize, d.pool.zvols[k].props.volblocksize))
      requires e.rows == d.rows[k := d.rows[k].(vsize := if r.Err? then None
                                                else Some(BlockSize(newSize, d.pool.zvols[k].props.volblocksize)))]
      requires r.Ok? || r.error == CommitFailed ==>
                 e.pool.zvols[k] ==
                     Synced(Resized(d.pool.zvols[k], BlockSize(newSize, d.pool.zvols[k].props.volblocksize)))
      requires r.Err? ==> r.error == CommitFailed || r.error.ZfsFailed?
      ensures ResizeLeft(d, k, newSize, e) && (r.Ok? ==> ResizeDone(d, k, newSize, e))
      ensures Tight(d.pool, e.pool, if r.Err? && r.error.ZfsFailed? then {k} else {})
    {
    }

    /** Once the row has no size in it: resize the zvol, and record the size it then has. */
    method GrowAndRecord(k: ZvolName, volsize: nat) returns (r: Result<(), DriverError>)
      requires Safe() && k in rows && k in pool.zvols && rows[k].vsize.None?
      modifies this`pool, this`rows, this`history, this`mishaps
      ensures Blamed(ErrorOf(r), old(mishaps), mishaps)
      ensures Safe() && old(history) <= history
      ensures forall i :: |old(history)| <= i < |history| ==>
                && k in history[i].rows && SizeOk(history[i].pool, k, history[i].rows[k])
                && k in history[i].pool.zvols && MidResize(old(pool.zvols[k]), history[i].pool.zvols[k], volsize)
      ensures k in pool.zvols && pool == old(pool).(zvols := old(pool).zvols[k := pool.zvols[k]])
      ensures MidResize(old(pool.zvols[k]), pool.zvols[k], volsize)
      ensures rows == if r.Ok? then old(rows[k := rows[k].(vsize := Some(volsize))]) else old(rows)
      ensures r.Ok? || r.error == CommitFailed ==> pool.zvols[k] == Synced(Resized(old(pool.zvols[k]), volsize))
      ensures r.Err? ==> r.error == CommitFailed || r.error == ZfsFailed(EBUSY)
    {
      hide Safe, Agrees, Resized;
      var e := Grow(k, volsize);
      if e.Some? {
        return Err(ZfsFailed(e.value));
      }
      assert pool.zvols[k].props.volsize == volsize by {
        ResizedSize(old(pool.zvols[k]), volsize);
      }
      SafeNow();
      VsizeOnly(k, Some(pool.zvols[k].props.volsize));
      var ok := Commit(rows[k := rows[k].(vsize := Some(pool.zvols[k].props.volsize))]);
      r := if ok then Ok(()) else Err(CommitFailed);
    }

    lemma ResizedSize(v: Zvol, volsize: nat)
      ensures Resized(v, volsize).props.volsize == volsize
    {
    }

    lemma VsizeOnly(k: ZvolName, vsize: Option<nat>)
      requires k in rows && Agrees(rows) && SizeOk(pool, k, rows[k].(vsize := vsize))
      ensures Agrees(rows[k := rows[k].(vsize := vsize)])
    {
      var db := rows[k := rows[k].(vsize := vsize)];
      forall j | j in db ensures RowFine(j, db[j]) {
        assert RowFine(j, rows[j]);
      }
    }

    /** `Volume.set` of `copies` (with a value), and `Volume.unset` of it (without). */
    method SetCopies(k: ZvolName, copies: Option<nat>) returns (r: Result<(), DriverError>)
      requires Safe()
      modifies this`pool, this`history, this`mishaps
      ensures Blamed(ErrorOf(r), old(mishaps), mishaps)
      ensures Safe()
      ensures copies.Some? && copies.value !in {1, 2, 3} ==> r == Err(InvalidValue) && pool == old(pool)
      ensures r.Ok? ==> CopiesSet(old(pool), k, if copies.Some? then copies.value else CopiesOf(k.dataset), pool)
      ensures r.Err? && k in old(pool.zvols) && (copies.None? || copies.value in {1, 2, 3}) ==>
                r.error == ZfsFailed(EBUSY)
      ensures k !in old(pool.zvols) ==> pool == old(pool)
      ensures k in old(pool.zvols) ==>
                k in pool.zvols && pool == old(pool).(zvols := old(pool).zvols[k := pool.zvols[k]])
      ensures k in old(pool.zvols) ==> OnlyCopiesDiffer(old(pool.zvols[k]), pool.zvols[k])
      ensures Tight(old(pool), pool, if r.Err? && r.error.ZfsFailed? then {k} else {})
    {
      hide Safe;
      if copies.Some? && copies.value !in {1, 2, 3} {
        return Err(InvalidValue);
      }
      if k !in pool.zvols {
        return Err(NoSuchZvol);
      }
      var c := if copies.Some? then copies.value else CopiesOf(k.dataset);
      var e := SetZvolProps(k, pool.zvols[k].props.(copies := c));
      assert pool.zvols == old(pool).zvols[k := pool.zvols[k]];
      if e.Some? {
        return Err(ZfsFailed(e.value));
      }
      e := SyncThick(k);
      assert pool.zvols == old(pool).zvols[k := pool.zvols[k]];
      r := if e.None? then Ok(()) else Err(ZfsFailed(e.value));
    }

    // ----- orphan cleanup during SR.ls -----

    /** `zvol_find_orphans`: the zvols of the SR without a row, minus those in use. */
    method FindOrphanZvols(sr: Dataset, known: set<Uuid>, inUse: set<ZvolName>) returns (orphans: set<ZvolName>)
      ensures forall z :: z in orphans <==> z in pool.zvols && z.dataset == sr && z.uuid !in known && z !in inUse
    {
      orphans := {};
      var rest := set z | z in pool.zvols && z.dataset == sr;
      while rest != {}
        invariant forall z :: z in rest ==> z in pool.zvols && z.dataset == sr
        invariant forall z :: z in orphans ==> z in pool.zvols && z.dataset == sr && z.uuid !in known && z !in inUse
        invariant forall z :: z in pool.zvols && z.dataset == sr && z.uuid !in known && z !in inUse ==>
                    z in rest || z in orphans
        decreases rest
      {
        var z :| z in rest;
        if z.uuid !in known && z !in inUse {
          orphans := orphans + {z};
        }
        rest := rest - {z};
      }
    }

    /** `zsnap_find_orphans`: the snapshots below the SR whose id has no row, minus those of zvols in use. */
    method FindOrphanSnapshots(sr: Dataset, known: set<Uuid>, inUse: set<ZvolName>) returns (orphans: set<Uuid>)
      ensures forall s :: s in orphans <==>
                s in pool.snaps && pool.snaps[s].holder.dataset == sr && s !in known && pool.snaps[s].holder !in inUse
    {
      orphans := {};
      var rest := set s | s in pool.snaps && pool.snaps[s].holder.dataset == sr;
      while rest != {}
        invariant forall s :: s in rest ==> s in pool.snaps && pool.snaps[s].holder.dataset == sr
        invariant forall s :: s in orphans ==>
                    s in pool.snaps && pool.snaps[s].holder.dataset == sr && s !in known
                        && pool.snaps[s].holder !in inUse
        invariant forall s :: s in pool.snaps && pool.snaps[s].holder.dataset == sr && s !in known ==>
                    pool.snaps[s].holder in inUse || s in rest || s in orphans
        decreases rest
      {
        var s :| s in rest;
        if s !in known && pool.snaps[s].holder !in inUse {
          orphans := orphans + {s};
        }
        rest := rest - {s};
      }
    }

    /** `zvol_destroy_orphans`: best effort; those too young, or of unknown age, are skipped. Of the others
        exactly those that hold a snapshot, or for which ZFS is busy, stay. */
    method DestroyOrphanZvols(orphans: set<ZvolName>, grace: int, signs: Signs<ZvolName>)
      requires forall z :: z in orphans ==> z in pool.zvols && z !in rows
      modifies this`pool, this`history, this`mishaps
      ensures old(Safe()) ==> Safe()
      ensures pool.snaps == old(pool.snaps) && Left(old(pool), pool) && old(mishaps) <= mishaps
      ensures forall z :: z in old(pool.zvols) ==>
                (z in pool.zvols <==>
                 || z !in orphans || HoldsSnapshot(old(pool), z) || WasBusy(old(mishaps), mishaps, PDestroyZvol(z))
                 || (grace > 0 && (z in signs.born ==> signs.now - signs.born[z] < grace)))
    {
      hide Safe, WasBusy, HoldsSnapshot;
      NoneBusy(mishaps);
      var rest := orphans;
      while rest != {}
        invariant rest <= orphans && old(mishaps) <= mishaps && (old(Safe()) ==> Safe())
        invariant forall z :: WasBusy(old(mishaps), mishaps, PDestroyZvol(z)) ==> z in orphans - rest
        invariant pool.snaps == old(pool.snaps) && Left(old(pool), pool)
        invariant forall z :: z in old(pool.zvols) ==>
                    (z in pool.zvols <==>
                     || z !in orphans - rest || !OldEnough(grace, signs, z) || HoldsSnapshot(old(pool), z)
                     || WasBusy(old(mishaps), mishaps, PDestroyZvol(z)))
        decreases rest
      {
        var z :| z in rest;
        rest := rest - {z};
        if OldEnough(grace, signs, z) {
          SameHolders(old(pool), pool, z);
          ghost var before := mishaps;
          var e := RunZfs(PDestroyZvol(z));
          OneMishapMore(old(mishaps), before, mishaps, PDestroyZvol(z), e == Some(EBUSY));
        }
      }
    }

    lemma NoneBusy(ms: seq<Mishap>)
      ensures forall c :: !WasBusy(ms, ms, c)
    {
    }

    lemma SameHolders(p: Pool, q: Pool, z: ZvolName)
      requires q.snaps == p.snaps
      ensures HoldsSnapshot(q, z) <==> HoldsSnapshot(p, z)
    {
    }

    lemma SameClones(p: Pool, q: Pool, s: Uuid)
      requires q.zvols == p.zvols
      ensures HasClone(q, s) <==> HasClone(p, s)
    {
    }

    lemma OneMishapMore(was: seq<Mishap>, half: seq<Mishap>, now: seq<Mishap>, c: Prim, busy: bool)
      requires was <= half && now == half + (if busy then [Busy(c)] else [])
      ensures was <= now && forall d :: WasBusy(was, now, d) <==> WasBusy(was, half, d) || (busy && d == c)
    {
      assert now[|was|..] == half[|was|..] + (if busy then [Busy(c)] else []);
    }

    /** Snapshots found below an SR are not those of another SR's VDIs, or are kept by the clone of the VDI. */
    ghost predicate Guarded()
      reads this`promises
    {
      ownClones || promises.inSr
    }

    /** `zsnap_destroy_orphans`: the same for snapshots, of which those with a clone stay. */
    method DestroyOrphanSnapshots(sr: Dataset, orphans: set<Uuid>, grace: int, signs: Signs<Uuid>)
      requires forall s :: s in orphans ==>
                 ZvolName(sr, s) !in rows && s in pool.snaps && pool.snaps[s].holder.dataset == sr
      modifies this`pool, this`history, this`mishaps
      ensures old(Safe()) && Guarded() ==> Safe()
      ensures pool.zvols == old(pool.zvols) && Left(old(pool), pool) && old(mishaps) <= mishaps
      ensures forall s :: s in old(pool.snaps) ==>
                (s in pool.snaps <==>
                 || s !in orphans || HasClone(old(pool), s) || WasBusy(old(mishaps), mishaps, PDestroySnapshot(s))
                 || (grace > 0 && (s in signs.born ==> signs.now - signs.born[s] < grace)))
    {
      hide Safe, Guarded, WasBusy, HasClone;
      NoneBusy(mishaps);
      var rest := orphans;
      while rest != {}
        invariant rest <= orphans && old(mishaps) <= mishaps && (old(Safe()) && Guarded() ==> Safe())
        invariant forall s :: WasBusy(old(mishaps), mishaps, PDestroySnapshot(s)) ==> s in orphans - rest
        invariant pool.zvols == old(pool.zvols) && Left(old(pool), pool)
        invariant forall s :: s in old(pool.snaps) ==>
                    (s in pool.snaps <==>
                     || s !in orphans - rest || !OldEnough(grace, signs, s) || HasClone(old(pool), s)
                     || WasBusy(old(mishaps), mishaps, PDestroySnapshot(s)))
        decreases rest
      {
        var s :| s in rest;
        rest := rest - {s};
        if OldEnough(grace, signs, s) {
          SameClones(old(pool), pool, s);
          ghost var before := mishaps;
          var e := DestroyOrphanSnapshot(sr, s);
          OneMishapMore(old(mishaps), before, mishaps, PDestroySnapshot(s), e == Some(EBUSY));
        }
      }
    }

    method DestroyOrphanSnapshot(sr: Dataset, s: Uuid) returns (e: Option<Errno>)
      requires ZvolName(sr, s) !in rows && (s in pool.snaps ==> pool.snaps[s].holder.dataset == sr)
      modifies this`pool, this`history, this`mishaps
      ensures mishaps == old(mishaps) + (if e == Some(EBUSY) then [Busy(PDestroySnapshot(s))] else [])
      ensures old(Safe()) && Guarded() ==> Safe()
      ensures Outcome(old(pool), DestroySnapshot(old(pool), s), e, pool)
    {
      hide Safe, Guarded;
      if Safe() && Guarded() {
        NoRowReliesOn(sr, s);
      }
      e := RunZfs(PDestroySnapshot(s));
    }

    /** A snapshot below an SR that has no row for it backs no row of any SR, or has a clone. */
    lemma NoRowReliesOn(sr: Dataset, s: Uuid)
      requires Safe() && Guarded() && ZvolName(sr, s) !in rows
      requires s in pool.snaps ==> pool.snaps[s].holder.dataset == sr
      ensures Harmless(Now(), doomed, promises, PDestroySnapshot(s))
    {
      hide Safe, Valid;
      SafeNow();
      forall k | k in rows && k !in doomed && k.uuid == s && rows[k].snap ensures HasClone(pool, s) {
        assert RowFine(k, rows[k]);
        assert k != ZvolName(sr, s);
      }
    }

    /** The cleanup part of `SR.ls`: only zvols and snapshots of this SR without a row, not in use and old
        enough, can go, and never a zvol that still holds a snapshot or a snapshot that still has a clone;
        and all of these go, unless ZFS is busy. */
    method CleanUpOrphans(sr: Dataset, c: Cleanup)
      modifies this`pool, this`history, this`mishaps
      ensures old(Safe()) && Guarded() ==> Safe()
      ensures CleanedUp(old(pool), rows, sr, c, pool)
      ensures WellSwept(old(pool), rows, sr, c, pool, old(mishaps), mishaps) && old(mishaps) <= mishaps
    {
      hide Safe, Guarded;
      if c.enabled {
        CleanUpZvols(sr, c);
        ghost var mid, between := pool, mishaps;
        CleanUpSnapshots(sr, c);
        SweptTwice(old(pool), mid, pool, sr, c, old(mishaps), between, mishaps);
      }
    }

    /** What the sweep of the zvols may take, and what it takes. */
    ghost predicate ZvolsSwept(p: Pool, q: Pool, sr: Dataset, c: Cleanup, was: seq<Mishap>, now: seq<Mishap>)
      reads this`rows
    {
      && q.snaps == p.snaps && Left(p, q) && was <= now
      && forall z :: z in p.zvols ==>
           (z !in q.zvols <==>
            && OrphanZvol(rows, sr, c, z) && OldEnough(c.grace, c.zvols, z) && !HoldsSnapshot(p, z)
            && !WasBusy(was, now, PDestroyZvol(z)))
    }

    ghost predicate SnapshotsSwept(p: Pool, q: Pool, sr: Dataset, c: Cleanup, was: seq<Mishap>, now: seq<Mishap>)
      reads this`rows
    {
      && q.zvols == p.zvols && Left(p, q) && was <= now
      && forall s :: s in p.snaps ==>
           (s !in q.snaps <==>
            && OrphanSnapshot(p, rows, sr, c, s) && OldEnough(c.grace, c.snaps, s) && !HasClone(p, s)
            && !WasBusy(was, now, PDestroySnapshot(s)))
    }

    lemma SweptTwice(p: Pool, mid: Pool, q: Pool, sr: Dataset, c: Cleanup,
                     was: seq<Mishap>, between: seq<Mishap>, now: seq<Mishap>)
      requires c.enabled && ZvolsSwept(p, mid, sr, c, was, between) && SnapshotsSwept(mid, q, sr, c, between, now)
      ensures CleanedUp(p, rows, sr, c, q) && WellSwept(p, rows, sr, c, q, was, now)
    {
      assert forall s :: HasClone(q, s) <==> HasClone(mid, s);
      assert now[|was|..] == between[|was|..] + now[|between|..];
      assert forall d :: WasBusy(was, between, d) || WasBusy(between, now, d) ==> WasBusy(was, now, d);
      hide HasClone, HoldsSnapshot, WasBusy;
    }

    method CleanUpZvols(sr: Dataset, c: Cleanup)
      modifies this`pool, this`history, this`mishaps
      ensures old(Safe()) ==> Safe()
      ensures ZvolsSwept(old(pool), pool, sr, c, old(mishaps), mishaps)
    {
      hide Safe, HoldsSnapshot, WasBusy;
      var known := set k | k in rows && k.dataset == sr :: k.uuid;
      assert forall z: ZvolName :: z in rows && z.dataset == sr ==> z.uuid in known;
      var zvols := FindOrphanZvols(sr, known, c.zvols.inUse);
      DestroyOrphanZvols(zvols, c.grace, c.zvols);
    }

    method CleanUpSnapshots(sr: Dataset, c: Cleanup)
      modifies this`pool, this`history, this`mishaps
      ensures old(Safe()) && Guarded() ==> Safe()
      ensures SnapshotsSwept(old(pool), pool, sr, c, old(mishaps), mishaps)
    {
      hide Safe, Guarded, HasClone, WasBusy;
      var known := set k | k in rows && k.dataset == sr :: k.uuid;
      var snaps := FindOrphanSnapshots(sr, known, c.snaps.inUse);
      assert forall s :: s in snaps ==> ZvolName(sr, s) !in rows by {
        assert forall s :: ZvolName(sr, s) in rows ==> ZvolName(sr, s).uuid in known;
      }
      assert forall s :: ZvolName(sr, s) in rows ==> s in known by {
        assert forall s :: ZvolName(sr, s) in rows ==> ZvolName(sr, s).uuid in known;
      }
      DestroyOrphanSnapshots(sr, snaps, c.grace, c.snaps);
    }

    // ----- the world around the driver -----

    /** A guest writes to its disk. */
    method GuestWrite(z: ZvolName, content: Content)
      requires Safe()
      modifies this`pool, this`history, this`mishaps
      ensures Safe() && WrittenOnly(old(pool), z, pool) && old(mishaps) <= mishaps
    {
      hide Safe;
      var e := RunZfs(PSetContent(z, content));
      assert e.None? ==> pool.zvols == old(pool).zvols[z := pool.zvols[z]];
    }

    /** A zvol arrives from another host, with no row yet. */
    method Receive(sr: Dataset, props: Props)
      requires Safe()
      modifies this`pool, this`history, this`mishaps, this`issued
      ensures Safe() && Arrivals(old(Now()), props, pool) && old(mishaps) <= mishaps
    {
      hide Safe;
      SafeNow();
      var uuid := FreshUuid();
      var e := NewZvol(ZvolName(sr, uuid), props);
    }
  }

  lemma SomeUnissued(issued: set<Uuid>)
    ensures exists u: Uuid :: u !in issued
  {
    var bound := Bound(issued);
    assert bound !in issued;
  }

  lemma {:induction false} Bound(issued: set<Uuid>) returns (bound: Uuid)
    ensures forall u :: u in issued ==> u < bound
    decreases issued
  {
    if issued == {} {
      bound := 0;
    } else {
      var v :| v in issued;
      var rest := Bound(issued - {v});
      bound := if v < rest then rest else v + 1;
      assert forall u :: u in issued ==> u == v || u in issued - {v};
    }
  }

  predicate InNameOrder(names: seq<ZvolName>) {
    forall i, j :: 0 <= i < j < |names| ==> Before(names[i], names[j])
  }
}
