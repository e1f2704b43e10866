/** `Volume.copy`: a transient snapshot of the source, replication by clone (same pool) or by
    send/receive (another pool), removal of the transient snapshots, and only then a row. */
module VolumeCopy {
  import opened Wrappers
  import opened ZfsPool
  import opened Promotion
  import opened Metabase
  import opened VolumeSpec
  import opened VolumeDriver

  /** Where a copy failed, and what its own cleanup achieved. `refusal` is why a command was refused, none
      if the stream broke; `dest` and `token` are the outcomes of destroying the destination zvol and the
      source snapshot. */
  datatype CopyError =
    | NotStarted(cause: DriverError)
    | ReplicationFailed(zvol: ZvolName, refusal: Option<Errno>, dest: Option<Errno>, token: Option<Errno>)
    | TransientsLeft(zvol: ZvolName)
    | NotRegistered(zvol: ZvolName)

  /** The pool is as it was; only time has passed. */
  ghost predicate Restored(p: Pool, q: Pool) {
    q.zvols == p.zvols && q.snaps == p.snaps
  }

  // ----- phase 1: the transient snapshot -----

  /** Reads the source VDI under its lock and snapshots the zvol named after it. */
  method TakeTransient(src: Host, k: ZvolName, token: Uuid) returns (r: Result<nat, DriverError>)
    requires src.Safe() && token in src.issued
    modifies src`pool, src`rows, src`history, src`mishaps
    ensures Blamed(ErrorOf(r), old(src.mishaps), src.mishaps)
    ensures src.Safe()
    ensures r.Ok? ==> k in old(src.rows) && TakeSnapshot(old(src.pool), k, token) == Ok(src.pool)
    ensures r.Ok? ==> KnownSize(old(src.Now()), k) == Some(r.value) && src.rows == Recovered(old(src.Now()), k)
    ensures r.Err? ==> src.pool == old(src.pool) && RowsUpToSize(old(src.rows), src.rows, k)
    ensures r.Err? && k in old(src.rows) && k in old(src.pool.zvols) && token !in old(src.pool.snaps) ==>
              r.error in {ZfsFailed(EBUSY), CommitFailed}
  {
    hide Host.Safe, Host.Agrees;
    if k !in src.rows {
      return Err(NoSuchVdi);
    }
    src.SafeNow();
    var size, db := src.RecoverVsize(k);
    if size.Err? {
      return Err(size.error);
    }
    src.AgreesRecovered(src.Now(), k);
    var ok := src.Commit(db);
    if !ok {
      return Err(CommitFailed);
    }
    var e := src.SnapshotZvol(k, token);
    r := if e.None? then Ok(size.value) else Err(ZfsFailed(e.value));
  }

  /** Gives a freshly replicated zvol the reservation of a thick one. */
  method MakeThick(dst: Host, dest: ZvolName) returns (e: Option<Errno>)
    requires dst.Safe() && dest in dst.pool.zvols
    modifies dst`pool, dst`history, dst`mishaps
    ensures Told(e, old(dst.mishaps), dst.mishaps)
    ensures dst.Safe() && (e.None? || e == Some(EBUSY))
    ensures dst.pool ==
              old(dst.pool).(zvols := old(dst.pool).zvols[dest := if e.None? then Thick(old(dst.pool).zvols[dest])
                                                          else old(dst.pool).zvols[dest]])
  {
    hide Host.Safe;
    var props := dst.pool.zvols[dest].props;
    e := dst.SetZvolProps(dest, props.(refreservation := Reservation(props.volsize, props.copies)));
    assert e.Some? ==> dst.pool.zvols == old(dst.pool).zvols[dest := old(dst.pool).zvols[dest]];
  }

  function Thick(v: Zvol): Zvol {
    v.(props := v.props.(refreservation := Reservation(v.props.volsize, v.props.copies)))
  }

  ghost predicate NoRowUses(h: Host, token: Uuid)
    reads h`rows, h`doomed
  {
    forall k :: k in h.rows && k.uuid == token && h.rows[k].snap ==> k in h.doomed
  }

  // ----- another pool -----

  /** What replication reports, and the mishap it was stopped by: a busy device, or a broken stream. */
  predicate Broken(ok: bool, refusal: Option<Errno>, was: seq<Mishap>, now: seq<Mishap>) {
    if ok || refusal.Some? then Told(refusal, was, now) && (ok ==> refusal.None?) else now == was + [StreamBroken]
  }

  /** The stream from one pool to the other, which may fail leaving nothing or leaving everything. */
  method SendReceive(src: Host, dst: Host, token: Uuid, dest: ZvolName) returns (ok: bool, e: Option<Errno>)
    requires src != dst && Valid(src.pool) && dst.Safe() && token in src.pool.snaps
    requires dst.Nobodys(dest) && token in dst.issued && dest !in dst.pool.zvols && token !in dst.pool.snaps
    modifies dst`pool, dst`history, dst`mishaps
    ensures Broken(ok, e, old(dst.mishaps), dst.mishaps)
    ensures dst.Safe() && (e.None? || e == Some(EBUSY)) && (ok ==> e.None?)
    ensures ok ==> dst.pool == Received(old(dst.pool), src.pool.snaps[token], token, dest, dst.CopiesOf(dest.dataset))
    ensures dst.pool == old(dst.pool)
            || dst.pool == Received(old(dst.pool), src.pool.snaps[token], token, dest, dst.CopiesOf(dest.dataset))
  {
    hide Host.Safe;
    var s := src.pool.snaps[token];
    e := dst.RunZfs(PReceive(dest, token, s.content,
                             Props(s.volsize, s.volblocksize, dst.CopiesOf(dest.dataset), 0, false)));
    var sendFailed: bool := *;
    if e.None? && sendFailed {
      dst.StreamBreaks();
    }
    ok := e.None? && !sendFailed;
  }

  function Received(p: Pool, s: Snap, token: Uuid, dest: ZvolName, copies: nat): Pool {
    p.(zvols := p.zvols[dest := Zvol(s.content, Props(s.volsize, s.volblocksize, copies, 0, false), None)],
       snaps := p.snaps[token := Snap(dest, p.txg, s.content, s.volsize, s.volblocksize)],
       txg := p.txg + 1)
  }

  /** Cleanup after failed replication: the destination, then the source snapshot, errors swallowed.
      The destination goes exactly if it holds no received snapshot and is not busy. */
  method AbandonReplica(src: Host, dst: Host, token: Uuid, dest: ZvolName) returns (d: Option<Errno>, t: Option<Errno>)
    requires src != dst && src.Safe() && dst.Safe() && dest !in dst.rows
    requires NoRowUses(src, token)
    requires token in src.pool.snaps && !HasClone(src.pool, token)
    modifies src`pool, src`history, src`mishaps, dst`pool, dst`history, dst`mishaps
    ensures dst.mishaps == old(dst.mishaps) + if d == Some(EBUSY) then [Busy(PDestroyZvol(dest))] else []
    ensures src.mishaps == old(src.mishaps) + if t.Some? then [Busy(PDestroySnapshot(token))] else []
    ensures src.Safe() && dst.Safe()
    ensures d.None? ==> dst.pool == old(dst.pool).(zvols := old(dst.pool).zvols - {dest})
    ensures d.Some? ==> dst.pool == old(dst.pool) && dest in dst.pool.zvols
    ensures HoldsSnapshot(old(dst.pool), dest) && dest in old(dst.pool.zvols) ==> d.Some?
    ensures !HoldsSnapshot(old(dst.pool), dest) ==> d.None? || d == Some(EBUSY)
    ensures t.None? ==> src.pool == old(src.pool).(snaps := old(src.pool).snaps - {token})
    ensures t.Some? ==> src.pool == old(src.pool) && t == Some(EBUSY)
  {
    hide Host.Safe;
    d := None;
    if dest in dst.pool.zvols {
      d := dst.RemoveZvol(dest);
    } else {
      assert dst.pool.zvols == dst.pool.zvols - {dest};
    }
    t := src.RemoveSnapshot(token);
  }

  /** The transient snapshot resisted twice in a row. */
  predicate TwiceBusy(token: Uuid, was: seq<Mishap>, now: seq<Mishap>) {
    now == was + [Busy(PDestroySnapshot(token)), Busy(PDestroySnapshot(token))]
  }

  /** Removing both transient snapshots; if either resists, the attempt at rolling back the destination,
      which never removes it because the received snapshot is still on it. */
  method DropTransients(src: Host, dst: Host, token: Uuid, dest: ZvolName) returns (ok: bool)
    requires src != dst && src.Safe() && dst.Safe() && dest !in dst.rows
    requires NoRowUses(src, token) && NoRowUses(dst, token)
    requires token in src.pool.snaps && !HasClone(src.pool, token)
    requires dest in dst.pool.zvols && token in dst.pool.snaps && dst.pool.snaps[token].holder == dest
             && !HasClone(dst.pool, token)
    modifies src`pool, src`history, src`mishaps, dst`pool, dst`history, dst`mishaps
    ensures if ok then src.mishaps == old(src.mishaps) && dst.mishaps == old(dst.mishaps)
            else src.mishaps != old(src.mishaps) || dst.mishaps != old(dst.mishaps)
    ensures old(src.mishaps) <= src.mishaps && old(dst.mishaps) <= dst.mishaps
    ensures src.Safe() && dst.Safe()
    ensures ok ==> WithoutSnap(old(src.pool), src.pool, token) && WithoutSnap(old(dst.pool), dst.pool, token)
    ensures !ok ==> OrWithoutSnap(old(src.pool), src.pool, token) && OrWithoutSnap(old(dst.pool), dst.pool, token)
    ensures token in src.pool.snaps ==> TwiceBusy(token, old(src.mishaps), src.mishaps)
    ensures token in dst.pool.snaps ==> WasBusy(old(dst.mishaps), dst.mishaps, PDestroySnapshot(token))
    ensures token in dst.pool.snaps && src.mishaps == old(src.mishaps) ==> |dst.mishaps| >= |old(dst.mishaps)| + 2
  {
    hide Host.Safe, HasClone;
    var e := src.RemoveSnapshot(token);
    if e.None? {
      e := dst.RemoveSnapshot(token);
    }
    ok := e.None?;
    if !ok {
      StillHeld(dst.pool, token, dest);
      var rolledBack := dst.RemoveZvol(dest);
      e := src.RemoveSnapshot(token);
      e := dst.RemoveSnapshot(token);
    }
  }

  ghost predicate WithoutSnap(p: Pool, q: Pool, s: Uuid) {
    q == p.(snaps := p.snaps - {s})
  }

  ghost predicate OrWithoutSnap(p: Pool, q: Pool, s: Uuid) {
    q == p || WithoutSnap(p, q, s)
  }

  lemma StillHeld(p: Pool, token: Uuid, dest: ZvolName)
    requires token in p.snaps && p.snaps[token].holder == dest
    ensures DestroyZvol(p, dest).Err?
  {
  }

  /** Replication proper: the stream, and thick provisioning if the source is thick. */
  method Replicate(src: Host, dst: Host, token: Uuid, dest: ZvolName, thick: bool)
    returns (ok: bool, refusal: Option<Errno>)
    requires src != dst && Valid(src.pool) && dst.Safe() && token in src.pool.snaps
    requires dst.Nobodys(dest) && token in dst.issued && dest !in dst.pool.zvols && token !in dst.pool.snaps
    modifies dst`pool, dst`history, dst`mishaps
    ensures Broken(ok, refusal, old(dst.mishaps), dst.mishaps)
    ensures dst.Safe() && (refusal.None? || refusal == Some(EBUSY))
    ensures ok ==>
              Replicated(old(dst.pool), dst.pool, src.pool.snaps[token], token, dest, thick, dst.CopiesOf(dest.dataset))
    ensures !ok ==> dst.pool == old(dst.pool) || Arrived(old(dst.pool), dst.pool, token, dest)
  {
    hide Host.Safe;
    ok, refusal := SendReceive(src, dst, token, dest);
    if ok && thick {
      refusal := MakeThick(dst, dest);
      ok := refusal.None?;
      assert dst.pool.zvols == old(dst.pool).zvols[dest := dst.pool.zvols[dest]];
    }
  }

  /** The destination and its received snapshot are there, and nothing else is new. */
  ghost predicate Arrived(p: Pool, q: Pool, token: Uuid, dest: ZvolName) {
    && dest in q.zvols && token in q.snaps && q.snaps[token].holder == dest && q.zvols[dest].origin.None?
    && ThickOk(q.zvols[dest].props)
    && q.zvols == p.zvols[dest := q.zvols[dest]] && q.snaps == p.snaps[token := q.snaps[token]]
  }

  ghost predicate Replicated(p: Pool, q: Pool, s: Snap, token: Uuid, dest: ZvolName, thick: bool, copies: nat) {
    && Arrived(p, q, token, dest) && q.zvols[dest].content == s.content
    && q.zvols[dest].props ==
         Props(s.volsize, s.volblocksize, copies, if thick then Reservation(s.volsize, copies) else 0, false)
  }

  /** The transient snapshot of `k`, taken of a pool that was `p`, is there and nobody's. */
  ghost predicate Sending(src: Host, p: Pool, k: ZvolName, token: Uuid)
    reads src
  {
    src.Safe() && Valid(p) && TakeSnapshot(p, k, token) == Ok(src.pool) && NoRowUses(src, token)
  }

  /** The destination pool `pd` knows neither the new zvol nor the transient snapshot. */
  ghost predicate Expecting(dst: Host, pd: Pool, token: Uuid, dest: ZvolName)
    reads dst
  {
    && dst.Safe() && Valid(pd) && NoRowUses(dst, token)
    && dst.Nobodys(dest) && token in dst.issued && dest !in pd.zvols && token !in pd.snaps
  }

  /** However it goes on, neither pool has lost anything it had before the copy. */
  ghost predicate BothExtend(p: Pool, q: Pool, pd: Pool, qd: Pool) {
    Extends(p, q) && Tight(p, q, {}) && Extends(pd, qd) && Tight(pd, qd, {})
  }

  /** Phases 2 and 3. */
  method Transfer(src: Host, ghost p: Pool, k: ZvolName, dst: Host, token: Uuid, dest: ZvolName)
    returns (r: Result<(), CopyError>)
    requires src != dst && Sending(src, p, k, token) && Expecting(dst, dst.pool, token, dest)
    modifies src`pool, src`history, src`mishaps, dst`pool, dst`history, dst`mishaps
    ensures r.Ok? <==> src.mishaps == old(src.mishaps) && dst.mishaps == old(dst.mishaps)
    ensures old(src.mishaps) <= src.mishaps && old(dst.mishaps) <= dst.mishaps
    ensures src.Safe() && dst.Safe() && BothExtend(p, src.pool, old(dst.pool), dst.pool)
    ensures r.Ok? ==>
              Restored(p, src.pool)
              && CopyOf(old(dst.pool), dst.pool, p.zvols[k], dest, dst.CopiesOf(dest.dataset))
    ensures r.Err? ==> r.error.ReplicationFailed? || r.error.TransientsLeft?
    ensures r.Err? ==> r.error.zvol == dest
    ensures r.Err? && r.error.ReplicationFailed? ==>
              && r.error.refusal in {None, Some(EBUSY)}
              && CleanupTold(p, src.pool, old(dst.pool), dst.pool, dest, r.error.dest, r.error.token)
    ensures r.Err? && r.error.TransientsLeft? ==> dest in dst.pool.zvols
  {
    hide Host.Safe, Valid, CleanupTold, BothExtend, CopyOf;
    src.SafeNow();
    var thick := src.pool.zvols[k].props.refreservation > 0;
    TokenUnused(p, src.pool, k, token);
    var ok, refusal := Replicate(src, dst, token, dest, thick);
    if ok {
      r := Finish(src, p, k, dst, old(dst.pool), token, dest, thick);
    } else {
      r := Undo(src, p, k, dst, old(dst.pool), token, dest, refusal);
    }
  }

  /** After failed replication. */
  method Undo(src: Host, ghost p: Pool, k: ZvolName, dst: Host, ghost pd: Pool, token: Uuid, dest: ZvolName,
              refusal: Option<Errno>)
    returns (r: Result<(), CopyError>)
    requires src != dst && Sending(src, p, k, token) && Expecting(dst, pd, token, dest) && !HasClone(src.pool, token)
    requires dst.pool == pd || Arrived(pd, dst.pool, token, dest)
    modifies src`pool, src`history, src`mishaps, dst`pool, dst`history, dst`mishaps
    ensures old(src.mishaps) <= src.mishaps && old(dst.mishaps) <= dst.mishaps
    ensures src.Safe() && dst.Safe() && BothExtend(p, src.pool, pd, dst.pool)
    ensures r.Err? && r.error.ReplicationFailed? && r.error.zvol == dest && r.error.refusal == refusal
    ensures r.error.token.Some? ==> src.mishaps == old(src.mishaps) + [Busy(PDestroySnapshot(token))]
    ensures r.error.dest == Some(EBUSY) ==> dst.mishaps == old(dst.mishaps) + [Busy(PDestroyZvol(dest))]
    ensures r.error.dest.Some? && r.error.dest != Some(EBUSY) ==> HoldsSnapshot(dst.pool, dest)
    ensures CleanupTold(p, src.pool, pd, dst.pool, dest, r.error.dest, r.error.token)
  {
    hide Host.Safe, Valid, CleanupTold, BothExtend, HasClone;
    ghost var p1, pd1 := src.pool, dst.pool;
    var d, t := AbandonReplica(src, dst, token, dest);
    UndoTold(p, p1, src.pool, k, pd, pd1, dst.pool, token, dest, d, t);
    r := Err(ReplicationFailed(dest, refusal, d, t));
  }

  lemma UndoTold(p: Pool, p1: Pool, q: Pool, k: ZvolName, pd: Pool, pd1: Pool, qd: Pool, token: Uuid, dest: ZvolName,
                 d: Option<Errno>, t: Option<Errno>)
    requires TakeSnapshot(p, k, token) == Ok(p1) && q == if t.None? then p1.(snaps := p1.snaps - {token}) else p1
    requires Valid(pd) && dest !in pd.zvols && token !in pd.snaps && (pd1 == pd || Arrived(pd, pd1, token, dest))
    requires qd == if d.None? then pd1.(zvols := pd1.zvols - {dest}) else pd1
    requires d.Some? ==> dest in pd1.zvols
    requires HoldsSnapshot(pd1, dest) && dest in pd1.zvols ==> d.Some?
    ensures CleanupTold(p, q, pd, qd, dest, d, t) && BothExtend(p, q, pd, qd)
  {
    hide CleanupTold, Extends, Tight, Valid;
    SourceCleaned(p, p1, q, k, token, t);
    DestinationCleaned(pd, pd1, qd, token, dest, d);
    assert CleanupTold(p, q, pd, qd, dest, d, t) by {
      ToldOfBoth(p, q, pd, qd, dest, d, t);
    }
  }

  lemma ToldOfBoth(p: Pool, q: Pool, pd: Pool, qd: Pool, dest: ZvolName, d: Option<Errno>, t: Option<Errno>)
    requires (Restored(p, q) <==> t.None?) && (Restored(pd, qd) <==> d.None?) && (dest in qd.zvols <==> d.Some?)
    ensures CleanupTold(p, q, pd, qd, dest, d, t)
  {
  }

  lemma SourceCleaned(p: Pool, p1: Pool, q: Pool, k: ZvolName, token: Uuid, t: Option<Errno>)
    requires TakeSnapshot(p, k, token) == Ok(p1) && q == if t.None? then p1.(snaps := p1.snaps - {token}) else p1
    ensures Restored(p, q) <==> t.None?
    ensures Extends(p, q) && Tight(p, q, {})
  {
    assert t.None? ==> q.snaps == p.snaps;
    assert t.Some? ==> token in q.snaps && token !in p.snaps;
  }

  lemma DestinationCleaned(pd: Pool, pd1: Pool, qd: Pool, token: Uuid, dest: ZvolName, d: Option<Errno>)
    requires dest !in pd.zvols && token !in pd.snaps && (pd1 == pd || Arrived(pd, pd1, token, dest))
    requires qd == if d.None? then pd1.(zvols := pd1.zvols - {dest}) else pd1
    requires d.Some? ==> dest in pd1.zvols
    requires HoldsSnapshot(pd1, dest) && dest in pd1.zvols ==> d.Some?
    ensures Restored(pd, qd) <==> d.None?
    ensures dest in qd.zvols <==> d.Some?
    ensures Extends(pd, qd) && Tight(pd, qd, {})
  {
    assert d.None? ==> pd1 == pd && qd.zvols == pd.zvols;
  }

  /** After complete replication. */
  method Finish(src: Host, ghost p: Pool, k: ZvolName, dst: Host, ghost pd: Pool, token: Uuid, dest: ZvolName,
                ghost thick: bool) returns (r: Result<(), CopyError>)
    requires src != dst && Sending(src, p, k, token) && Expecting(dst, pd, token, dest) && !HasClone(src.pool, token)
    requires thick <==> p.zvols[k].props.refreservation > 0
    requires Replicated(pd, dst.pool, src.pool.snaps[token], token, dest, thick, dst.CopiesOf(dest.dataset))
    modifies src`pool, src`history, src`mishaps, dst`pool, dst`history, dst`mishaps
    ensures r.Ok? <==> src.mishaps == old(src.mishaps) && dst.mishaps == old(dst.mishaps)
    ensures old(src.mishaps) <= src.mishaps && old(dst.mishaps) <= dst.mishaps
    ensures src.Safe() && dst.Safe() && BothExtend(p, src.pool, pd, dst.pool)
    ensures r.Ok? ==> Restored(p, src.pool) && CopyOf(pd, dst.pool, p.zvols[k], dest, dst.CopiesOf(dest.dataset))
    ensures r.Err? ==> r.error == TransientsLeft(dest) && dest in dst.pool.zvols
  {
    hide Host.Safe, Valid, HasClone, CopyOf, BothExtend;
    ReceivedUnused(pd, dst.pool, token, dest);
    ghost var s, pd1 := src.pool.snaps[token], dst.pool;
    var ok := DropTransients(src, dst, token, dest);
    FinishTold(p, src.pool, k, pd, pd1, dst.pool, s, token, dest, thick, dst.CopiesOf(dest.dataset), ok);
    r := if ok then Ok(()) else Err(TransientsLeft(dest));
  }

  lemma FinishTold(p: Pool, q: Pool, k: ZvolName, pd: Pool, pd1: Pool, qd: Pool, s: Snap, token: Uuid, dest: ZvolName,
                   thick: bool, copies: nat, ok: bool)
    requires k in p.zvols && token !in p.snaps && dest !in pd.zvols && token !in pd.snaps
             && (thick <==> p.zvols[k].props.refreservation > 0)
    requires s.content == p.zvols[k].content && s.volsize == p.zvols[k].props.volsize
             && s.volblocksize == p.zvols[k].props.volblocksize
    requires Replicated(pd, pd1, s, token, dest, thick, copies)
    requires q.zvols == p.zvols && (q.snaps == p.snaps || (!ok && q.snaps == p.snaps[token := s]))
    requires (!ok && qd == pd1) || qd == pd1.(snaps := pd1.snaps - {token})
    ensures BothExtend(p, q, pd, qd) && dest in qd.zvols
    ensures ok ==> Restored(p, q) && CopyOf(pd, qd, p.zvols[k], dest, copies)
  {
    assert pd1.snaps - {token} == pd.snaps;
  }

  /** `q` is `p` plus the zvol `dest` with the bytes of `v`; no snapshot has come or gone. */
  ghost predicate CopyOf(p: Pool, q: Pool, v: Zvol, dest: ZvolName, copies: nat) {
    q.zvols == p.zvols[dest := Zvol(v.content, CopyProps(v, copies), None)] && q.snaps == p.snaps
  }

  /** Both pools are restored exactly if both cleanup steps worked; the destination survives exactly if
      destroying it failed. */
  ghost predicate CleanupTold(p: Pool, q: Pool, pd: Pool, qd: Pool, dest: ZvolName, d: Option<Errno>,
                              t: Option<Errno>) {
    && (Restored(p, q) && Restored(pd, qd) <==> d.None? && t.None?)
    && (dest in qd.zvols <==> d.Some?)
  }

  /** A snapshot name fresh on both pools, and a VDI uuid fresh on the destination. */
  method FreshForBoth(src: Host, dst: Host) returns (token: Uuid, uuid: Uuid)
    requires src != dst && src.Safe() && dst.Safe()
    modifies src`issued, dst`issued
    ensures src.Safe() && dst.Safe()
    ensures token !in src.pool.snaps && token !in dst.pool.snaps && NoRowUses(src, token) && NoRowUses(dst, token)
    ensures token in src.issued && token in dst.issued
    ensures forall z :: z in dst.pool.zvols ==> z.uuid != uuid
    ensures forall z: ZvolName :: z.uuid == uuid ==> dst.Nobodys(z)
  {
    hide Host.Safe, Valid, Host.Agrees;
    src.SafeNow();
    dst.SafeNow();
    SomeUnissued(src.issued + dst.issued);
    token :| token !in src.issued + dst.issued;
    src.Adopt(token);
    dst.Adopt(token);
    uuid := dst.FreshUuid();
  }

  /** `Volume.copy` to an SR on another pool. Success leaves no transient snapshot anywhere. After failed
      replication both pools are restored exactly if both cleanup steps worked. If a transient snapshot
      resists, the destination zvol always stays behind, unregistered. Whatever happens, neither pool
      loses anything it had. */
  method CopyAcross(src: Host, k: ZvolName, dst: Host, dstSr: Dataset) returns (r: Result<ZvolName, CopyError>)
    requires src != dst && src.Safe() && dst.Safe()
    modifies src`pool, src`rows, src`history, src`mishaps, src`issued
    modifies dst`pool, dst`rows, dst`history, dst`mishaps, dst`issued, dst`promises
    ensures k in old(src.rows) && k in old(src.pool.zvols) && r.Err? ==>
              src.mishaps != old(src.mishaps) || dst.mishaps != old(dst.mishaps)
    ensures r.Ok? ==> src.mishaps == old(src.mishaps) && dst.mishaps == old(dst.mishaps)
    ensures old(src.mishaps) <= src.mishaps && old(dst.mishaps) <= dst.mishaps
    ensures src.Safe() && dst.Safe() && BothExtend(old(src.pool), src.pool, old(dst.pool), dst.pool)
    ensures AtLeast(dst.promises, old(dst.promises).(sized := old(dst.promises).sized && old(CopySized(src.Now(), k))))
    ensures r.Ok? ==>
              && k in old(src.rows) && k in old(src.pool.zvols)
              && Restored(old(src.pool), src.pool) && src.rows == Recovered(old(src.Now()), k)
              && r.value !in old(dst.pool.zvols) && r.value !in old(dst.rows) && r.value.dataset == dstSr
              && dst.rows == old(dst.rows)[r.value := Row(false, KnownSize(old(src.Now()), k), None)]
              && CopyOf(old(dst.pool), dst.pool, old(src.pool.zvols[k]), r.value, dst.CopiesOf(dstSr))
    ensures r.Err? && r.error.ReplicationFailed? ==> r.error.refusal in {None, Some(EBUSY)}
    ensures r.Err? && r.error.ReplicationFailed? ==>
              CleanupTold(old(src.pool), src.pool, old(dst.pool), dst.pool, r.error.zvol, r.error.dest, r.error.token)
    ensures r.Err? && r.error.TransientsLeft? ==> r.error.zvol in dst.pool.zvols && r.error.zvol !in dst.rows
    ensures r.Err? ==> dst.rows == old(dst.rows)
    ensures r.Err? && r.error.NotStarted? ==> src.pool == old(src.pool) && dst.pool == old(dst.pool)
    ensures k !in old(src.rows) || k !in old(src.pool.zvols) ==> r.Err? && r.error.NotStarted?
    ensures r.Err? && r.error.NotStarted? && k in old(src.rows) && k in old(src.pool.zvols) ==>
              r.error.cause in {ZfsFailed(EBUSY), CommitFailed}
    ensures RowsUpToSize(old(src.rows), src.rows, k)
  {
    hide Host.Safe, Valid, Host.Agrees, Host.UuidsIssued, Host.DoomedGone, CleanupTold, BothExtend, CopyOf, Restored;
    src.SafeNow();
    dst.SafeNow();
    NothingYet(src.pool, dst.pool);
    var token, uuid := FreshForBoth(src, dst);
    var dest := ZvolName(dstSr, uuid);
    var size := TakeTransient(src, k, token);
    if size.Err? {
      return Err(NotStarted(size.error));
    }
    var done := Transfer(src, old(src.pool), k, dst, token, dest);
    if done.Err? {
      return Err(done.error);
    }
    r := RegisterCopy(old(src.Now()), k, dst, old(dst.pool), dest, size.value);
  }

  /** Phase 4. */
  method RegisterCopy(ghost d: Disk, k: ZvolName, dst: Host, ghost pd: Pool, dest: ZvolName, size: nat)
    returns (r: Result<ZvolName, CopyError>)
    requires dst.Safe() && k in d.pool.zvols && CopyOf(pd, dst.pool, d.pool.zvols[k], dest, dst.CopiesOf(dest.dataset))
    requires dst.Nobodys(dest) && KnownSize(d, k) == Some(size)
    modifies dst`rows, dst`history, dst`mishaps, dst`promises
    ensures dst.mishaps == old(dst.mishaps) + if r.Ok? then [] else [CommitLost]
    ensures dst.Safe()
    ensures AtLeast(dst.promises, old(dst.promises).(sized := old(dst.promises).sized && CopySized(d, k)))
    ensures r == Ok(dest) || r == Err(NotRegistered(dest))
    ensures dst.rows == if r.Ok? then old(dst.rows)[dest := Row(false, Some(size), None)] else old(dst.rows)
  {
    hide Host.Safe, Host.Agrees;
    dst.SafeNow();
    var ok := dst.Register(dst.rows, dest, Row(false, Some(size), None));
    r := if ok then Ok(dest) else Err(NotRegistered(dest));
  }

  lemma NothingYet(p: Pool, pd: Pool)
    ensures BothExtend(p, p, pd, pd)
  {
  }

  // ----- the same pool -----

  /** `Volume.copy` to an SR on the same pool: a clone of the transient snapshot, which stays as the
      backing of both. Whatever SR it is, every state a crash can leave is as sound as before; a clone in
      another SR only ends the promise that clones stay in the SR of their origin. */
  method CopyWithin(h: Host, k: ZvolName, dstSr: Dataset) returns (r: Result<ZvolName, CopyError>)
    requires h.Safe()
    modifies h`pool, h`rows, h`history, h`mishaps, h`issued, h`promises
    ensures k in old(h.rows) && k in old(h.pool.zvols) && r.Err? ==> h.mishaps != old(h.mishaps)
    ensures old(h.mishaps) <= h.mishaps && (r.Ok? ==> h.mishaps == old(h.mishaps))
    ensures h.Safe() && Extends(old(h.pool), h.pool) && Tight(old(h.pool), h.pool, {})
    ensures AtLeast(h.promises, Promises(old(h.promises).oneSr && dstSr == k.dataset, old(h.promises).inSr,
                                         old(h.promises).sized && old(CopySized(h.Now(), k))))
    ensures r.Ok? ==> CopiedWithin(old(h.Now()), k, dstSr, r.value, h.CopiesOf(dstSr), h.Now())
    ensures r.Err? ==> !r.error.TransientsLeft? && (r.error.ReplicationFailed? ==> r.error.refusal == Some(EBUSY))
    ensures r.Err? && r.error.ReplicationFailed? ==>
              && (Restored(old(h.pool), h.pool) <==> r.error.dest.None? && r.error.token.None?)
              && (r.error.dest.Some? ==> r.error.token.Some?)
    ensures r.Err? && r.error.NotStarted? && k in old(h.rows) && k in old(h.pool.zvols) ==>
              r.error.cause in {ZfsFailed(EBUSY), CommitFailed}
    ensures r.Err? ==> RowsUpToSize(old(h.rows), h.rows, k)
  {
    hide Host.Safe, Valid, Host.Agrees, Host.DoomedGone, Host.RowFine, Host.RowsDistinct, Extends, Tight, Restored,
        ForkedOff;
    h.SafeNow();
    h.NothingNew(h.pool);
    var token := h.FreshUuid();
    var uuid := h.FreshUuid();
    var dest := ZvolName(dstSr, uuid);
    var size := TakeTransient(h, k, token);
    if size.Err? {
      return Err(NotStarted(size.error));
    }
    h.Concede(h.promises.(oneSr := h.promises.oneSr && dstSr == k.dataset));
    r := ForkAndRegister(h, old(h.Now()), k, token, dest, size.value);
  }

  /** From the transient snapshot on; `d` is what was there before it. */
  method ForkAndRegister(h: Host, ghost d: Disk, k: ZvolName, token: Uuid, dest: ZvolName, size: nat)
    returns (r: Result<ZvolName, CopyError>)
    requires h.Safe() && Valid(d.pool) && k in d.rows && k in d.pool.zvols
    requires TakeSnapshot(d.pool, k, token) == Ok(h.pool)
    requires dest !in d.pool.zvols && h.Nobodys(dest) && NoRowUses(h, token) && dest !in d.rows
    requires h.promises.oneSr ==> dest.dataset == k.dataset
    requires KnownSize(d, k) == Some(size) && h.rows == Recovered(d, k)
    modifies h`pool, h`rows, h`history, h`mishaps, h`promises
    ensures h.Safe() && Extends(d.pool, h.pool) && Tight(d.pool, h.pool, {})
    ensures AtLeast(h.promises, old(h.promises).(sized := old(h.promises).sized && CopySized(d, k)))
    ensures r.Ok? ==> r.value == dest && CopiedWithin(d, k, dest.dataset, dest, h.CopiesOf(dest.dataset), h.Now())
    ensures r.Err? ==> h.rows == old(h.rows) && (r.error.ReplicationFailed? || r.error.NotRegistered?)
    ensures r.Err? && r.error.ReplicationFailed? ==>
              && r.error.refusal == Some(EBUSY)
              && (Restored(d.pool, h.pool) <==> r.error.dest.None? && r.error.token.None?)
              && (r.error.dest.Some? ==> r.error.token.Some?)
    ensures old(h.mishaps) <= h.mishaps && (r.Ok? <==> h.mishaps == old(h.mishaps))
  {
    hide Host.Safe, Valid, Host.Agrees, Host.DoomedGone, Host.RowFine, Host.RowsDistinct, Extends, Tight, Restored,
        ForkedOff;
    var failed := ForkTransient(h, d.pool, k, token, dest);
    if failed.Some? {
      return Err(failed.value);
    }
    r := RegisterFork(h, d, k, dest, size);
  }

  method RegisterFork(h: Host, ghost d: Disk, k: ZvolName, dest: ZvolName, size: nat)
    returns (r: Result<ZvolName, CopyError>)
    requires h.Safe() && k in d.rows && k in d.pool.zvols
    requires ForkedOff(d.pool, h.pool, k, dest, h.CopiesOf(dest.dataset))
    requires h.Nobodys(dest) && KnownSize(d, k) == Some(size) && h.rows == Recovered(d, k)
    modifies h`rows, h`history, h`mishaps, h`promises
    ensures h.mishaps == old(h.mishaps) + if r.Ok? then [] else [CommitLost]
    ensures h.Safe()
    ensures AtLeast(h.promises, old(h.promises).(sized := old(h.promises).sized && CopySized(d, k)))
    ensures r == Ok(dest) || r == Err(NotRegistered(dest))
    ensures h.rows == if r.Ok? then old(h.rows)[dest := Row(false, Some(size), None)] else old(h.rows)
  {
    hide Host.Safe, Host.Agrees;
    h.SafeNow();
    var ok := h.Register(h.rows, dest, Row(false, Some(size), None));
    r := if ok then Ok(dest) else Err(NotRegistered(dest));
  }

  /** What a failed copy leaves behind, it has tried to remove: the clone and with it its snapshot, or the
      snapshot alone, stay only where ZFS was busy. */
  predicate CleanupHindered(error: CopyError, token: Uuid, was: seq<Mishap>, now: seq<Mishap>)
    requires error.ReplicationFailed?
  {
    && (error.dest.Some? ==> WasBusy(was, now, PDestroyZvol(error.zvol)))
    && (error.dest.None? && error.token.Some? ==> WasBusy(was, now, PDestroySnapshot(token)))
  }

  method ForkTransient(h: Host, ghost p: Pool, k: ZvolName, token: Uuid, dest: ZvolName)
    returns (failed: Option<CopyError>)
    requires h.Safe() && Valid(p) && k in p.zvols && TakeSnapshot(p, k, token) == Ok(h.pool)
    requires dest !in p.zvols && h.Nobodys(dest)
    requires h.promises.oneSr ==> dest.dataset == k.dataset
    requires NoRowUses(h, token)
    modifies h`pool, h`history, h`mishaps
    ensures old(h.mishaps) <= h.mishaps && (failed.None? <==> h.mishaps == old(h.mishaps))
    ensures h.Safe() && Extends(p, h.pool) && Tight(p, h.pool, {})
    ensures failed.None? ==> ForkedOff(p, h.pool, k, dest, h.CopiesOf(dest.dataset))
    ensures failed.Some? ==> failed.value.ReplicationFailed? && failed.value.refusal == Some(EBUSY)
    ensures failed.Some? ==> (Restored(p, h.pool) <==> failed.value.dest.None? && failed.value.token.None?)
    ensures failed.Some? && failed.value.dest.Some? ==> failed.value.token.Some?
    ensures failed.Some? ==>
              failed.value.zvol == dest && CleanupHindered(failed.value, token, old(h.mishaps), h.mishaps)
  {
    hide Valid, Host.Safe, HasClone;
    h.SafeNow();
    TokenUnused(p, h.pool, k, token);
    ghost var p1 := h.pool;
    var e := CloneTransient(h, k, token, dest);
    if e.None? {
      return None;
    }
    var d, t := UnforkTransient(h, p1, token, dest);
    failed := Some(ReplicationFailed(dest, e, d, t));
    assert t.None? ==> h.pool.snaps == p.snaps;
  }

  /** A new clone of the transient snapshot, thin or with a fitting reservation. */
  ghost predicate ForkThere(p1: Pool, q: Pool, token: Uuid, dest: ZvolName) {
    IsClone(q, dest, token) && q.zvols == p1.zvols[dest := q.zvols[dest]] && ThickOk(q.zvols[dest].props)
  }

  method CloneTransient(h: Host, k: ZvolName, token: Uuid, dest: ZvolName) returns (e: Option<Errno>)
    requires h.Safe() && k in h.pool.zvols && token in h.pool.snaps && dest !in h.pool.zvols && h.Nobodys(dest)
    requires h.promises.oneSr ==> h.pool.snaps[token].holder.dataset == dest.dataset
    modifies h`pool, h`history, h`mishaps
    ensures Told(e, old(h.mishaps), h.mishaps)
    ensures h.Safe() && h.pool.snaps == old(h.pool).snaps && (e.None? || e == Some(EBUSY))
    ensures e.None? || dest in h.pool.zvols ==> ForkThere(old(h.pool), h.pool, token, dest)
    ensures e.None? ==>
              var s, copies := h.pool.snaps[token], h.CopiesOf(dest.dataset);
              && h.pool.zvols[dest].content == s.content
              && h.pool.zvols[dest].props ==
                   Props(s.volsize, s.volblocksize, copies,
                         if old(h.pool).zvols[k].props.refreservation > 0 then Reservation(s.volsize, copies) else 0,
                         false)
    ensures dest !in h.pool.zvols ==> h.pool == old(h.pool)
  {
    hide Host.Safe;
    var thick := h.pool.zvols[k].props.refreservation > 0;
    e := h.CloneZvol(token, dest);
    if e.None? && thick {
      e := MakeThick(h, dest);
      assert h.pool.zvols == old(h.pool).zvols[dest := h.pool.zvols[dest]];
    }
  }

  /** Cleanup after a failed same-pool copy. A destination that stays keeps the transient snapshot too. */
  method UnforkTransient(h: Host, ghost p1: Pool, token: Uuid, dest: ZvolName)
    returns (d: Option<Errno>, t: Option<Errno>)
    requires h.Safe() && dest !in h.rows && NoRowUses(h, token)
    requires token in p1.snaps && !HasClone(p1, token) && dest !in p1.zvols && Valid(p1)
    requires h.pool.snaps == p1.snaps
    requires h.pool == p1 || ForkThere(p1, h.pool, token, dest)
    modifies h`pool, h`history, h`mishaps
    ensures old(h.mishaps) <= h.mishaps
    ensures h.Safe()
    ensures if d.None? then h.pool.zvols == p1.zvols else h.pool.zvols == old(h.pool.zvols) && dest in h.pool.zvols
    ensures h.pool.snaps == if t.None? then p1.snaps - {token} else p1.snaps
    ensures d.Some? ==> t.Some?
    ensures d.Some? ==> WasBusy(old(h.mishaps), h.mishaps, PDestroyZvol(dest))
    ensures d.None? && t.Some? ==> WasBusy(old(h.mishaps), h.mishaps, PDestroySnapshot(token))
  {
    hide Host.Safe, Valid;
    d := None;
    HoldsNothing(p1, h.pool, dest);
    if dest in h.pool.zvols {
      d := h.RemoveZvol(dest);
    }
    assert d.None? ==> h.pool.zvols == p1.zvols;
    assert d.Some? ==> HasClone(h.pool, token);
    t := h.RemoveSnapshot(token);
  }

  lemma HoldsNothing(p: Pool, q: Pool, z: ZvolName)
    requires Valid(p) && z !in p.zvols && q.snaps == p.snaps
    ensures !HoldsSnapshot(q, z)
  {
  }

  lemma TokenUnused(p: Pool, q: Pool, k: ZvolName, token: Uuid)
    requires Valid(p) && TakeSnapshot(p, k, token) == Ok(q)
    ensures !HasClone(q, token)
  {
    forall z | z in q.zvols ensures q.zvols[z].origin != Some(token) {
      assert p.zvols[z].origin.Some? ==> OriginOlder(p, z);
    }
  }

  lemma ReceivedUnused(p: Pool, q: Pool, token: Uuid, dest: ZvolName)
    requires Valid(p) && token !in p.snaps && Arrived(p, q, token, dest)
    ensures !HasClone(q, token)
  {
    forall z | z in q.zvols ensures q.zvols[z].origin != Some(token) {
      assert z != dest && p.zvols[z].origin.Some? ==> OriginOlder(p, z);
    }
  }
}
