/** The pool as ZFS sees it, with snapshots known by their full names. As long as the part after `@` is
    always a new uuid, it identifies a snapshot on its own, also after promotion has renamed it; then the
    pool keyed by that part is the same pool. */
module SnapshotNames {
  import opened Wrappers
  import opened ZfsPool
  import Metabase

  datatype NamedZvol = NamedZvol(content: Content, props: Props, origin: Option<SnapName>)

  datatype NamedSnap = NamedSnap(txg: nat, content: Content, volsize: nat, volblocksize: nat)

  datatype NamedPool = NamedPool(zvols: map<ZvolName, NamedZvol>, snaps: map<SnapName, NamedSnap>, txg: nat)

  /** Writes and properties touch no name and are not listed. */
  datatype Command =
    | NCreate(z: ZvolName, props: Props)
    | NSnapshot(z: ZvolName, id: Uuid)
    | NClone(name: SnapName, z: ZvolName, copies: nat)
    | NPromote(z: ZvolName)
    | NDestroyZvol(z: ZvolName)
    | NDestroySnapshot(name: SnapName)
    | NReceive(z: ZvolName, id: Uuid, content: Content, props: Props)

  // ----- commands on names -----

  /** Only names of snapshots of `z` itself are in the way of `z@id`. */
  function TakeNamed(p: NamedPool, z: ZvolName, id: Uuid): Result<NamedPool, Errno> {
    if z !in p.zvols then Err(ENOENT)
    else if SnapName(z, id) in p.snaps then Err(EEXIST)
    else
      var v := p.zvols[z];
      Ok(p.(snaps := p.snaps[SnapName(z, id) := NamedSnap(p.txg, v.content, v.props.volsize, v.props.volblocksize)],
            txg := p.txg + 1))
  }

  function CloneNamed(p: NamedPool, name: SnapName, z: ZvolName, copies: nat): Result<NamedPool, Errno> {
    if name !in p.snaps then Err(ENOENT)
    else if z in p.zvols then Err(EEXIST)
    else
      var s := p.snaps[name];
      var v := NamedZvol(s.content, Props(s.volsize, s.volblocksize, copies, 0, false), Some(name));
      Ok(p.(zvols := p.zvols[z := v]))
  }

  /** Promoting `z`, a clone of a snapshot of `h` taken at `cut`, renames this snapshot. */
  predicate Renames(p: NamedPool, h: ZvolName, cut: nat, name: SnapName) {
    name in p.snaps && name.zvol == h && p.snaps[name].txg <= cut
  }

  function NewName(p: NamedPool, h: ZvolName, cut: nat, z: ZvolName, name: SnapName): SnapName {
    if Renames(p, h, cut, name) then SnapName(z, name.id) else name
  }

  function NewOrigin(p: NamedPool, h: ZvolName, cut: nat, z: ZvolName, y: ZvolName, o: SnapName): Option<SnapName>
    requires y in p.zvols && h in p.zvols
  {
    var origin := if y == z then p.zvols[h].origin else if y == h then Some(o) else p.zvols[y].origin;
    if origin.Some? then Some(NewName(p, h, cut, z, origin.value)) else None
  }

  predicate Clash(p: NamedPool, h: ZvolName, cut: nat, z: ZvolName) {
    exists name :: name in p.snaps && Renames(p, h, cut, name) && SnapName(z, name.id) in p.snaps
  }

  function RenamedOrigins(p: NamedPool, h: ZvolName, cut: nat, z: ZvolName, o: SnapName): map<ZvolName, NamedZvol>
    requires h in p.zvols
  {
    map y | y in p.zvols :: p.zvols[y].(origin := NewOrigin(p, h, cut, z, y, o))
  }

  function RenamedSnaps(p: NamedPool, h: ZvolName, cut: nat, z: ZvolName): (r: map<SnapName, NamedSnap>)
    requires !Clash(p, h, cut, z)
    ensures forall name :: name in r ==>
              exists x :: x in p.snaps && NewName(p, h, cut, z, x) == name && r[name] == p.snaps[x]
  {
    map name | name in p.snaps :: NewName(p, h, cut, z, name) := p.snaps[name]
  }

  /** `zfs promote` is also refused when a renamed snapshot would clash with one the clone has. */
  function PromoteNamed(p: NamedPool, z: ZvolName): Result<NamedPool, Errno> {
    if z !in p.zvols then Err(ENOENT)
    else if p.zvols[z].origin.None? then Err(EINVAL)
    else
      var o := p.zvols[z].origin.value;
      if o !in p.snaps || o.zvol !in p.zvols || o.zvol == z then Err(EINVAL)
      else
        var h, cut := o.zvol, p.snaps[o].txg;
        if Clash(p, h, cut, z) then Err(EEXIST)
        else Ok(p.(zvols := RenamedOrigins(p, h, cut, z, o), snaps := RenamedSnaps(p, h, cut, z)))
  }

  function ApplyNamed(p: NamedPool, c: Command): Result<NamedPool, Errno> {
    match c
    case NCreate(z, props) =>
      if z in p.zvols then Err(EEXIST) else Ok(p.(zvols := p.zvols[z := NamedZvol(Zeros(props.volsize), props, None)]))
    case NSnapshot(z, id) => TakeNamed(p, z, id)
    case NClone(name, z, copies) => CloneNamed(p, name, z, copies)
    case NPromote(z) => PromoteNamed(p, z)
    case NDestroyZvol(z) =>
      if z !in p.zvols then Err(ENOENT)
      else if exists name :: name in p.snaps && name.zvol == z then Err(EEXIST)
      else Ok(p.(zvols := p.zvols - {z}))
    case NDestroySnapshot(name) =>
      if name !in p.snaps then Err(ENOENT)
      else if exists z :: z in p.zvols && p.zvols[z].origin == Some(name) then Err(EEXIST)
      else Ok(p.(snaps := p.snaps - {name}))
    case NReceive(z, id, content, props) =>
      if z in p.zvols || SnapName(z, id) in p.snaps then Err(EEXIST)
      else if |content| != props.volsize then Err(EINVAL)
      else
        Ok(p.(zvols := p.zvols[z := NamedZvol(content, props, None)],
              snaps := p.snaps[SnapName(z, id) := NamedSnap(p.txg, content, props.volsize, props.volblocksize)],
              txg := p.txg + 1))
  }

  function AfterNamed(p: NamedPool, c: Command): NamedPool {
    match ApplyNamed(p, c)
    case Ok(q) => q
    case Err(_) => p
  }

  function RunNamed(p: NamedPool, cs: seq<Command>): NamedPool
    decreases cs
  {
    if cs == [] then p else RunNamed(AfterNamed(p, cs[0]), cs[1..])
  }

  // ----- the same pool, keyed by id -----

  /** The snapshot of that name goes by that id. */
  predicate Current(p: Pool, name: SnapName) {
    name.id in p.snaps && p.snaps[name.id].holder == name.zvol
  }

  function OriginName(p: Pool, origin: Option<Uuid>): Option<SnapName> {
    if origin.Some? && origin.value in p.snaps then Some(SnapName(p.snaps[origin.value].holder, origin.value)) else None
  }

  predicate SameZvol(v: NamedZvol, p: Pool, z: ZvolName)
    requires z in p.zvols
  {
    v == NamedZvol(p.zvols[z].content, p.zvols[z].props, OriginName(p, p.zvols[z].origin))
  }

  predicate SameSnap(a: NamedSnap, p: Pool, name: SnapName) {
    Current(p, name) && var b := p.snaps[name.id]; a == NamedSnap(b.txg, b.content, b.volsize, b.volblocksize)
  }

  ghost predicate SameZvols(zvols: map<ZvolName, NamedZvol>, p: Pool) {
    zvols.Keys == p.zvols.Keys && forall z :: z in zvols ==> SameZvol(zvols[z], p, z)
  }

  ghost predicate SameSnaps(snaps: map<SnapName, NamedSnap>, p: Pool) {
    && (forall name :: name in snaps ==> SameSnap(snaps[name], p, name))
    && (forall name :: Current(p, name) ==> name in snaps)
  }

  /** `n` is `p`, with every snapshot called by its full name. */
  ghost predicate Same(n: NamedPool, p: Pool) {
    n.txg == p.txg && SameZvols(n.zvols, p) && SameSnaps(n.snaps, p)
  }

  /** The command that does to the pool keyed by id what `c` does to the other. */
  function ById(p: Pool, c: Command): Option<Prim> {
    match c
    case NCreate(z, props) => Some(PCreate(z, props))
    case NSnapshot(z, id) => Some(PSnapshot(z, id))
    case NClone(name, z, copies) => if Current(p, name) then Some(PClone(name.id, z, copies)) else None
    case NPromote(z) => Some(PPromote(z))
    case NDestroyZvol(z) => Some(PDestroyZvol(z))
    case NDestroySnapshot(name) => if Current(p, name) then Some(PDestroySnapshot(name.id)) else None
    case NReceive(z, id, content, props) => Some(PReceive(z, id, content, props))
  }

  function AfterById(p: Pool, c: Command): Pool {
    match ById(p, c)
    case Some(prim) => After(p, prim)
    case None => p
  }

  function RunById(p: Pool, cs: seq<Command>): Pool
    decreases cs
  {
    if cs == [] then p else RunById(AfterById(p, cs[0]), cs[1..])
  }

  predicate NewId(c: Command, used: set<Uuid>) {
    (c.NSnapshot? || c.NReceive?) ==> c.id !in used
  }

  function MoreUsed(c: Command, used: set<Uuid>): set<Uuid> {
    if c.NSnapshot? || c.NReceive? then used + {c.id} else used
  }

  predicate NewIds(cs: seq<Command>, used: set<Uuid>)
    decreases cs
  {
    cs == [] || (NewId(cs[0], used) && NewIds(cs[1..], MoreUsed(cs[0], used)))
  }

  /** One command does the same to both pools, refusals included. */
  lemma StepSame(n: NamedPool, p: Pool, c: Command, used: set<Uuid>)
    requires Same(n, p) && Valid(p) && p.snaps.Keys <= used && NewId(c, used)
    ensures Same(AfterNamed(n, c), AfterById(p, c))
    ensures Valid(AfterById(p, c)) && AfterById(p, c).snaps.Keys <= MoreUsed(c, used)
  {
    hide Valid, Same, ApplyNamed, Apply;
    IdsUsed(p, c, used);
    if ById(p, c).Some? {
      StepKeepsValid(p, ById(p, c).value);
    }
    match c
    case NCreate(z, props) => CreateSame(n, p, z, props);
    case NSnapshot(z, id) => SnapshotSame(n, p, z, id);
    case NClone(name, z, copies) => CloneSame(n, p, name, z, copies);
    case NPromote(z) => PromoteSame(n, p, z);
    case NDestroyZvol(z) => DestroyZvolSame(n, p, z);
    case NDestroySnapshot(name) => DestroySnapshotSame(n, p, name);
    case NReceive(z, id, content, props) => ReceiveSame(n, p, z, id, content, props);
  }

  lemma IdsUsed(p: Pool, c: Command, used: set<Uuid>)
    requires p.snaps.Keys <= used
    ensures AfterById(p, c).snaps.Keys <= MoreUsed(c, used)
  {
  }

  lemma CreateSame(n: NamedPool, p: Pool, z: ZvolName, props: Props)
    requires Same(n, p)
    ensures Same(AfterNamed(n, NCreate(z, props)), After(p, PCreate(z, props)))
  {
  }

  lemma SnapshotSame(n: NamedPool, p: Pool, z: ZvolName, id: Uuid)
    requires Same(n, p) && Valid(p) && id !in p.snaps
    ensures Same(AfterNamed(n, NSnapshot(z, id)), After(p, PSnapshot(z, id)))
  {
    OriginsKnown(p);
    SameNames(n, p);
    hide Valid, SameZvols, SameSnaps;
    if z in p.zvols {
      EachSame(n.zvols, p, z);
      var v := p.zvols[z];
      var q := After(p, PSnapshot(z, id));
      OneMoreSnap(n, p, SnapName(z, id), Snap(z, p.txg, v.content, v.props.volsize, v.props.volblocksize), q);
      OriginsStay(n.zvols, p, q, id);
    }
  }

  lemma ReceiveSame(n: NamedPool, p: Pool, z: ZvolName, id: Uuid, content: Content, props: Props)
    requires Same(n, p) && Valid(p) && id !in p.snaps
    ensures Same(AfterNamed(n, NReceive(z, id, content, props)), After(p, PReceive(z, id, content, props)))
  {
    OriginsKnown(p);
    SameNames(n, p);
    hide Valid, SameZvols, SameSnaps;
    if z !in p.zvols && |content| == props.volsize {
      var q := After(p, PReceive(z, id, content, props));
      OneMoreSnap(n, p, SnapName(z, id), Snap(z, p.txg, content, props.volsize, props.volblocksize), q);
      OriginsStay(n.zvols, p, q.(zvols := p.zvols), id);
      OneMoreZvol(n.zvols, q.(zvols := p.zvols), q, z, content, props);
    }
  }

  lemma EachSame(zvols: map<ZvolName, NamedZvol>, p: Pool, z: ZvolName)
    requires SameZvols(zvols, p) && z in p.zvols
    ensures z in zvols && SameZvol(zvols[z], p, z)
  {
  }

  lemma SameNames(n: NamedPool, p: Pool)
    requires Same(n, p)
    ensures n.zvols.Keys == p.zvols.Keys && forall name :: name in n.snaps <==> Current(p, name)
  {
  }

  lemma OneMoreZvol(zvols: map<ZvolName, NamedZvol>, p: Pool, q: Pool, z: ZvolName, content: Content, props: Props)
    requires SameZvols(zvols, p) && q == p.(zvols := p.zvols[z := Zvol(content, props, None)])
    ensures SameZvols(zvols[z := NamedZvol(content, props, None)], q)
  {
  }

  lemma OneMoreSnap(n: NamedPool, p: Pool, name: SnapName, s: Snap, q: Pool)
    requires Same(n, p) && name.id !in p.snaps && name.zvol == s.holder && q.snaps == p.snaps[name.id := s]
    ensures SameSnaps(n.snaps[name := NamedSnap(s.txg, s.content, s.volsize, s.volblocksize)], q)
  {
    hide SameZvols;
  }

  /** A snapshot under a new id is no origin yet. */
  lemma OriginsStay(zvols: map<ZvolName, NamedZvol>, p: Pool, q: Pool, id: Uuid)
    requires SameZvols(zvols, p) && q.zvols == p.zvols && id in q.snaps && q.snaps == p.snaps[id := q.snaps[id]]
    requires id !in p.snaps
             && forall y :: y in p.zvols && p.zvols[y].origin.Some? ==> p.zvols[y].origin.value in p.snaps
    ensures SameZvols(zvols, q)
  {
  }

  lemma OriginsKnown(p: Pool)
    requires Valid(p)
    ensures forall y :: y in p.zvols && p.zvols[y].origin.Some? ==> p.zvols[y].origin.value in p.snaps
  {
    forall y | y in p.zvols && p.zvols[y].origin.Some? ensures p.zvols[y].origin.value in p.snaps {
      assert OriginOlder(p, y);
    }
  }

  lemma CloneSame(n: NamedPool, p: Pool, name: SnapName, z: ZvolName, copies: nat)
    requires Same(n, p)
    ensures Same(AfterNamed(n, NClone(name, z, copies)), AfterById(p, NClone(name, z, copies)))
  {
  }

  lemma DestroyZvolSame(n: NamedPool, p: Pool, z: ZvolName)
    requires Same(n, p)
    ensures Same(AfterNamed(n, NDestroyZvol(z)), After(p, PDestroyZvol(z)))
  {
    if s :| s in p.snaps && p.snaps[s].holder == z {
      assert Current(p, SnapName(z, s)) && SnapName(z, s) in n.snaps;
    }
    assert HoldsSnapshot(p, z) <==> exists name :: name in n.snaps && name.zvol == z;
  }

  lemma DestroySnapshotSame(n: NamedPool, p: Pool, name: SnapName)
    requires Same(n, p)
    ensures Same(AfterNamed(n, NDestroySnapshot(name)), AfterById(p, NDestroySnapshot(name)))
  {
    if Current(p, name) {
      assert forall z :: z in n.zvols ==> SameZvol(n.zvols[z], p, z);
      assert HasClone(p, name.id) <==> exists z :: z in n.zvols && n.zvols[z].origin == Some(name);
    }
  }

  lemma PromoteSame(n: NamedPool, p: Pool, z: ZvolName)
    requires Same(n, p) && Valid(p)
    ensures Same(AfterNamed(n, NPromote(z)), After(p, PPromote(z)))
  {
    OriginsKnown(p);
    hide Valid, Same, PromoteNamed;
    if Promote(p, z).Ok? {
      var o := p.zvols[z].origin.value;
      PromotedSame(n, p, z, p.snaps[o].holder, o);
    } else {
      NeitherPromoted(n, p, z);
    }
  }

  lemma NeitherPromoted(n: NamedPool, p: Pool, z: ZvolName)
    requires Same(n, p) && Valid(p) && Promote(p, z).Err?
    ensures PromoteNamed(n, z).Err?
  {
    PromoteAccepted(p, z);
    hide Valid, SameSnaps, Promote;
    if z in n.zvols {
      EachSame(n.zvols, p, z);
    }
  }

  /** Every snapshot the promotion takes from `h` gets a new name, and no name clashes. */
  lemma Renaming(n: NamedPool, p: Pool, z: ZvolName, h: ZvolName, o: Uuid)
    requires Same(n, p) && Promote(p, z).Ok? && p.zvols[z].origin == Some(o) && o in p.snaps && p.snaps[o].holder == h
    ensures forall name :: Renames(n, h, p.snaps[o].txg, name) <==>
              Current(p, name) && name.zvol == h && p.snaps[name.id].txg <= p.snaps[o].txg
    ensures !Clash(n, h, p.snaps[o].txg, z) && Renamed(n, p, Promote(p, z).value, z, h, p.snaps[o].txg)
  {
    var q := Promote(p, z).value;
    forall s | s in p.snaps
      ensures NewName(n, h, p.snaps[o].txg, z, SnapName(p.snaps[s].holder, s)) == SnapName(q.snaps[s].holder, s)
    {
      assert Current(p, SnapName(p.snaps[s].holder, s));
    }
  }

  /** Promotion that takes the snapshots of `h` up to `cut` has this effect on snapshots and holders. */
  ghost predicate Renamed(n: NamedPool, p: Pool, q: Pool, z: ZvolName, h: ZvolName, cut: nat) {
    && q.snaps.Keys == p.snaps.Keys
    && (forall s :: s in p.snaps ==>
        NewName(n, h, cut, z, SnapName(p.snaps[s].holder, s)) == SnapName(q.snaps[s].holder, s))
    && (forall s :: s in p.snaps ==> SameSnapshot(p.snaps[s], q.snaps[s]))
  }

  lemma PromotedSame(n: NamedPool, p: Pool, z: ZvolName, h: ZvolName, o: Uuid)
    requires Same(n, p) && Promote(p, z).Ok? && p.zvols[z].origin == Some(o) && o in p.snaps && p.snaps[o].holder == h
             && h in p.zvols && h != z
    requires forall y :: y in p.zvols && p.zvols[y].origin.Some? ==> p.zvols[y].origin.value in p.snaps
    ensures PromoteNamed(n, z).Ok? && Same(PromoteNamed(n, z).value, Promote(p, z).value)
  {
    hide PromoteNamed, Renamed, Clash, RenamedOrigins, RenamedSnaps, SameZvols, SameSnaps;
    Renaming(n, p, z, h, o);
    NamedAccepted(n, p, z, h, o);
    ZvolsRenamed(n, p, z, h, o);
    SnapshotsRenamed(n, p, Promote(p, z).value, z, h, p.snaps[o].txg);
  }

  lemma NamedAccepted(n: NamedPool, p: Pool, z: ZvolName, h: ZvolName, o: Uuid)
    requires Same(n, p) && z in p.zvols && p.zvols[z].origin == Some(o) && o in p.snaps && p.snaps[o].holder == h
             && h in p.zvols && h != z
    requires !Clash(n, h, p.snaps[o].txg, z)
    ensures PromoteNamed(n, z) ==
              Ok(n.(zvols := RenamedOrigins(n, h, p.snaps[o].txg, z, SnapName(h, o)),
                    snaps := RenamedSnaps(n, h, p.snaps[o].txg, z)))
  {
    assert SameZvol(n.zvols[z], p, z) && Current(p, SnapName(h, o));
    hide Clash, RenamedOrigins, RenamedSnaps;
  }

  lemma ZvolsRenamed(n: NamedPool, p: Pool, z: ZvolName, h: ZvolName, o: Uuid)
    requires Same(n, p) && Promote(p, z).Ok? && p.zvols[z].origin == Some(o) && o in p.snaps && p.snaps[o].holder == h
             && h in p.zvols && h != z
    requires forall y :: y in p.zvols && p.zvols[y].origin.Some? ==> p.zvols[y].origin.value in p.snaps
    requires Renamed(n, p, Promote(p, z).value, z, h, p.snaps[o].txg)
    ensures SameZvols(RenamedOrigins(n, h, p.snaps[o].txg, z, SnapName(h, o)), Promote(p, z).value)
  {
    hide Renamed;
    var q, cut := Promote(p, z).value, p.snaps[o].txg;
    var zvols := RenamedOrigins(n, h, cut, z, SnapName(h, o));
    forall y | y in zvols ensures SameZvol(zvols[y], q, y) {
      assert zvols[y] == n.zvols[y].(origin := NewOrigin(n, h, cut, z, y, SnapName(h, o)))
             && SameZvol(n.zvols[y], p, y);
      OriginsRenamed(n, p, q, z, h, o, y);
    }
  }

  lemma OriginsRenamed(n: NamedPool, p: Pool, q: Pool, z: ZvolName, h: ZvolName, o: Uuid, y: ZvolName)
    requires Same(n, p) && o in p.snaps && p.snaps[o].holder == h && h in p.zvols && y in p.zvols && y in q.zvols
    requires Renamed(n, p, q, z, h, p.snaps[o].txg)
    requires forall y :: y in p.zvols && p.zvols[y].origin.Some? ==> p.zvols[y].origin.value in p.snaps
    requires q.zvols[y].origin == if y == z then p.zvols[h].origin else if y == h then Some(o) else p.zvols[y].origin
    ensures OriginName(q, q.zvols[y].origin) == NewOrigin(n, h, p.snaps[o].txg, z, y, SnapName(h, o))
  {
    hide NewName;
    assert SameZvol(n.zvols[y], p, y) && SameZvol(n.zvols[h], p, h);
  }

  lemma SnapshotsRenamed(n: NamedPool, p: Pool, q: Pool, z: ZvolName, h: ZvolName, cut: nat)
    requires Same(n, p) && !Clash(n, h, cut, z) && Renamed(n, p, q, z, h, cut)
    ensures SameSnaps(RenamedSnaps(n, h, cut, z), q)
  {
    hide NewName, Clash, Same, Renamed, Current, SameSnap;
    var snaps := RenamedSnaps(n, h, cut, z);
    forall name | name in snaps ensures SameSnap(snaps[name], q, name) {
      var x :| x in n.snaps && NewName(n, h, cut, z, x) == name && snaps[name] == n.snaps[x];
      StillThere(n, p, q, z, h, cut, x);
    }
    forall name | Current(q, name) ensures name in snaps {
      OldName(n, p, q, z, h, cut, name);
    }
    assert SameSnaps(snaps, q);
  }

  lemma StillThere(n: NamedPool, p: Pool, q: Pool, z: ZvolName, h: ZvolName, cut: nat, x: SnapName)
    requires Same(n, p) && Renamed(n, p, q, z, h, cut) && x in n.snaps
    ensures SameSnap(n.snaps[x], q, NewName(n, h, cut, z, x))
  {
    hide SameZvols, NewName;
    assert x == SnapName(p.snaps[x.id].holder, x.id);
  }

  lemma OldName(n: NamedPool, p: Pool, q: Pool, z: ZvolName, h: ZvolName, cut: nat, name: SnapName)
    requires Same(n, p) && Renamed(n, p, q, z, h, cut) && Current(q, name)
    ensures exists x :: x in n.snaps && NewName(n, h, cut, z, x) == name
  {
    hide SameZvols, NewName;
    var x := SnapName(p.snaps[name.id].holder, name.id);
    assert Current(p, x) && NewName(n, h, cut, z, x) == name;
  }

  /** Whatever runs, in any interleaving and cut off anywhere, promotion included: with a new uuid for
      each new snapshot, the pool is the one keyed by id, and no two of its snapshots, on whatever zvols,
      share the part after `@`. */
  lemma {:induction false} IdsStayUnique(n: NamedPool, p: Pool, cs: seq<Command>, used: set<Uuid>)
    requires Same(n, p) && Valid(p) && p.snaps.Keys <= used && NewIds(cs, used)
    ensures Same(RunNamed(n, cs), RunById(p, cs)) && Valid(RunById(p, cs))
    ensures forall a, b :: a in RunNamed(n, cs).snaps && b in RunNamed(n, cs).snaps && a.id == b.id ==> a == b
    decreases cs
  {
    if cs != [] {
      StepSame(n, p, cs[0], used);
      IdsStayUnique(AfterNamed(n, cs[0]), AfterById(p, cs[0]), cs[1..], MoreUsed(cs[0], used));
    }
  }

  /** Looking through all names below an SR for the uuid finds what looking up the id finds. */
  lemma FoundByUuid(n: NamedPool, p: Pool, cs: seq<Command>, used: set<Uuid>, sr: Dataset, id: Uuid, name: SnapName)
    requires Same(n, p) && Valid(p) && p.snaps.Keys <= used && NewIds(cs, used)
    ensures name in RunNamed(n, cs).snaps && name.zvol.dataset == sr && name.id == id
       <==> Metabase.FoundSnapshot(RunById(p, cs), sr, id) == Some(name)
  {
    IdsStayUnique(n, p, cs, used);
  }
}
