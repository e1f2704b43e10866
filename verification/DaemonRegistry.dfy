/** The registry of the qemu-storage-daemons the datapath plugin spawns: one metadata entry per device,
    swept lazily whenever a daemon is about to be used. */
module DaemonRegistry {
  import opened Wrappers

  type Pid = nat

  /** The hash of a device path is its key; distinct paths are taken to have distinct keys, so the
      device stands for both. */
  type Device = nat

  datatype Daemon = Daemon(pid: Pid, device: Device)

  /** What can be seen of the registry. */
  datatype Scene = Scene(meta: map<Device, Daemon>, alive: set<Pid>, devices: set<Device>, nextPid: Pid) {
    predicate Live(d: Device) {
      d in meta && meta[d].pid in alive
    }

    /** A live daemon whose device exists. */
    predicate InUse(d: Device) {
      Live(d) && d in devices
    }
  }

  datatype Op =
    | Attach(device: Device)
    | ImportActivate(device: Device)
    | Detach(device: Device)
    | Close(device: Device)
    | DaemonDies(pid: Pid)
    | DeviceAppears(device: Device)
    | DeviceVanishes(device: Device)

  class Registry {
    /** What goes wrong in the world: daemons that outlive `quit` and the kill, daemons that do not start,
        and daemons that start but are never saved. */
    const outlivesKill: Pid -> bool
    const startFails: Pid -> bool
    const saveFails: Pid -> bool
    var meta: map<Device, Daemon>
    /** Running daemons the driver spawned, registered or not. */
    var alive: set<Pid>
    var devices: set<Device>
    var nextPid: Pid
    ghost var servedBy: map<Pid, Device>
    /** Running daemons without an entry. */
    ghost var leaked: set<Pid>

    predicate Faulty(p: Pid) {
      outlivesKill(p) || saveFails(p)
    }

    ghost predicate Valid()
      reads this
    {
      && (forall d :: d in meta ==> EntryOk(meta[d], d))
      && (forall p :: p in servedBy ==> p < nextPid)
      && (forall p :: p in alive ==> p in servedBy && (p in leaked || Registered(p)))
      && (forall p :: p in leaked ==> Faulty(p))
    }

    ghost predicate EntryOk(e: Daemon, d: Device)
      reads this
    {
      e.device == d && e.pid in servedBy && servedBy[e.pid] == d
    }

    ghost predicate Registered(p: Pid)
      reads this
      requires p in servedBy
    {
      servedBy[p] in meta && meta[servedBy[p]].pid == p
    }

    function Now(): Scene
      reads this
    {
      Scene(meta, alive, devices, nextPid)
    }

    /** A live daemon whose device exists. */
    predicate InUse(d: Device)
      reads this
    {
      Now().InUse(d)
    }

    /** The next daemon to be started can be used. */
    predicate Spawns(p: Pid) {
      !startFails(p) && !saveFails(p)
    }

    /** Each device has at most one daemon running, leaked ones apart, and that one is registered. Only a
        daemon that outlives its kill or is not saved can leak. */
    lemma AtMostOneDaemon(p: Pid, q: Pid)
      requires Valid() && p in alive && q in alive && servedBy[p] == servedBy[q]
      requires (p !in leaked || !Faulty(p)) && (q !in leaked || !Faulty(q))
      ensures p == q && servedBy[p] in meta && meta[servedBy[p]] == Daemon(p, servedBy[p])
    {
      assert Registered(p) && Registered(q);
    }

    constructor (survivors: Pid -> bool, unstarted: Pid -> bool, unsaved: Pid -> bool)
      ensures Valid() && alive == {} && meta == map[] && leaked == {}
      ensures outlivesKill == survivors && startFails == unstarted && saveFails == unsaved
    {
      outlivesKill, startFails, saveFails := survivors, unstarted, unsaved;
      meta, alive, devices, nextPid, servedBy, leaked := map[], {}, {}, 0, map[], {};
    }

    // ----- processes and files -----

    /** `quit`, and the kill after it: the daemon of `d` stops unless it outlives both. Its entry goes. */
    method Reap(d: Device)
      requires Valid() && d in meta
      modifies `meta, `alive, `leaked
      ensures Valid() && meta == old(meta) - {d}
      ensures var pid := old(meta)[d].pid;
              alive == (if outlivesKill(pid) then old(alive) else old(alive) - {pid})
              && leaked == (if outlivesKill(pid) && pid in old(alive) then old(leaked) + {pid} else old(leaked))
    {
      var pid := meta[d].pid;
      if !outlivesKill(pid) {
        alive := alive - {pid};
      } else if pid in alive {
        leaked := leaked + {pid};
      }
      meta := meta - {d};
    }

    /** `create` and `save_metadata`. Either may fail, the second one with the daemon running. */
    method Spawn(d: Device) returns (r: Option<Daemon>)
      requires Valid() && d !in meta
      modifies `meta, `alive, `nextPid, `servedBy, `leaked
      ensures Valid() && old(alive) <= alive <= old(alive) + {old(nextPid)}
      ensures r.Some? ==>
                r.value == Daemon(old(nextPid), d) && r.value.pid in alive && meta == old(meta)[d := r.value]
                    && leaked == old(leaked)
      ensures r.None? ==> meta == old(meta) && leaked == old(leaked) + (alive - old(alive))
      ensures r.Some? <==> !startFails(old(nextPid)) && !saveFails(old(nextPid))
    {
      var pid := nextPid;
      nextPid := nextPid + 1;
      if startFails(pid) {
        return None;
      }
      servedBy := servedBy[pid := d];
      alive := alive + {pid};
      if saveFails(pid) {
        leaked := leaked + {pid};
        return None;
      }
      r := Some(Daemon(pid, d));
      meta := meta[d := r.value];
    }

    // ----- the sweep -----

    /** `_gc_orphan_daemons`: exactly the entries of other devices whose daemon is dead or whose device is
        gone are removed; no daemon in use, nor that of the current device, is touched. */
    method CollectOrphans(current: Device)
      requires Valid()
      modifies `meta, `alive, `leaked
      ensures Valid() && Swept(old(Now()), current, Now())
      ensures alive <= old(alive) && leaked <= old(leaked) + (set p | p in old(alive) && outlivesKill(p))
      ensures forall p :: p in old(alive) && p !in alive ==>
                exists d :: d in old(meta) && d !in meta && old(meta)[d].pid == p
    {
      hide Valid;
      var rest := meta.Keys;
      while rest != {}
        invariant Valid() && rest <= old(meta).Keys
        invariant forall d :: d in meta <==> d in old(meta) && (d in rest || d == current || old(InUse(d)))
        invariant forall d :: d in meta ==>
                    meta[d] == old(meta)[d] && (meta[d].pid in alive <==> old(meta[d].pid in alive))
        invariant alive <= old(alive) && leaked <= old(leaked) + (set p | p in old(alive) && outlivesKill(p))
        invariant forall p :: p in old(alive) && p !in alive ==>
                    exists d :: d in old(meta) && d !in meta && old(meta)[d].pid == p
        decreases rest
      {
        var d :| d in rest;
        rest := rest - {d};
        if d != current && !(meta[d].pid in alive && d in devices) {
          assert d in old(meta) && meta[d] == old(meta)[d];
          RemoveEntry(d);
        }
      }
    }

    /** Of a daemon that is not in use: what is left of it goes. */
    method RemoveEntry(d: Device)
      requires Valid() && d in meta && !InUse(d)
      modifies `meta, `alive, `leaked
      ensures Valid() && meta == old(meta) - {d}
      ensures alive == old(alive) || alive == old(alive) - {old(meta)[d].pid}
      ensures forall e :: e in meta ==> meta[e].pid != old(meta)[d].pid
      ensures leaked <= old(leaked) + (set p | p in old(alive) && outlivesKill(p))
    {
      OneEntryPerPid(d);
      if meta[d].pid !in alive {
        meta := meta - {d};
      } else {
        Reap(d);
      }
    }

    lemma OneEntryPerPid(d: Device)
      requires Valid() && d in meta
      ensures forall e :: e in meta && meta[e].pid == meta[d].pid ==> e == d
    {
      assert EntryOk(meta[d], d);
      forall e | e in meta && meta[e].pid == meta[d].pid ensures e == d {
        assert EntryOk(meta[e], e);
      }
    }

    // ----- the lifecycle -----

    /** `_ensure_qemu_daemon`: a live daemon of the device is reused, else a new one is spawned. */
    method EnsureDaemon(d: Device) returns (r: Option<Daemon>)
      requires Valid()
      modifies `meta, `alive, `nextPid, `servedBy, `leaked
      ensures Valid() && Ensured(old(Now()), d, Spawns(old(nextPid)), r, Now())
    {
      hide Valid, Ensured, Swept;
      ghost var s := Now();
      CollectOrphans(d);
      ghost var swept := Now();
      SweptMeans(s, d, swept);
      if d in meta && meta[d].pid in alive {
        KeptTold(s, d, swept, Spawns(nextPid));
        return Some(meta[d]);
      }
      if d in meta {
        Reap(d);
      }
      ghost var cleared := Now();
      r := Spawn(d);
      SpawnTold(s, d, swept, cleared, Spawns(s.nextPid), r, Now());
    }

    /** `Datapath.attach` of a device that exists. */
    method AttachDevice(d: Device) returns (r: Option<Daemon>)
      requires Valid()
      modifies `meta, `alive, `nextPid, `servedBy, `leaked
      ensures Valid() && Attached(old(Now()), d, Spawns(old(nextPid)), r, Now())
    {
      hide Valid;
      r := None;
      if d in devices {
        r := EnsureDaemon(d);
      }
    }

    /** `Datapath.import_activate`: like attach, but a dead daemon is cleared away before the sweep, and
        nothing at all happens if daemon and proxy are running. */
    method ImportActivateDevice(d: Device) returns (r: Option<Daemon>)
      requires Valid()
      modifies `meta, `alive, `nextPid, `servedBy, `leaked
      ensures Valid() && Activated(old(Now()), d, Spawns(old(nextPid)), r, Now())
    {
      r := None;
      if d !in devices {
        return;
      }
      if d in meta {
        if meta[d].pid in alive {
          var proxyRuns: bool := *;
          if proxyRuns {
            return Some(meta[d]);
          }
        } else {
          OneEntryPerPid(d);
          Reap(d);
        }
      }
      r := EnsureDaemon(d);
    }

    /** `Datapath.detach` and `Datapath.close`: the daemon of the device, if registered, goes. */
    method Release(d: Device)
      requires Valid()
      modifies `meta, `alive, `leaked
      ensures Valid() && Released(old(Now()), d, outlivesKill, Now())
      ensures forall p :: p in alive && !Faulty(p) ==> servedBy[p] != d
    {
      if d in meta {
        OneEntryPerPid(d);
        Reap(d);
      }
      forall p | p in alive && !Faulty(p) ensures servedBy[p] != d {
        assert Registered(p);
      }
    }
  }

  // ----- what the calls do -----

  /** No daemon in use by another device has been touched. */
  ghost predicate OthersStay(s: Scene, d: Device, t: Scene) {
    t.devices == s.devices && forall e :: e != d && s.InUse(e) ==> t.InUse(e) && t.meta[e] == s.meta[e]
  }

  /** Of the entries of other devices exactly those in use are left, and all that are left are as they were. */
  ghost predicate Swept(s: Scene, d: Device, t: Scene) {
    && t.devices == s.devices && t.nextPid == s.nextPid
    && (forall e :: e in t.meta <==> e in s.meta && (e == d || s.InUse(e)))
    && (forall e :: e in t.meta ==> t.meta[e] == s.meta[e] && (t.Live(e) <==> s.Live(e)))
  }

  lemma SweptMeans(s: Scene, d: Device, t: Scene)
    requires Swept(s, d, t)
    ensures t.nextPid == s.nextPid
  {
  }

  lemma KeptTold(s: Scene, d: Device, t: Scene, spawns: bool)
    requires Swept(s, d, t) && t.Live(d)
    ensures Ensured(s, d, spawns, Some(t.meta[d]), t)
  {
  }

  /** After the sweep a dead daemon of `d` has been cleared away and another one started. */
  lemma SpawnTold(s: Scene, d: Device, swept: Scene, cleared: Scene, spawns: bool, r: Option<Daemon>, t: Scene)
    requires Swept(s, d, swept) && !swept.Live(d) && cleared == swept.(meta := swept.meta - {d})
    requires t.devices == s.devices && cleared.alive <= t.alive && (r.Some? <==> spawns)
    requires if r.None? then t.meta == cleared.meta
             else r.value == Daemon(s.nextPid, d) && r.value.pid in t.alive && t.meta == cleared.meta[d := r.value]
    ensures Ensured(s, d, spawns, r, t)
  {
  }

  /** The live daemon of `d` has been kept, or a new one registered, which is possible exactly if it starts
      and can be saved. Of the other entries exactly those in use are left. */
  ghost predicate Ensured(s: Scene, d: Device, spawns: bool, r: Option<Daemon>, t: Scene) {
    && OthersStay(s, d, t) && (forall e :: e != d ==> (e in t.meta <==> s.InUse(e)))
    && (r.Some? <==> s.Live(d) || spawns)
    && (s.Live(d) ==> r == Some(s.meta[d]))
    && (!s.Live(d) && spawns ==> r == Some(Daemon(s.nextPid, d)))
    && (if r.Some? then t.Live(d) && t.meta[d] == r.value else d !in t.meta)
  }

  ghost predicate Attached(s: Scene, d: Device, spawns: bool, r: Option<Daemon>, t: Scene) {
    if d in s.devices then Ensured(s, d, spawns, r, t) else r.None? && t == s
  }

  ghost predicate Activated(s: Scene, d: Device, spawns: bool, r: Option<Daemon>, t: Scene) {
    if d !in s.devices then r.None? && t == s
    else (s.Live(d) && r == Some(s.meta[d]) && t == s) || Ensured(s, d, spawns, r, t)
  }

  ghost predicate Released(s: Scene, d: Device, outlivesKill: Pid -> bool, t: Scene) {
    && OthersStay(s, d, t) && t.nextPid == s.nextPid && t.meta == s.meta - {d}
    && t.alive == if d in s.meta && !outlivesKill(s.meta[d].pid) then s.alive - {s.meta[d].pid} else s.alive
  }

  /** The operation `op` leads from `s` to `t`, and returns `r`. */
  ghost predicate Served(reg: Registry, s: Scene, op: Op, r: Option<Daemon>, t: Scene) {
    match op
    case Attach(d) => Attached(s, d, reg.Spawns(s.nextPid), r, t)
    case ImportActivate(d) => Activated(s, d, reg.Spawns(s.nextPid), r, t)
    case Detach(d) => r.None? && Released(s, d, reg.outlivesKill, t)
    case Close(d) => r.None? && Released(s, d, reg.outlivesKill, t)
    case DaemonDies(p) => r.None? && t == s.(alive := s.alive - {p})
    case DeviceAppears(d) => r.None? && t == s.(devices := s.devices + {d})
    case DeviceVanishes(d) => r.None? && t == s.(devices := s.devices - {d})
  }

  /** `seen` are the scenes between the operations. */
  ghost predicate Session(reg: Registry, ops: seq<Op>, rs: seq<Option<Daemon>>, seen: seq<Scene>) {
    && |rs| == |ops| && |seen| == |ops| + 1
    && forall i :: 0 <= i < |ops| ==> Served(reg, seen[i], ops[i], rs[i], seen[i + 1])
  }

  /** Any run of lifecycle calls, with daemons dying and devices coming and going in between, told call by
      call. Of the daemons that heed a kill and could be saved, no device ever has two running, and each
      one running is registered. */
  method Serve(reg: Registry, ops: seq<Op>) returns (rs: seq<Option<Daemon>>, ghost seen: seq<Scene>)
    requires reg.Valid()
    modifies reg
    ensures reg.Valid() && Session(reg, ops, rs, seen) && seen[0] == old(reg.Now()) && seen[|ops|] == reg.Now()
    ensures forall p :: p in reg.alive && !reg.outlivesKill(p) && !reg.saveFails(p) ==>
              p in reg.servedBy && reg.servedBy[p] in reg.meta && reg.meta[reg.servedBy[p]].pid == p
    ensures OneEach(reg)
  {
    rs, seen := [], [reg.Now()];
    for i := 0 to |ops|
      invariant reg.Valid() && Session(reg, ops[..i], rs, seen) && seen[0] == old(reg.Now()) && seen[i] == reg.Now()
    {
      hide Registry.Valid, Served;
      var r := ServeOne(reg, ops[i]);
      assert ops[..i + 1] == ops[..i] + [ops[i]];
      SessionGoesOn(reg, ops[..i], rs, seen, ops[i], r, reg.Now());
      rs, seen := rs + [r], seen + [reg.Now()];
    }
    assert ops[..|ops|] == ops;
    forall p, q | p in reg.alive && q in reg.alive && !reg.Faulty(p) && !reg.Faulty(q)
        && reg.servedBy[p] == reg.servedBy[q]
      ensures p == q
    {
      reg.AtMostOneDaemon(p, q);
    }
  }

  ghost predicate OneEach(reg: Registry)
    requires reg.Valid()
    reads reg
  {
    forall p, q ::
      && p in reg.alive && !reg.outlivesKill(p) && !reg.saveFails(p)
      && q in reg.alive && !reg.outlivesKill(q) && !reg.saveFails(q) && reg.servedBy[p] == reg.servedBy[q]
      ==> p == q
  }

  lemma SessionGoesOn(reg: Registry, ops: seq<Op>, rs: seq<Option<Daemon>>, seen: seq<Scene>, op: Op, r: Option<Daemon>,
                      t: Scene)
    requires Session(reg, ops, rs, seen) && Served(reg, seen[|ops|], op, r, t)
    ensures Session(reg, ops + [op], rs + [r], seen + [t])
  {
    hide Served;
    var ops', rs', seen' := ops + [op], rs + [r], seen + [t];
    forall i | 0 <= i < |ops'| ensures Served(reg, seen'[i], ops'[i], rs'[i], seen'[i + 1]) {
      if i < |ops| {
        assert Served(reg, seen[i], ops[i], rs[i], seen[i + 1]) && seen'[i] == seen[i] && seen'[i + 1] == seen[i + 1];
      }
    }
  }

  /** Whenever a device that exists is attached: of the entries of other devices exactly those are left
      whose daemon is alive and whose device exists, with the daemon they had, still alive. The device
      itself gets the daemon it had, if that is alive, or else a new one, if that starts and can be
      saved; otherwise it is left without an entry. */
  lemma AttachMeans(reg: Registry, ops: seq<Op>, rs: seq<Option<Daemon>>, seen: seq<Scene>, i: nat, d: Device)
    requires Session(reg, ops, rs, seen) && i < |ops| && ops[i] == Attach(d) && d in seen[i].devices
    ensures var (s, t) := (seen[i], seen[i + 1]);
            && (forall e :: e != d ==>
                  (e in t.meta <==> e in s.meta && s.meta[e].pid in s.alive && e in s.devices))
            && (forall e :: e != d && e in t.meta ==> t.meta[e] == s.meta[e] && t.meta[e].pid in t.alive)
            && (d in s.meta && s.meta[d].pid in s.alive ==> rs[i] == Some(s.meta[d]))
            && (d !in s.meta || s.meta[d].pid !in s.alive ==>
                  rs[i] == if reg.startFails(s.nextPid) || reg.saveFails(s.nextPid) then None
                           else Some(Daemon(s.nextPid, d)))
            && (if rs[i].Some? then d in t.meta && t.meta[d] == rs[i].value && t.meta[d].pid in t.alive
                else d !in t.meta)
  {
    hide Attached;
    assert Served(reg, seen[i], ops[i], rs[i], seen[i + 1]);
    EnsuredByAttach(seen[i], d, reg.Spawns(seen[i].nextPid), rs[i], seen[i + 1]);
  }

  lemma EnsuredByAttach(s: Scene, d: Device, spawns: bool, r: Option<Daemon>, t: Scene)
    requires Attached(s, d, spawns, r, t) && d in s.devices
    ensures Ensured(s, d, spawns, r, t)
  {
  }

  /** Nothing is done to the daemon of `d`. */
  predicate Spares(op: Op, d: Device, pid: Pid) {
    op != Detach(d) && op != Close(d) && op != DeviceVanishes(d) && op != DaemonDies(pid)
  }

  /** A daemon in use stays the one daemon of its device, whatever is done to other devices, until it is
      released or dies or its device vanishes. */
  lemma {:induction false} StaysInUse(reg: Registry, ops: seq<Op>, rs: seq<Option<Daemon>>, seen: seq<Scene>, d: Device,
                                      i: nat, j: nat)
    requires Session(reg, ops, rs, seen) && i <= j <= |ops|
    requires d in seen[i].meta && seen[i].meta[d].pid in seen[i].alive && d in seen[i].devices
    requires forall k :: i <= k < j ==> Spares(ops[k], d, seen[i].meta[d].pid)
    ensures d in seen[j].meta && seen[j].meta[d].pid in seen[j].alive && d in seen[j].devices
    ensures seen[j].meta[d] == seen[i].meta[d]
    decreases j
  {
    if i < j {
      StaysInUse(reg, ops, rs, seen, d, i, j - 1);
      assert Served(reg, seen[j - 1], ops[j - 1], rs[j - 1], seen[j]) && Spares(ops[j - 1], d, seen[i].meta[d].pid);
    }
  }

  method ServeOne(reg: Registry, op: Op) returns (r: Option<Daemon>)
    requires reg.Valid()
    modifies reg
    ensures reg.Valid() && Served(reg, old(reg.Now()), op, r, reg.Now())
  {
    r := None;
    match op {
      case Attach(d) =>
        r := reg.AttachDevice(d);
      case ImportActivate(d) =>
        r := reg.ImportActivateDevice(d);
      case Detach(d) =>
        reg.Release(d);
      case Close(d) =>
        reg.Release(d);
      case DaemonDies(p) =>
        reg.alive := reg.alive - {p};
      case DeviceAppears(d) =>
        reg.devices := reg.devices + {d};
      case DeviceVanishes(d) =>
        reg.devices := reg.devices - {d};
    }
  }
}
