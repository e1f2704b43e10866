/** The promotion loop at the heart of `Volume.destroy`: one dependent per snapshot, promoted in
    creation order, so that the zvol ends up holding nothing and can be destroyed. */
module Promotion {
  import opened Wrappers
  import opened ZfsPool

  /** `zfs list -t snapshot <z>`: exactly the snapshots `z` holds, oldest first. */
  ghost predicate Listing(p: Pool, z: ZvolName, snaps: seq<Uuid>) {
    && (forall s :: s in snaps <==> s in p.snaps && p.snaps[s].holder == z)
    && OldestFirst(p, snaps)
  }

  ghost predicate OldestFirst(p: Pool, snaps: seq<Uuid>)
    requires forall s :: s in snaps ==> s in p.snaps
  {
    forall i, j :: 0 <= i < j < |snaps| ==> p.snaps[snaps[i]].txg < p.snaps[snaps[j]].txg
  }

  /** One clone chosen for every listed snapshot. */
  ghost predicate Dependents(p: Pool, snaps: seq<Uuid>, deps: seq<ZvolName>) {
    && |deps| == |snaps|
    && (forall i :: 0 <= i < |deps| ==> IsClone(p, deps[i], snaps[i]))
  }

  /** The dependents promoted one after the other; the first refusal ends it. */
  function PromoteAll(p: Pool, deps: seq<ZvolName>): Result<Pool, Errno>
    decreases deps
  {
    if deps == [] then Ok(p)
    else
      match Promote(p, deps[0])
      case Err(e) => Err(e)
      case Ok(q) => PromoteAll(q, deps[1..])
  }

  /** Nothing but origins and holders differs. */
  ghost predicate SameData(p: Pool, q: Pool) {
    && q.zvols.Keys == p.zvols.Keys && q.snaps.Keys == p.snaps.Keys && q.txg == p.txg
    && (forall z :: z in p.zvols ==> q.zvols[z].content == p.zvols[z].content && q.zvols[z].props == p.zvols[z].props)
    && (forall s :: s in p.snaps ==> SameSnapshot(p.snaps[s], q.snaps[s]))
  }

  lemma SameDataTransitive(p: Pool, q: Pool, r: Pool)
    requires SameData(p, q) && SameData(q, r)
    ensures SameData(p, r)
  {
    forall s | s in p.snaps ensures SameSnapshot(p.snaps[s], r.snaps[s]) {
      assert SameSnapshot(p.snaps[s], q.snaps[s]) && SameSnapshot(q.snaps[s], r.snaps[s]);
    }
  }

  lemma DependentsApart(p: Pool, v: ZvolName, snaps: seq<Uuid>, deps: seq<ZvolName>)
    requires Valid(p) && v in p.zvols && Listing(p, v, snaps) && Dependents(p, snaps, deps)
    ensures forall i, j :: 0 <= i < j < |deps| ==> deps[i] != deps[j] && snaps[i] != snaps[j]
    ensures forall i :: 0 <= i < |deps| ==> deps[i] != v
  {
    forall i, j | 0 <= i < j < |deps| ensures deps[i] != deps[j] && snaps[i] != snaps[j] {
      assert IsClone(p, deps[i], snaps[i]) && IsClone(p, deps[j], snaps[j]);
    }
    forall i | 0 <= i < |deps| ensures deps[i] != v {
      assert IsClone(p, deps[i], snaps[i]);
      assert OriginOlder(p, deps[i]);
      assert snaps[i] in snaps;
    }
  }

  /** The pool after the dependent of the oldest snapshot has been promoted. */
  ghost predicate OldestMoved(p: Pool, q: Pool, v: ZvolName, s: Uuid, d: ZvolName)
    requires v in p.zvols && d in p.zvols && s in p.snaps
  {
    q == p.(snaps := p.snaps[s := p.snaps[s].(holder := d)],
            zvols := p.zvols[d := p.zvols[d].(origin := p.zvols[v].origin)][v := p.zvols[v].(origin := Some(s))])
  }

  /** Promoting the dependent of the oldest snapshot is accepted and moves that one snapshot only. */
  lemma OldestMovesAlone(p: Pool, v: ZvolName, snaps: seq<Uuid>, d: ZvolName)
    requires Valid(p) && v in p.zvols && Listing(p, v, snaps) && snaps != []
    requires IsClone(p, d, snaps[0]) && d != v
    ensures snaps[0] in p.snaps && Promote(p, d).Ok? && Valid(Promote(p, d).value)
    ensures OldestMoved(p, Promote(p, d).value, v, snaps[0], d)
  {
    var s := snaps[0];
    assert s in snaps;
    PromoteAccepted(p, d);
    PromoteKeepsValid(p, d);
    forall t | t in p.snaps && p.snaps[t].holder == v && p.snaps[t].txg <= p.snaps[s].txg ensures t == s {
      assert t in snaps;
    }
    assert Promote(p, d).value.snaps == p.snaps[s := p.snaps[s].(holder := d)];
  }

  /** That leaves the zvol and the remaining dependents exactly as the next turn of the loop needs them. */
  lemma ReadyForNext(p: Pool, q: Pool, v: ZvolName, snaps: seq<Uuid>, deps: seq<ZvolName>)
    requires Valid(p) && v in p.zvols && Listing(p, v, snaps) && Dependents(p, snaps, deps) && snaps != []
    requires deps[0] in p.zvols && snaps[0] in p.snaps && OldestMoved(p, q, v, snaps[0], deps[0])
    ensures SameData(p, q) && Listing(q, v, snaps[1..]) && Dependents(q, snaps[1..], deps[1..])
  {
    hide Valid;
    DependentsApart(p, v, snaps, deps);
    assert snaps == [snaps[0]] + snaps[1..];
    assert snaps[0] in snaps;
    forall i | 0 <= i < |deps[1..]| ensures IsClone(q, deps[1..][i], snaps[1..][i]) {
      assert IsClone(p, deps[i + 1], snaps[i + 1]);
    }
  }

  /** Every listed snapshot is held by its dependent; all others stay where they were. */
  ghost predicate Settled(p: Pool, q: Pool, v: ZvolName, snaps: seq<Uuid>, deps: seq<ZvolName>)
    requires |deps| == |snaps|
  {
    && (forall j :: 0 <= j < |snaps| ==> snaps[j] in q.snaps && q.snaps[snaps[j]].holder == deps[j])
    && (forall s :: s in q.snaps && s in p.snaps && p.snaps[s].holder != v ==> q.snaps[s].holder == p.snaps[s].holder)
  }

  lemma SettledStep(p: Pool, q: Pool, r: Pool, v: ZvolName, snaps: seq<Uuid>, deps: seq<ZvolName>)
    requires |deps| == |snaps| > 0 && deps[0] != v && snaps[0] in p.snaps
    requires q.snaps == p.snaps[snaps[0] := p.snaps[snaps[0]].(holder := deps[0])]
    requires p.snaps[snaps[0]].holder == v
    requires r.snaps.Keys == q.snaps.Keys
    requires Settled(q, r, v, snaps[1..], deps[1..])
    ensures Settled(p, r, v, snaps, deps)
  {
    forall j | 0 <= j < |snaps| ensures snaps[j] in r.snaps && r.snaps[snaps[j]].holder == deps[j] {
      if j > 0 {
        assert snaps[1..][j - 1] == snaps[j] && deps[1..][j - 1] == deps[j];
      }
    }
  }

  /** The whole loop: every promotion is accepted, only origins and holders change, each snapshot ends
      up on the dependent chosen for it, and the zvol holds nothing any more. */
  lemma {:induction false} PromotionLoop(p: Pool, v: ZvolName, snaps: seq<Uuid>, deps: seq<ZvolName>)
    requires Valid(p) && v in p.zvols && Listing(p, v, snaps) && Dependents(p, snaps, deps)
    ensures PromoteAll(p, deps).Ok?
    ensures Valid(PromoteAll(p, deps).value) && SameData(p, PromoteAll(p, deps).value)
    ensures !HoldsSnapshot(PromoteAll(p, deps).value, v)
    ensures Settled(p, PromoteAll(p, deps).value, v, snaps, deps)
    decreases snaps
  {
    if snaps == [] {
      assert forall s :: s in p.snaps && p.snaps[s].holder == v ==> s in snaps;
    } else {
      DependentsApart(p, v, snaps, deps);
      assert IsClone(p, deps[0], snaps[0]) && snaps[0] in snaps;
      OldestMovesAlone(p, v, snaps, deps[0]);
      var q := Promote(p, deps[0]).value;
      ReadyForNext(p, q, v, snaps, deps);
      PromotionLoop(q, v, snaps[1..], deps[1..]);
      SameDataTransitive(p, q, PromoteAll(p, deps).value);
      SettledStep(p, q, PromoteAll(p, deps).value, v, snaps, deps);
    }
  }

  /** Destroying a VDI that is no snapshot: in any well-formed pool, with any number of snapshots and
      clones per snapshot and whichever clone is chosen, the final destruction is accepted, and every
      other zvol and every snapshot survives with its bytes. */
  lemma DestroyVolumeAccepted(p: Pool, v: ZvolName, snaps: seq<Uuid>, deps: seq<ZvolName>)
    requires Valid(p) && v in p.zvols && Listing(p, v, snaps) && Dependents(p, snaps, deps)
    ensures PromoteAll(p, deps).Ok?
    ensures DestroyZvol(PromoteAll(p, deps).value, v).Ok?
    ensures var r := DestroyZvol(PromoteAll(p, deps).value, v).value;
            && Valid(r) && r.zvols.Keys == p.zvols.Keys - {v} && r.snaps.Keys == p.snaps.Keys
            && (forall z :: z in r.zvols ==>
                r.zvols[z].content == p.zvols[z].content && r.zvols[z].props == p.zvols[z].props)
            && (forall s :: s in r.snaps ==> SameSnapshot(p.snaps[s], r.snaps[s]))
            && (forall j :: 0 <= j < |snaps| ==> snaps[j] in r.snaps && r.snaps[snaps[j]].holder == deps[j])
            && (forall s :: s in r.snaps && p.snaps[s].holder != v ==> r.snaps[s].holder == p.snaps[s].holder)
  {
    PromotionLoop(p, v, snaps, deps);
    DestroyZvolKeepsValid(PromoteAll(p, deps).value, v);
  }

  /** The promotion loop is needed: alone, ZFS accepts the destruction only of a zvol with no snapshots. */
  lemma DestroyAcceptedIffNoSnapshots(p: Pool, v: ZvolName, snaps: seq<Uuid>)
    requires v in p.zvols && Listing(p, v, snaps)
    ensures DestroyZvol(p, v).Ok? <==> snaps == []
  {
    if snaps != [] {
      assert snaps[0] in snaps;
    }
  }

  // ----- the loop seen one turn at a time -----

  lemma {:induction false} PromoteAllSnoc(p: Pool, deps: seq<ZvolName>, d: ZvolName)
    requires PromoteAll(p, deps).Ok?
    ensures PromoteAll(p, deps + [d]) == Promote(PromoteAll(p, deps).value, d)
    decreases deps
  {
    assert (deps + [d])[1..] == if deps == [] then [] else deps[1..] + [d];
    if deps != [] {
      PromoteAllSnoc(Promote(p, deps[0]).value, deps[1..], d);
    }
  }

  lemma PromoteKeepsData(p: Pool, z: ZvolName)
    requires Promote(p, z).Ok?
    ensures SameData(p, Promote(p, z).value)
  {
  }

  /** Cut short anywhere, the loop has lost nothing. */
  lemma {:induction false} PromoteAllKeepsData(p: Pool, deps: seq<ZvolName>)
    requires PromoteAll(p, deps).Ok?
    ensures SameData(p, PromoteAll(p, deps).value)
    decreases deps
  {
    if deps != [] {
      var q := Promote(p, deps[0]).value;
      PromoteKeepsData(p, deps[0]);
      PromoteAllKeepsData(q, deps[1..]);
      SameDataTransitive(p, q, PromoteAll(q, deps[1..]).value);
    }
  }
}
