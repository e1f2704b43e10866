/** `SR.destroy`: the recursive destroy the driver walks itself, node by node in reverse listing order,
    and when it goes through. */
module RecursiveDestroy {
  import opened Wrappers
  import opened ZfsPool

  /** The SR's dataset, a zvol of the pool, or a snapshot of it. */
  datatype Node = Root | Vol(name: ZvolName) | Snapshot(id: Uuid)

  datatype Failure = UnmountFailed | DestroyFailed(at: Node, errno: Errno)

  /** What the walk has asked for, and been told. */
  datatype Event = Answer(n: Node, rc: Option<Errno>) | UnmountRefused

  /** `b` must go before `a` can: it is a child of `a`, or a clone of the snapshot `a`. */
  predicate Blocks(p: Pool, sr: Dataset, b: Node, a: Node) {
    match b
    case Root => false
    case Vol(z) => (a == Root && z.dataset == sr) || (a.Snapshot? && z in p.zvols && p.zvols[z].origin == Some(a.id))
    case Snapshot(s) => s in p.snaps && a == Vol(p.snaps[s].holder)
  }

  ghost predicate Blocked(p: Pool, sr: Dataset, nodes: set<Node>, a: Node) {
    exists b :: b in nodes && Blocks(p, sr, b, a)
  }

  /** Whatever blocks a listed node is itself listed, and later. */
  ghost predicate Ordered(p: Pool, sr: Dataset, nodes: set<Node>, listing: seq<Node>) {
    forall i: nat, b ::
      i < |listing| && listing[i] in nodes && b in nodes && Blocks(p, sr, b, listing[i]) ==> ListedAfter(listing, b, i)
  }

  ghost predicate ListedAfter(listing: seq<Node>, b: Node, i: nat) {
    exists j :: i < j < |listing| && listing[j] == b
  }

  predicate Distinct(listing: seq<Node>) {
    forall i, j :: 0 <= i < j < |listing| ==> listing[i] != listing[j]
  }

  function Nodes(listing: seq<Node>): set<Node> {
    set n | n in listing
  }

  /** The node has been tried again and again as long as it was busy, at most `most` times: `rc` is the last
      answer, all before it were busy, and it is itself busy only if that was the last attempt allowed. */
  predicate Tried(was: seq<Event>, now: seq<Event>, n: Node, rc: Option<Errno>, most: int) {
    && was < now && now[|now| - 1] == Answer(n, rc)
    && (forall i :: |was| <= i < |now| - 1 ==> now[i] == Answer(n, Some(EBUSY)))
    && (|now| - |was| == 1 || |now| - |was| <= most)
    && (rc == Some(EBUSY) ==> |now| - |was| >= most)
  }

  /** The last `k` answers were that the node is busy. */
  predicate BusyTimes(log: seq<Event>, n: Node, k: nat) {
    k <= |log| && forall i :: |log| - k <= i < |log| ==> log[i] == Answer(n, Some(EBUSY))
  }

  /** The pool's nodes while they are being destroyed; `pool` is the state they started from. */
  class Walk {
    const pool: Pool
    const sr: Dataset
    var nodes: set<Node>
    ghost var log: seq<Event>

    constructor (p: Pool, d: Dataset, all: set<Node>)
      ensures pool == p && sr == d && nodes == all && log == []
    {
      pool, sr, nodes, log := p, d, all, [];
    }

    /** What an attempt at destroying `n` may come to. */
    ghost predicate Came(was: set<Node>, n: Node, rc: Option<Errno>)
      reads this
    {
      match rc
      case None => n in was && !Blocked(pool, sr, was, n) && nodes == was - {n}
      case Some(errno) =>
        && nodes == was && (errno == ENOENT <==> n !in was)
        && (errno == ENOENT || errno == EBUSY || (errno == EEXIST && Blocked(pool, sr, was, n)))
    }

    /** One ioctl. A node that something hangs off is refused; any node may be busy. */
    method DestroyOne(n: Node) returns (rc: Option<Errno>)
      modifies this
      ensures Came(old(nodes), n, rc) && log == old(log) + [Answer(n, rc)]
    {
      var busy: bool := *;
      if n !in nodes {
        rc := Some(ENOENT);
      } else if busy {
        rc := Some(EBUSY);
      } else if exists b :: b in nodes && Blocks(pool, sr, b, n) {
        rc := Some(EEXIST);
      } else {
        nodes := nodes - {n};
        rc := None;
      }
      log := log + [Answer(n, rc)];
    }

    /** Unmounting the SR's file system. */
    method Unmount() returns (ok: bool)
      modifies this
      ensures nodes == old(nodes) && log == old(log) + if ok then [] else [UnmountRefused]
    {
      ok := *;
      if !ok {
        log := log + [UnmountRefused];
      }
    }

    /** `destroy_with_retry`: gives up on a busy node only once all attempts are used up, and otherwise goes
        by the first answer that is not busy. */
    method DestroyWithRetry(n: Node, maxAttempts: int) returns (rc: Option<Errno>)
      modifies this
      ensures Came(old(nodes), n, rc) && Tried(old(log), log, n, rc, maxAttempts)
    {
      rc := DestroyOne(n);
      var left := maxAttempts - 1;
      while left > 0 && rc == Some(EBUSY)
        invariant Came(old(nodes), n, rc)
        invariant old(log) < log && log[|log| - 1] == Answer(n, rc)
        invariant forall i :: |old(log)| <= i < |log| - 1 ==> log[i] == Answer(n, Some(EBUSY))
        invariant if maxAttempts <= 1 then |log| - |old(log)| == 1
                  else 0 <= left && |log| - |old(log)| + left == maxAttempts
      {
        rc := DestroyOne(n);
        left := left - 1;
      }
    }

    /** `_lzc_recursive_destroy` of a listing. Success removes exactly the listed nodes; what is gone by
        itself is passed over. After a failure those still there are a prefix of the listing, the last of
        them the one it failed at. It goes through if and only if every node is listed after whatever it
        blocks, unless a node has been busy ten times in a row or the root, when its turn came, could not
        be unmounted. */
    method Destroy(listing: seq<Node>) returns (r: Result<(), Failure>, ghost left: nat)
      modifies this
      ensures left <= |listing| && nodes == old(nodes) - Nodes(listing[left..])
      ensures r.Ok? <==> left == 0
      ensures r.Ok? ==> Ordered(pool, sr, old(nodes), listing)
      ensures r == Err(UnmountFailed) ==>
                listing[left - 1] == Root && old(log) < log && log[|log| - 1] == UnmountRefused
      ensures r.Err? && r.error.DestroyFailed? ==>
                && r.error.at == listing[left - 1] && r.error.at in nodes
                && (if r.error.errno == EBUSY then BusyTimes(log, r.error.at, 10) && |log| >= |old(log)| + 10
                    else r.error.errno == EEXIST && !Ordered(pool, sr, old(nodes), listing))
    {
      r := Ok(());
      left := |listing|;
      var i := |listing|;
      assert Nodes(listing[|listing|..]) == {};
      while i > 0
        invariant 0 <= i <= |listing| && left == i && old(log) <= log
        invariant nodes == old(nodes) - Nodes(listing[i..])
        invariant Ordered(pool, sr, old(nodes), listing[i..])
      {
        var n := listing[i - 1];
        assert listing[i - 1..] == [n] + listing[i..];
        if n == Root {
          var unmounted := Unmount();
          if !unmounted {
            return Err(UnmountFailed), left;
          }
        }
        var rc := DestroyWithRetry(n, 10);
        if rc != None && rc != Some(ENOENT) {
          StuckIfOrdered(pool, sr, old(nodes), listing, i);
          return Err(DestroyFailed(n, rc.value)), left;
        }
        OneMoreOrdered(pool, sr, old(nodes), listing, i);
        left := i - 1;
        i := i - 1;
      }
      assert listing[0..] == listing;
    }
  }

  /** If the whole listing is in order, the node due next is blocked by nothing that is still there. */
  lemma StuckIfOrdered(p: Pool, sr: Dataset, all: set<Node>, listing: seq<Node>, i: nat)
    requires 0 < i <= |listing| && listing[i - 1] in all
    ensures Ordered(p, sr, all, listing) ==> !Blocked(p, sr, all - Nodes(listing[i..]), listing[i - 1])
  {
    if Ordered(p, sr, all, listing) {
      forall b | b in all && Blocks(p, sr, b, listing[i - 1]) ensures b in Nodes(listing[i..]) {
        assert ListedAfter(listing, b, i - 1);
        var j :| i - 1 < j < |listing| && listing[j] == b;
        assert listing[i..][j - i] == b;
      }
    }
  }

  lemma OneMoreOrdered(p: Pool, sr: Dataset, all: set<Node>, listing: seq<Node>, i: nat)
    requires 0 < i <= |listing| && Ordered(p, sr, all, listing[i..])
    requires listing[i - 1] in all - Nodes(listing[i..]) ==> !Blocked(p, sr, all - Nodes(listing[i..]), listing[i - 1])
    ensures Ordered(p, sr, all, listing[i - 1..])
  {
    var tail, more := listing[i..], listing[i - 1..];
    forall a: nat, b | a < |more| && more[a] in all && b in all && Blocks(p, sr, b, more[a])
      ensures ListedAfter(more, b, a) {
      if a == 0 && more[0] !in tail {
        assert b in Nodes(tail);
        var j :| 0 <= j < |tail| && tail[j] == b;
        assert more[j + 1] == b;
      } else {
        var k := if a == 0 then IndexOf(tail, more[0]) else a - 1;
        assert tail[k] == more[a] && ListedAfter(tail, b, k);
        var j :| k < j < |tail| && tail[j] == b;
        assert more[j + 1] == b;
      }
    }
  }

  // ----- the SR of a pool -----

  function AllNodes(p: Pool): set<Node> {
    {Root} + (set z | z in p.zvols :: Vol(z)) + (set s | s in p.snaps :: Snapshot(s))
  }

  predicate InSr(p: Pool, sr: Dataset, n: Node) {
    match n
    case Root => true
    case Vol(z) => z in p.zvols && z.dataset == sr
    case Snapshot(s) => s in p.snaps && p.snaps[s].holder.dataset == sr
  }

  /** The place of a node in a listing by name: the root, then each zvol followed by its snapshots. */
  function Place(p: Pool, n: Node): int {
    match n
    case Root => 0
    case Vol(z) => 2 * z.uuid + 1
    case Snapshot(s) => if s in p.snaps then 2 * p.snaps[s].holder.uuid + 2 else 0
  }

  /** `zfs list -r` of the SR. */
  ghost predicate ListedByName(p: Pool, sr: Dataset, listing: seq<Node>) {
    && Distinct(listing)
    && (forall n :: n in listing <==> InSr(p, sr, n))
    && (forall i, j :: 0 <= i < j < |listing| ==> Place(p, listing[i]) <= Place(p, listing[j]))
  }

  /** Every clone of one of the SR's snapshots is in the SR, and its name sorts behind the snapshot's zvol. */
  ghost predicate ClonesSortLater(p: Pool, sr: Dataset) {
    forall z :: z in p.zvols && p.zvols[z].origin.Some? ==> CloneSortsLater(p, sr, z)
  }

  predicate CloneSortsLater(p: Pool, sr: Dataset, z: ZvolName)
    requires z in p.zvols && p.zvols[z].origin.Some?
  {
    var s := p.zvols[z].origin.value;
    s in p.snaps && p.snaps[s].holder.dataset == sr ==> z.dataset == sr && p.snaps[s].holder.uuid < z.uuid
  }

  ghost function IndexOf(listing: seq<Node>, n: Node): (i: nat)
    requires n in listing
    ensures i < |listing| && listing[i] == n
  {
    var i :| 0 <= i < |listing| && listing[i] == n;
    i
  }

  lemma PlacedAfter(p: Pool, sr: Dataset, listing: seq<Node>, i: nat, b: Node)
    requires ListedByName(p, sr, listing) && i < |listing| && InSr(p, sr, b) && Place(p, listing[i]) < Place(p, b)
    ensures ListedAfter(listing, b, i)
  {
    var j := IndexOf(listing, b);
    assert listing[j] == b;
  }

  /** `SR.destroy` of a well-formed pool can go through exactly if no clone hangs off the SR from outside
      and every clone inside sorts behind the zvol it was cloned from. A snapshot VDI whose uuid happens
      to be smaller than its parent's is such a clone, and makes it fail. */
  lemma OrderedIff(p: Pool, sr: Dataset, listing: seq<Node>)
    requires Valid(p) && ListedByName(p, sr, listing)
    ensures Ordered(p, sr, AllNodes(p), listing) <==> ClonesSortLater(p, sr)
  {
    if ClonesSortLater(p, sr) {
      forall i: nat, b | i < |listing| && b in AllNodes(p) && Blocks(p, sr, b, listing[i])
        ensures ListedAfter(listing, b, i) {
        var a := listing[i];
        assert InSr(p, sr, a);
        if b.Vol? && a.Snapshot? {
          assert CloneSortsLater(p, sr, b.name);
        }
        PlacedAfter(p, sr, listing, i, b);
      }
    }
    if Ordered(p, sr, AllNodes(p), listing) {
      forall z | z in p.zvols && p.zvols[z].origin.Some? ensures CloneSortsLater(p, sr, z) {
        var s := p.zvols[z].origin.value;
        if s in p.snaps && p.snaps[s].holder.dataset == sr {
          OrderedMeansLater(p, sr, listing, z);
        }
      }
    }
  }

  lemma OrderedMeansLater(p: Pool, sr: Dataset, listing: seq<Node>, z: ZvolName)
    requires ListedByName(p, sr, listing) && Ordered(p, sr, AllNodes(p), listing)
    requires z in p.zvols && p.zvols[z].origin.Some? && p.zvols[z].origin.value in p.snaps
    requires p.snaps[p.zvols[z].origin.value].holder.dataset == sr
    ensures CloneSortsLater(p, sr, z)
  {
    var s := p.zvols[z].origin.value;
    assert InSr(p, sr, Snapshot(s)) && Blocks(p, sr, Vol(z), Snapshot(s));
    var i := IndexOf(listing, Snapshot(s));
    assert ListedAfter(listing, Vol(z), i);
    var j :| i < j < |listing| && listing[j] == Vol(z);
    assert Place(p, listing[i]) <= Place(p, listing[j]) && InSr(p, sr, listing[j]);
  }

  lemma InSuffix(listing: seq<Node>, left: nat, j: nat)
    requires Distinct(listing) && left <= |listing| && j < |listing|
    ensures listing[j] in listing[left..] <==> j >= left
  {
    if j >= left {
      assert listing[left..][j - left] == listing[j];
    } else {
      forall i | 0 <= i < |listing| - left ensures listing[left..][i] != listing[j] {
        assert listing[left..][i] == listing[left + i];
      }
    }
  }

  /** `SR.destroy`. It goes through only under that condition, and leaves exactly the rest of the pool. Under
      it, only a node that is busy ten times in a row can stop it, or the SR's file system, all else of the
      SR gone, that cannot be unmounted. */
  method DestroySr(p: Pool, sr: Dataset, listing: seq<Node>) returns (r: Result<(), Failure>, walk: Walk)
    requires Valid(p) && ListedByName(p, sr, listing)
    ensures fresh(walk)
    ensures r.Ok? ==> ClonesSortLater(p, sr) && forall n :: n in walk.nodes <==> n in AllNodes(p) && !InSr(p, sr, n)
    ensures r == Err(UnmountFailed) ==>
              && UnmountRefused in walk.log
              && forall n :: n in walk.nodes <==> n == Root || (n in AllNodes(p) && !InSr(p, sr, n))
    ensures r.Err? && r.error.DestroyFailed? ==>
              && r.error.at in walk.nodes && InSr(p, sr, r.error.at)
              && (r.error.errno == EBUSY ==> BusyTimes(walk.log, r.error.at, 10))
              && (r.error.errno != EBUSY ==> !ClonesSortLater(p, sr))
    ensures r.Err? ==> forall i, j :: 0 <= i < j < |listing| && listing[j] in walk.nodes ==> listing[i] in walk.nodes
  {
    walk := new Walk(p, sr, AllNodes(p));
    ghost var left;
    r, left := walk.Destroy(listing);
    OrderedIff(p, sr, listing);
    assert left == 0 ==> listing[left..] == listing;
    forall j | 0 <= j < |listing| ensures listing[j] in walk.nodes <==> j < left {
      assert InSr(p, sr, listing[j]);
      InSuffix(listing, left, j);
    }
    if r == Err(UnmountFailed) {
      RootComesFirst(p, sr, listing, left - 1);
      assert forall n :: n in listing[1..] <==> n in listing && n != listing[0] by {
        assert listing == [listing[0]] + listing[1..];
      }
    }
  }

  lemma RootComesFirst(p: Pool, sr: Dataset, listing: seq<Node>, i: nat)
    requires ListedByName(p, sr, listing) && i < |listing| && listing[i] == Root
    ensures i == 0
  {
    assert InSr(p, sr, listing[0]);
    assert i > 0 ==> Place(p, listing[0]) <= Place(p, listing[i]);
  }
}
