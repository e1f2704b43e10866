/** Orphan cleanup in `SR.ls` racing with operations that create an object first and commit its row later:
    exactly which grace periods are safe. */
module OrphanTiming {
  import opened Wrappers
  import opened ZfsPool
  import opened Metabase
  import opened VolumeSpec

  type Id = nat
  type PassId = nat

  /** A zvol or snapshot; its row may be committed, and a cleanup may have destroyed it. */
  datatype Object = Object(created: nat, committed: bool, destroyed: bool)

  /** One scan of `SR.ls`, over zvols or over snapshots: the rows read at its start, the orphans found so
      far with their creation times, and the clock reading their age is judged by. */
  datatype Pass = Pass(start: nat, known: set<Id>, found: map<Id, nat>, stamp: Option<nat>)

  datatype World = World(clock: nat, objects: map<Id, Object>, passes: map<PassId, Pass>)

  /** The clock counts `rate` ticks a second; ages are taken in whole seconds. A row is committed at most
      `commitWithin` ticks after its object was created, and a scan reads the clock at most `passWithin`
      ticks after it read the rows. */
  datatype Timing = Timing(rate: nat, grace: int, commitWithin: nat, passWithin: nat)

  datatype Step =
    | Advance(ticks: nat)
    | Create(id: Id)
    | Commit(id: Id)
    | Begin(pass: PassId)
    | Find(pass: PassId, id: Id)
    | ReadClock(pass: PassId)
    | Destroy(pass: PassId, id: Id)

  /** A grace period of 0 disables the check. */
  predicate OldEnough(t: Timing, now: nat, created: nat)
    requires t.rate > 0
  {
    GraceOver(t.grace, now / t.rate, created / t.rate)
  }

  /** The driver's cleanup destroys only what the state machine lets it: a zvol that goes was old enough by
      the seconds shown on the clock when the scan read it, and by those of its creation. */
  lemma DriverWaits(p: Pool, rows: Rows, sr: Dataset, c: Cleanup, q: Pool, t: Timing, now: nat, created: nat,
                    z: ZvolName)
    requires t.rate > 0 && CleanedUp(p, rows, sr, c, q) && z in p.zvols && z !in q.zvols
    requires c.grace == t.grace && c.zvols.now == now / t.rate
    requires z in c.zvols.born ==> c.zvols.born[z] == created / t.rate
    ensures OldEnough(t, now, created)
  {
  }

  /** The ids with a row. */
  function Committed(w: World): set<Id> {
    set id | id in w.objects && w.objects[id].committed
  }

  /** The world after a step, if the step can be taken. Objects in use may be passed over, which is the
      step not being taken; a row may be committed for an object that has been destroyed meanwhile. */
  function Next(t: Timing, w: World, s: Step): Option<World>
    requires t.rate > 0
  {
    match s
    case Advance(n) => Some(w.(clock := w.clock + n))
    case Create(id) =>
      if id in w.objects then None else Some(w.(objects := w.objects[id := Object(w.clock, false, false)]))
    case Commit(id) =>
      if id in w.objects && !w.objects[id].committed && w.clock <= w.objects[id].created + t.commitWithin
      then Some(w.(objects := w.objects[id := w.objects[id].(committed := true)]))
      else None
    case Begin(p) =>
      if p in w.passes then None
      else Some(w.(passes := w.passes[p := Pass(w.clock, Committed(w), map[], None)]))
    case Find(p, id) =>
      if p in w.passes && w.passes[p].stamp.None? && id in w.objects && !w.objects[id].destroyed
          && id !in w.passes[p].known
      then Some(w.(passes := w.passes[p := w.passes[p].(found := w.passes[p].found[id := w.objects[id].created])]))
      else None
    case ReadClock(p) =>
      if p in w.passes && w.passes[p].stamp.None? && w.clock <= w.passes[p].start + t.passWithin
      then Some(w.(passes := w.passes[p := w.passes[p].(stamp := Some(w.clock))]))
      else None
    case Destroy(p, id) =>
      if p in w.passes && w.passes[p].stamp.Some? && id in w.passes[p].found && id in w.objects
          && !w.objects[id].destroyed
         && OldEnough(t, w.passes[p].stamp.value, w.passes[p].found[id])
      then Some(w.(objects := w.objects[id := w.objects[id].(destroyed := true)]))
      else None
  }

  function Run(t: Timing, w: World, steps: seq<Step>): Option<World>
    requires t.rate > 0
    decreases steps
  {
    if steps == [] then Some(w)
    else
      match Next(t, w, steps[0])
      case None => None
      case Some(v) => Run(t, v, steps[1..])
  }

  const START: World := World(0, map[], map[])

  /** A cleanup destroyed an object that backs a VDI, or was about to. */
  ghost predicate Harmed(w: World) {
    exists id :: id in w.objects && w.objects[id].committed && w.objects[id].destroyed
  }

  ghost predicate NeverHarmed(t: Timing)
    requires t.rate > 0
  {
    forall steps :: Run(t, START, steps).Some? ==> !Harmed(Run(t, START, steps).value)
  }

  /** What a caller can check: the grace period is on, and longer by a whole second than the longest time
      a row may be missing from the rows a scan judges by. */
  predicate LongEnough(t: Timing) {
    t.grace > 0 && t.commitWithin + t.passWithin <= (t.grace - 1) * t.rate
  }

  // ----- long enough is safe -----

  ghost predicate PassOk(t: Timing, w: World, p: Pass) {
    && p.start <= w.clock
    && (p.stamp.Some? ==> p.stamp.value <= p.start + t.passWithin)
    && (forall id :: id in p.found ==> id in w.objects && p.found[id] == w.objects[id].created && id !in p.known)
    && (forall id :: id in w.objects && w.objects[id].committed && id !in p.known ==>
        p.start <= w.objects[id].created + t.commitWithin)
  }

  /** A destroyed object has no row and is too old to get one. */
  ghost predicate DoneFor(t: Timing, w: World, o: Object) {
    o.destroyed ==> !o.committed && o.created + t.commitWithin < w.clock
  }

  ghost predicate Inv(t: Timing, w: World) {
    && (forall p :: p in w.passes ==> PassOk(t, w, w.passes[p]))
    && (forall id :: id in w.objects ==> w.objects[id].created <= w.clock && DoneFor(t, w, w.objects[id]))
  }

  /** Whole seconds overstate an age by less than one second. */
  lemma AgeInSeconds(now: nat, created: nat, rate: nat, grace: int)
    requires rate > 0 && now / rate - created / rate >= grace
    ensures now - created > (grace - 1) * rate
  {
    var a, b := now / rate, created / rate;
    assert now >= a * rate && created < b * rate + rate;
    assert (a - b - 1) * rate == a * rate - b * rate - rate;
    assert (grace - 1) * rate <= (a - b - 1) * rate;
  }

  lemma StepKeepsInv(t: Timing, w: World, s: Step)
    requires t.rate > 0 && LongEnough(t) && Inv(t, w) && Next(t, w, s).Some?
    ensures Inv(t, Next(t, w, s).value)
  {
    var v := Next(t, w, s).value;
    if s.Destroy? {
      var p := w.passes[s.pass];
      assert PassOk(t, w, p);
      AgeInSeconds(p.stamp.value, p.found[s.id], t.rate, t.grace);
    }
    forall p | p in v.passes ensures PassOk(t, v, v.passes[p]) {
      assert p in w.passes ==> PassOk(t, w, w.passes[p]);
    }
    forall id | id in v.objects ensures v.objects[id].created <= v.clock && DoneFor(t, v, v.objects[id]) {
      assert id in w.objects ==> DoneFor(t, w, w.objects[id]);
    }
  }

  lemma {:induction false} RunKeepsInv(t: Timing, w: World, steps: seq<Step>)
    requires t.rate > 0 && LongEnough(t) && Inv(t, w) && Run(t, w, steps).Some?
    ensures Inv(t, Run(t, w, steps).value)
    decreases steps
  {
    if steps != [] {
      StepKeepsInv(t, w, steps[0]);
      RunKeepsInv(t, Next(t, w, steps[0]).value, steps[1..]);
    }
  }

  // ----- anything shorter is not -----

  /** Created at the end of a second, the row committed as late as allowed, just after a scan has read the
      rows; the scan then takes as long as allowed. */
  function LateCommit(t: Timing): seq<Step>
    requires t.rate > 0
  {
    [Advance(t.rate - 1), Create(0), Advance(t.commitWithin), Begin(0), Commit(0), Find(0, 0), Advance(t.passWithin),
     ReadClock(0), Destroy(0, 0)]
  }

  lemma QuotientAtLeast(x: nat, d: nat, q: int)
    requires d > 0 && x >= q * d
    ensures x / d >= q
  {
    var a := x / d;
    assert x < a * d + d;
    assert a + 1 <= q ==> (a + 1) * d <= q * d;
    assert (a + 1) * d == a * d + d;
  }

  lemma LateCommitAge(t: Timing)
    requires t.rate > 0 && !LongEnough(t)
    ensures OldEnough(t, t.rate - 1 + t.commitWithin + t.passWithin, t.rate - 1)
  {
    if t.grace > 0 {
      var now := t.rate - 1 + t.commitWithin + t.passWithin;
      assert (t.grace - 1) * t.rate == t.grace * t.rate - t.rate;
      QuotientAtLeast(now, t.rate, t.grace);
      assert (t.rate - 1) / t.rate == 0;
    }
  }

  /** The world when the row has just been committed. */
  function HalfWay(t: Timing): World
    requires t.rate > 0
  {
    var begun := t.rate - 1 + t.commitWithin;
    World(begun, map[0 := Object(t.rate - 1, true, false)], map[0 := Pass(begun, {}, map[], None)])
  }

  lemma LateCommitBegins(t: Timing)
    requires t.rate > 0
    ensures Run(t, START, LateCommit(t)) == Run(t, HalfWay(t), LateCommit(t)[5..])
  {
    hide Run, OldEnough;
    var steps := LateCommit(t);
    var w1 := START.(clock := t.rate - 1);
    var w2 := w1.(objects := w1.objects[0 := Object(w1.clock, false, false)]);
    var w3 := w2.(clock := t.rate - 1 + t.commitWithin);
    var w4 := w3.(passes := w3.passes[0 := Pass(w3.clock, {}, map[], None)]);
    Taken(t, START, w1, steps, 0);
    Taken(t, w1, w2, steps, 1);
    Taken(t, w2, w3, steps, 2);
    assert Committed(w3) == {};
    Taken(t, w3, w4, steps, 3);
    assert w4.objects[0 := Object(w1.clock, true, false)] == HalfWay(t).objects && w4.passes == HalfWay(t).passes;
    Taken(t, w4, HalfWay(t), steps, 4);
    assert steps[0..] == steps;
  }

  lemma LateCommitEnds(t: Timing)
    requires t.rate > 0 && !LongEnough(t)
    ensures Run(t, HalfWay(t), LateCommit(t)[5..]).Some? && Harmed(Run(t, HalfWay(t), LateCommit(t)[5..]).value)
  {
    hide Run, OldEnough;
    var steps, w5 := LateCommit(t), HalfWay(t);
    LateCommitAge(t);
    var p6 := w5.passes[0].(found := w5.passes[0].found[0 := t.rate - 1]);
    var w6 := w5.(passes := w5.passes[0 := p6]);
    var w7 := w6.(clock := w5.clock + t.passWithin);
    var w8 := w7.(passes := w7.passes[0 := p6.(stamp := Some(w7.clock))]);
    var w9 := w8.(objects := w8.objects[0 := w8.objects[0].(destroyed := true)]);
    Taken(t, w5, w6, steps, 5);
    Taken(t, w6, w7, steps, 6);
    Taken(t, w7, w8, steps, 7);
    Taken(t, w8, w9, steps, 8);
    assert steps[9..] == [];
    NothingLeft(t, w9);
    assert w9.objects[0].committed && w9.objects[0].destroyed;
  }

  lemma Taken(t: Timing, w: World, v: World, steps: seq<Step>, i: nat)
    requires t.rate > 0 && i < |steps| && Next(t, w, steps[i]) == Some(v)
    ensures Run(t, w, steps[i..]) == Run(t, v, steps[i + 1..])
  {
    assert steps[i..][1..] == steps[i + 1..];
  }

  lemma NothingLeft(t: Timing, w: World)
    requires t.rate > 0
    ensures Run(t, w, []) == Some(w)
  {
  }

  /** No interleaving of listings and operations destroys an object that backs, or will back, a VDI,
      exactly if the grace period is long enough. Because ages are taken in whole seconds it has to
      exceed the two delays by a full second; a grace period of 0 is never safe. */
  lemma SafeIffLongEnough(t: Timing)
    requires t.rate > 0
    ensures NeverHarmed(t) <==> LongEnough(t)
  {
    if LongEnough(t) {
      forall steps | Run(t, START, steps).Some? ensures !Harmed(Run(t, START, steps).value) {
        RunKeepsInv(t, START, steps);
        var w := Run(t, START, steps).value;
        forall id | id in w.objects ensures !(w.objects[id].committed && w.objects[id].destroyed) {
          assert DoneFor(t, w, w.objects[id]);
        }
      }
    } else {
      LateCommitBegins(t);
      LateCommitEnds(t);
      assert Run(t, START, LateCommit(t)).Some?;
    }
  }
}
