/** The block node of the qemu that serves a VDI: its bitmap commands, the capture at a snapshot, and
    what deactivate and activate do to `cbt-active`. The guest may write between any two commands, and
    any command may fail. */
module QemuNode {
  import opened Wrappers
  import opened Tracking

  // ----- the guest -----

  /** The guest has a turn between any two commands; this is what it writes in each of them. */
  type Script = nat -> seq<Write>

  /** All it writes from turn `a` on, before turn `b`. */
  function Said(guest: Script, a: nat, b: nat): seq<Write>
    requires a <= b
    decreases b
  {
    if a == b then [] else Said(guest, a, b - 1) + guest(b - 1)
  }

  lemma {:induction false} SaidSplit(guest: Script, a: nat, b: nat, c: nat)
    requires a <= b <= c
    ensures Said(guest, a, c) == Said(guest, a, b) + Said(guest, b, c)
    decreases c
  {
    if b < c {
      SaidSplit(guest, a, b, c - 1);
    }
  }

  lemma SaidOnce(guest: Script, a: nat)
    ensures Said(guest, a, a + 1) == guest(a)
  {
    assert Said(guest, a, a) == [];
  }

  // ----- snapshots and their bitmaps -----

  /** A `Volume.snapshot` of the VDI: the content its ZFS snapshot has, the writes since the one before,
      the writes the bitmap captured for it has heard, whether `cbt-active` was steadily recording since
      the one before, and whether the bitmap was persisted. */
  datatype Record =
    Record(id: Uuid, content: Content, between: seq<Write>, had: seq<Write>, steady: bool, persisted: bool)

  /** Every block written between is a block heard. */
  ghost predicate Told(r: Record, g: nat)
    requires g > 0
  {
    BlocksOf(r.between, g) <= BlocksOf(r.had, g)
  }

  /** A persisted bitmap stays as it was captured, with exactly the blocks it has heard of. */
  ghost predicate RecordOk(r: Record, bs: Bitmaps, g: nat)
    requires g > 0
  {
    && (r.steady ==> Told(r, g))
    && (r.persisted ==> Frozen(r.id) in bs && bs[Frozen(r.id)] == Bitmap(g, false, BlocksOf(r.had, g)))
  }

  ghost predicate RecordsOk(rs: seq<Record>, bs: Bitmaps, g: nat)
    requires g > 0
  {
    forall i :: 0 <= i < |rs| ==> RecordOk(rs[i], bs, g)
  }

  ghost predicate Follows(older: Record, newer: Record) {
    Fits(newer.between, |older.content|) && newer.content == Written(older.content, newer.between)
  }

  /** Each snapshot's content is the one before it plus the writes in between. */
  ghost predicate Chained(rs: seq<Record>) {
    forall i, j :: 0 <= i && j == i + 1 < |rs| ==> Follows(rs[i], rs[j])
  }

  /** The stopped bitmaps persisted records refer to are the same in both. */
  ghost predicate PersistedAlike(rs: seq<Record>, bs: Bitmaps, after: Bitmaps) {
    forall i :: 0 <= i < |rs| && rs[i].persisted && Frozen(rs[i].id) in bs && !bs[Frozen(rs[i].id)].recording ==>
      Frozen(rs[i].id) in after && after[Frozen(rs[i].id)] == bs[Frozen(rs[i].id)]
  }

  lemma RecordsStayOk(rs: seq<Record>, bs: Bitmaps, after: Bitmaps, g: nat)
    requires g > 0 && RecordsOk(rs, bs, g) && PersistedAlike(rs, bs, after)
    ensures RecordsOk(rs, after, g)
  {
    forall i | 0 <= i < |rs| ensures RecordOk(rs[i], after, g) {
      assert RecordOk(rs[i], bs, g);
    }
  }

  /** The delta between two consecutive snapshots, read off the second one's persisted bitmap. */
  ghost predicate DeltaExact(older: Record, newer: Record, bs: Bitmaps, g: nat)
    requires g > 0
  {
    && Frozen(newer.id) in bs && |older.content| == |newer.content| && Fits(newer.between, |older.content|)
    && (AlwaysSound(newer.between, bs[Frozen(newer.id)].dirty, g, |older.content|) <==> Told(newer, g))
    && (Told(newer, g) ==> DeltaSound(older.content, newer.content, bs[Frozen(newer.id)].dirty, g))
  }

  /** Read at any later time, the delta is sound, whatever the data written and the content before, if
      and only if the bitmap heard of every block written in between. */
  lemma DeltaOfRecords(rs: seq<Record>, bs: Bitmaps, g: nat, j: nat)
    requires g > 0 && RecordsOk(rs, bs, g) && Chained(rs) && 0 < j < |rs| && rs[j].persisted
    ensures DeltaExact(rs[j - 1], rs[j], bs, g)
  {
    var i := j - 1;
    assert Follows(rs[i], rs[j]) && RecordOk(rs[j], bs, g);
    DeltaSoundIff(rs[j].between, BlocksOf(rs[j].had, g), g, |rs[i].content|);
    if Told(rs[j], g) {
      CoveredIsSound(rs[i].content, rs[j].between, BlocksOf(rs[j].had, g), g);
    }
  }

  ghost predicate AllDeltasExact(rs: seq<Record>, bs: Bitmaps, g: nat)
    requires g > 0
  {
    forall i, j :: 0 <= i && j == i + 1 < |rs| && rs[j].persisted ==> DeltaExact(rs[i], rs[j], bs, g)
  }

  lemma DeltasExact(rs: seq<Record>, bs: Bitmaps, g: nat)
    requires g > 0 && RecordsOk(rs, bs, g) && Chained(rs)
    ensures AllDeltasExact(rs, bs, g)
    ensures forall j :: 0 <= j < |rs| && rs[j].steady ==> Told(rs[j], g)
  {
    forall j | 0 <= j < |rs| && rs[j].steady ensures Told(rs[j], g) {
      assert RecordOk(rs[j], bs, g);
    }
    forall i, j | 0 <= i && j == i + 1 < |rs| && rs[j].persisted ensures DeltaExact(rs[i], rs[j], bs, g) {
      DeltaOfRecords(rs, bs, g, j);
    }
  }

  // ----- moments -----

  /** The device, the turns the guest has had, and what it has written since the last ZFS snapshot. */
  datatype Clock = Clock(content: Content, turn: nat, since: seq<Write>)

  /** `held` are the writes `cbt-active` has heard since it was created or cleared, `missed` those made while
      no driver-owned bitmap recorded. */
  datatype Moment = Moment(clock: Clock, bitmaps: Bitmaps, held: seq<Write>, missed: seq<Write>, steady: bool,
                           records: seq<Record>)

  predicate IsRecording(bs: Bitmaps) {
    Active in bs && bs[Active].recording
  }

  /** The guest has had its turns between `s` and `t`. */
  ghost predicate Passed(guest: Script, s: Clock, t: Clock) {
    && s.turn <= t.turn && Fits(Said(guest, s.turn, t.turn), |s.content|)
    && t.content == Written(s.content, Said(guest, s.turn, t.turn))
    && t.since == s.since + Said(guest, s.turn, t.turn)
  }

  lemma NoTimePassed(guest: Script, s: Clock)
    ensures Passed(guest, s, s)
  {
  }

  lemma PassedTwice(guest: Script, s: Clock, t: Clock, u: Clock)
    requires Passed(guest, s, t) && Passed(guest, t, u)
    ensures Passed(guest, s, u)
  {
    SaidSplit(guest, s.turn, t.turn, u.turn);
    WrittenConcat(s.content, Said(guest, s.turn, t.turn), Said(guest, t.turn, u.turn));
  }

  /** What the bitmap captured at a snapshot gets beyond what `cbt-active` had: the guest's writes before
      `cbt-active` is stopped, and from the creation of the new bitmap until that is stopped. */
  function Kept(guest: Script, s: Moment): seq<Write> {
    (if IsRecording(s.bitmaps) then guest(s.clock.turn) else []) + Said(guest, s.clock.turn + 2, s.clock.turn + 6)
  }

  /** A `Volume.snapshot` and its capture. The first five turns of the guest after the ZFS snapshot come
      before `cbt-active` records again, the last two after. */
  ghost predicate Took(g: nat, guest: Script, s: Moment, id: Uuid, ok: bool, t: Moment)
    requires g > 0
  {
    && t.records == s.records + [Taken(guest, s, id, ok)]
    && Passed(guest, s.clock.(since := []), t.clock) && t.bitmaps.Keys <= s.bitmaps.Keys + {Frozen(id)}
    && (ok ==> Captured(g, guest, s, id, t) && (Said(guest, s.clock.turn, s.clock.turn + 5) == [] ==> t.steady))
  }

  function Taken(guest: Script, s: Moment, id: Uuid, ok: bool): Record {
    Record(id, s.clock.content, s.clock.since, if ok then s.held + Kept(guest, s) else s.held, s.steady, ok)
  }

  /** The capture went through: the new bitmap has all `cbt-active` had and what was kept, and
      `cbt-active` what has been written since it records again. */
  ghost predicate Captured(g: nat, guest: Script, s: Moment, id: Uuid, t: Moment)
    requires g > 0
  {
    && t.clock.turn == s.clock.turn + 7 && Active in s.bitmaps && t.bitmaps.Keys == s.bitmaps.Keys + {Frozen(id)}
    && t.held == Said(guest, s.clock.turn + 5, t.clock.turn)
    && t.bitmaps[Active] == Bitmap(g, true, BlocksOf(t.held, g))
    && t.bitmaps[Frozen(id)] == Bitmap(g, false, BlocksOf(s.held + Kept(guest, s), g))
  }

  /** `cbt-active` has every block written since the last ZFS snapshot. */
  ghost predicate Covered(g: nat, s: Moment)
    requires g > 0
  {
    Active in s.bitmaps && BlocksOf(s.clock.since, g) <= s.bitmaps[Active].dirty
  }

  /** What every moment of a node keeps; `heard` are the writes made while a driver-owned bitmap recorded. */
  ghost predicate ValidAt(g: nat, guest: Script, s: Moment, heard: seq<Write>) {
    && g > 0 && (forall n :: Fits(guest(n), |s.clock.content|))
    && Conserved(s.bitmaps, g, heard)
    && RecordsOk(s.records, s.bitmaps, g) && Chained(s.records)
    && SinceLast(s.records, s.clock.since, s.clock.content)
    && (Active in s.bitmaps ==> s.bitmaps[Active].dirty == BlocksOf(s.held, g))
    && (s.steady ==> Covered(g, s))
  }

  lemma WriteKeepsValid(g: nat, guest: Script, s: Moment, heard: seq<Write>, w: Write, t: Moment)
    requires ValidAt(g, guest, s, heard) && w.offset + |w.data| <= |s.clock.content| && AllWritten([w], s, t)
    ensures ValidAt(g, guest, t, heard + if SomeRecording(s.bitmaps) then [w] else [])
  {
    ActiveHears(g, guest, s, heard, w, t);
    hide Conserved, RecordsOk, Patched, Written, BlocksOf, Chained, SinceLast, SomeRecording, Recorded, Covered;
    HearingConserves(s.bitmaps, g, heard, [w]);
    RecordsHear(s.records, s.bitmaps, [w], g);
    SinceGrows(s.records, s.clock.since, s.clock.content, w);
    assert heard + [] == heard;
  }

  lemma ActiveHears(g: nat, guest: Script, s: Moment, heard: seq<Write>, w: Write, t: Moment)
    requires ValidAt(g, guest, s, heard) && AllWritten([w], s, t)
    ensures Active in t.bitmaps ==> t.bitmaps[Active].dirty == BlocksOf(t.held, g)
    ensures t.steady ==> Covered(g, t)
  {
    assert Active in s.bitmaps ==> s.bitmaps[Active].granularity == g;
    hide Conserved, RecordsOk, Written, BlocksOf, Chained, SinceLast, SomeRecording;
    if Active in s.bitmaps {
      BlocksOfConcat(s.clock.since, [w], g);
      BlocksOfConcat(s.held, [w], g);
      assert s.held + [] == s.held;
    }
  }

  /** Writes of the guest. They are missed only if no driver-owned bitmap records. */
  ghost predicate AllWritten(ws: seq<Write>, s: Moment, t: Moment) {
    && Fits(ws, |s.clock.content|) && t.clock == Clock(Written(s.clock.content, ws), s.clock.turn, s.clock.since + ws)
    && t.bitmaps == Recorded(s.bitmaps, ws) && t.records == s.records
    && t.missed == s.missed + (if SomeRecording(s.bitmaps) then [] else ws)
    && t.held == s.held + (if IsRecording(s.bitmaps) then ws else [])
    && t.steady == (s.steady && (ws == [] || IsRecording(s.bitmaps)))
  }

  /** One turn of the guest. */
  ghost predicate Turned(guest: Script, s: Moment, t: Moment) {
    && t.clock.turn == s.clock.turn + 1 && Passed(guest, s.clock, t.clock)
    && AllWritten(guest(s.clock.turn), s, t.(clock := t.clock.(turn := s.clock.turn)))
  }

  lemma TurnOver(guest: Script, s: Moment, t: Moment, u: Moment)
    requires AllWritten(guest(s.clock.turn), s, t) && u == t.(clock := t.clock.(turn := s.clock.turn + 1))
    ensures Turned(guest, s, u)
  {
    SaidOnce(guest, s.clock.turn);
    assert u.(clock := u.clock.(turn := s.clock.turn)) == t;
  }

  // ----- the steps of the capture -----

  /** `cbt-active` is stopped while the new bitmap records. */
  ghost predicate Swapping(g: nat, s: Moment, id: Uuid) {
    && Active in s.bitmaps && s.bitmaps[Active].granularity == g && !s.bitmaps[Active].recording
    && Frozen(id) in s.bitmaps && s.bitmaps[Frozen(id)].granularity == g && s.bitmaps[Frozen(id)].recording
  }

  /** Time has passed in which nothing was missed and nothing has come to be or been held. */
  ghost predicate Quietly(guest: Script, s: Moment, t: Moment) {
    && Passed(guest, s.clock, t.clock) && t.missed == s.missed && t.held == s.held && t.bitmaps.Keys == s.bitmaps.Keys
    && !t.steady && t.records == s.records
  }

  ghost predicate Added(g: nat, guest: Script, s: Moment, id: Uuid, ok: bool, t: Moment) {
    && Passed(guest, s.clock, t.clock) && t.held == s.held && !t.steady
    && (guest(s.clock.turn) == [] ==> t.missed == s.missed) && t.bitmaps.Keys <= s.bitmaps.Keys + {Frozen(id)}
    && (ok ==>
          && t.clock.turn == s.clock.turn + 1 && Active in s.bitmaps && Frozen(id) !in s.bitmaps
          && t.bitmaps.Keys == s.bitmaps.Keys + {Frozen(id)}
          && t.bitmaps[Active] == Bitmap(g, false, s.bitmaps[Active].dirty)
          && t.bitmaps[Frozen(id)] == Bitmap(g, true, {}))
  }

  ghost predicate MergedIn(g: nat, guest: Script, s: Moment, id: Uuid, ok: bool, t: Moment)
    requires g > 0
  {
    && Quietly(guest, s, t) && t.clock.turn == s.clock.turn + 1 && Swapping(g, s, id)
    && (ok ==>
          && t.bitmaps[Active] == s.bitmaps[Active]
          && t.bitmaps[Frozen(id)] == Bitmap(g, true, s.bitmaps[Active].dirty + BlocksOf(guest(s.clock.turn), g)))
  }

  ghost predicate ClearedOut(g: nat, guest: Script, s: Moment, id: Uuid, ok: bool, t: Moment)
    requires g > 0
  {
    && Quietly(guest, s, t.(held := s.held)) && t.clock.turn == s.clock.turn + 1 && Swapping(g, s, id)
    && (ok ==>
          && t.held == [] && t.bitmaps[Active] == Bitmap(g, false, {})
          && t.bitmaps[Frozen(id)] == Bitmap(g, true, s.bitmaps[Frozen(id)].dirty + BlocksOf(guest(s.clock.turn), g)))
  }

  ghost predicate Cleared(g: nat, guest: Script, s: Moment, id: Uuid, ok: bool, t: Moment)
    requires g > 0
  {
    && Quietly(guest, s, t.(held := s.held)) && Swapping(g, s, id)
    && (ok ==>
          && t.clock.turn == s.clock.turn + 2 && t.held == [] && t.bitmaps[Active] == Bitmap(g, false, {})
          && t.bitmaps[Frozen(id)] ==
               Bitmap(g, true, s.bitmaps[Active].dirty + BlocksOf(Said(guest, s.clock.turn, t.clock.turn), g)))
  }

  ghost predicate Switched(g: nat, guest: Script, s: Moment, id: Uuid, ok: bool, t: Moment)
    requires g > 0
  {
    && Quietly(guest, s, t.(steady := false)) && t.clock.turn == s.clock.turn + 1 && Swapping(g, s, id)
    && (t.steady <==> ok && t.clock.since == [])
    && (ok ==>
          && t.bitmaps[Active] == Bitmap(g, true, {})
          && t.bitmaps[Frozen(id)] == Bitmap(g, true, s.bitmaps[Frozen(id)].dirty + BlocksOf(guest(s.clock.turn), g)))
  }

  ghost predicate Swapped(g: nat, guest: Script, s: Moment, id: Uuid, ok: bool, t: Moment)
    requires g > 0
  {
    && Passed(guest, s.clock, t.clock) && (t.steady <==> ok && t.clock.since == [])
    && (guest(s.clock.turn) == [] ==> t.missed == s.missed) && t.bitmaps.Keys <= s.bitmaps.Keys + {Frozen(id)}
    && (ok ==>
          && t.clock.turn == s.clock.turn + 4 && Active in s.bitmaps && t.bitmaps.Keys == s.bitmaps.Keys + {Frozen(id)}
          && t.held == [] && t.bitmaps[Active] == Bitmap(g, true, {})
          && t.bitmaps[Frozen(id)] ==
               Bitmap(g, true, s.bitmaps[Active].dirty + BlocksOf(Said(guest, s.clock.turn + 1, t.clock.turn), g)))
  }

  ghost predicate BothRecord(g: nat, s: Moment, id: Uuid) {
    && Active in s.bitmaps && s.bitmaps[Active].granularity == g && s.bitmaps[Active].recording
    && Frozen(id) in s.bitmaps && s.bitmaps[Frozen(id)].granularity == g && s.bitmaps[Frozen(id)].recording
  }

  ghost predicate HeardBoth(g: nat, guest: Script, s: Moment, id: Uuid, t: Moment)
    requires g > 0
  {
    && Passed(guest, s.clock, t.clock) && t.missed == s.missed && t.steady == s.steady
    && t.bitmaps.Keys == s.bitmaps.Keys
    && t.clock.turn == s.clock.turn + 1 && t.held == s.held + guest(s.clock.turn)
    && BothRecord(g, s, id) && BothRecord(g, t, id)
    && t.bitmaps[Frozen(id)].dirty == s.bitmaps[Frozen(id)].dirty + BlocksOf(guest(s.clock.turn), g)
  }

  ghost predicate Exported(g: nat, guest: Script, s: Moment, id: Uuid, ok: bool, t: Moment) {
    && Passed(guest, s.clock, t.clock) && t.missed == s.missed && t.steady == s.steady
    && t.bitmaps.Keys == s.bitmaps.Keys
    && BothRecord(g, s, id)
    && (ok ==>
          && t.clock.turn == s.clock.turn + 1 && t.held == s.held + guest(s.clock.turn)
          && t.bitmaps[Active].recording && t.bitmaps[Active].granularity == g
          && t.bitmaps[Frozen(id)] == Bitmap(g, false, s.bitmaps[Frozen(id)].dirty))
  }

  ghost predicate Saved(g: nat, guest: Script, s: Moment, id: Uuid, ok: bool, t: Moment)
    requires g > 0
  {
    && Passed(guest, s.clock, t.clock) && t.missed == s.missed && t.steady == s.steady
    && t.bitmaps.Keys == s.bitmaps.Keys
    && (ok ==>
          && t.clock.turn == s.clock.turn + 2 && t.held == Said(guest, s.clock.turn, t.clock.turn)
          && Active in t.bitmaps && t.bitmaps[Active] == Bitmap(g, true, BlocksOf(t.held, g))
          && Frozen(id) in s.bitmaps
          && t.bitmaps[Frozen(id)] == Bitmap(g, false, s.bitmaps[Frozen(id)].dirty + BlocksOf(guest(s.clock.turn), g)))
  }

  ghost predicate Frozenly(g: nat, guest: Script, s: Moment, id: Uuid, ok: bool, t: Moment)
    requires g > 0
  {
    && Passed(guest, s.clock, t.clock) && t.bitmaps.Keys <= s.bitmaps.Keys + {Frozen(id)}
    && (guest(s.clock.turn) == [] ==> t.missed == s.missed)
    && (ok ==>
          && t.clock.turn == s.clock.turn + 6 && Active in s.bitmaps && t.bitmaps.Keys == s.bitmaps.Keys + {Frozen(id)}
          && (s.clock.since + Said(guest, s.clock.turn, s.clock.turn + 4) == [] ==> t.steady)
          && t.held == Said(guest, s.clock.turn + 4, t.clock.turn)
          && t.bitmaps[Active] == Bitmap(g, true, BlocksOf(t.held, g))
          && t.bitmaps[Frozen(id)] ==
               Bitmap(g, false, s.bitmaps[Active].dirty + BlocksOf(Said(guest, s.clock.turn + 1, s.clock.turn + 5), g)))
  }

  ghost predicate CaptureTold(g: nat, guest: Script, s: Moment, id: Uuid, ok: bool, t: Moment)
    requires g > 0
  {
    && Passed(guest, s.clock, t.clock) && t.bitmaps.Keys <= s.bitmaps.Keys + {Frozen(id)}
    && (guest(s.clock.turn + 1) == [] && IsRecording(s.bitmaps) ==> t.missed == s.missed)
    && (ok ==> Captured(g, guest, s, id, t))
    && (ok && s.clock.since == [] && Said(guest, s.clock.turn, s.clock.turn + 5) == [] ==> t.steady)
  }

  class Node {
    const granularity: nat
    const guest: Script
    /** Every command, export and save that can go through does; otherwise each of them may fail. */
    const works: bool
    var content: Content
    var bitmaps: Bitmaps
    var turn: nat
    /** Writes made while a driver-owned bitmap recorded, and the others. */
    ghost var heard: seq<Write>
    ghost var missed: seq<Write>
    /** Writes `cbt-active` has heard since it was created or cleared. */
    ghost var held: seq<Write>
    /** Writes since the last ZFS snapshot, and whether each of them found `cbt-active` recording, past
        the capture. */
    ghost var since: seq<Write>
    ghost var steady: bool
    ghost var records: seq<Record>

    /** A qemu started on the device: no bitmap yet. */
    constructor (device: Content, blockSize: nat, reliable: bool, script: Script)
      requires blockSize > 0 && forall n :: Fits(script(n), |device|)
      ensures Valid() && granularity == blockSize && works == reliable && guest == script
      ensures Now() == Moment(Clock(device, 0, []), map[], [], [], false, [])
    {
      granularity, works, guest, content, bitmaps, turn := blockSize, reliable, script, device, map[], 0;
      heard, missed, held, since, steady, records := [], [], [], [], false, [];
    }

    ghost function Time(): Clock
      reads `content, `turn, `since
    {
      Clock(content, turn, since)
    }

    ghost function Now(): Moment
      reads this
    {
      Moment(Time(), bitmaps, held, missed, steady, records)
    }

    ghost predicate Valid()
      reads this
    {
      ValidAt(granularity, guest, Now(), heard)
    }

    predicate Recording()
      reads this
    {
      IsRecording(bitmaps)
    }

    // ----- the guest -----

    method GuestWrite(w: Write)
      requires Valid() && w.offset + |w.data| <= |content|
      modifies `content, `bitmaps, `heard, `missed, `held, `since, `steady
      ensures Valid() && AllWritten([w], old(Now()), Now())
      ensures heard == old(heard) + if SomeRecording(old(bitmaps)) then [w] else []
    {
      hide ValidAt, SomeRecording, Recorded;
      assert Patched(content, w) == Written(content, [w]) by {
        OneWrite(content, w);
      }
      ghost var begun, recording, some := Now(), Recording(), SomeRecording(bitmaps);
      content := Patched(content, w);
      bitmaps := Recorded(bitmaps, [w]);
      since := since + [w];
      steady := steady && recording;
      held := held + if recording then [w] else [];
      missed := missed + if some then [] else [w];
      WriteKeepsValid(granularity, guest, begun, heard, w, Now());
      heard := heard + if some then [w] else [];
    }

    /** The guest's turn. */
    method Guest()
      requires Valid()
      modifies `content, `bitmaps, `turn, `heard, `missed, `held, `since, `steady
      ensures Valid() && Turned(guest, old(Now()), Now())
      ensures heard == old(heard) + if SomeRecording(old(bitmaps)) then guest(old(turn)) else []
    {
      var ws := guest(turn);
      assert Fits(ws, |content|);
      hide Valid, AllWritten, Turned, Fits, SomeRecording;
      ghost var begun := Now();
      WriteAll(ws);
      ghost var written := Now();
      turn := turn + 1;
      TurnOver(guest, begun, written, Now());
    }

    method WriteAll(ws: seq<Write>)
      requires Valid() && Fits(ws, |content|)
      modifies `content, `bitmaps, `heard, `missed, `held, `since, `steady
      ensures Valid() && AllWritten(ws, old(Now()), Now())
      ensures heard == old(heard) + if SomeRecording(old(bitmaps)) then ws else []
    {
      hide ValidAt, Recorded, SomeRecording, Written, BlocksOf, IsRecording;
      NothingHappened(content, bitmaps);
      for i := 0 to |ws|
        invariant Valid() && |content| == |old(content)|
        invariant content == Written(old(content), ws[..i]) && since == old(since) + ws[..i]
        invariant bitmaps == Recorded(old(bitmaps), ws[..i])
        invariant heard == old(heard) + if SomeRecording(old(bitmaps)) then ws[..i] else []
        invariant missed == old(missed) + if SomeRecording(old(bitmaps)) then [] else ws[..i]
        invariant held == old(held) + if old(Recording()) then ws[..i] else []
        invariant steady == (old(steady) && (i == 0 || old(Recording())))
      {
        assert ws[..i + 1] == ws[..i] + [ws[i]];
        OneWriteMore(old(content), old(bitmaps), ws[..i], ws[i]);
        RecordingStays(old(bitmaps), ws[..i]);
        GuestWrite(ws[i]);
      }
      assert ws[..|ws|] == ws;
    }

    // ----- bitmap commands -----

    method Disable(n: Name) returns (ok: bool)
      requires Valid()
      modifies `bitmaps
      ensures Valid()
      ensures ok ==> n in old(bitmaps) && bitmaps == old(bitmaps)[n := old(bitmaps)[n].(recording := false)]
      ensures !ok ==> bitmaps == old(bitmaps) && (works ==> n !in bitmaps)
    {
      ok := *;
      ok := (ok || works) && n in bitmaps;
      if ok {
        SwitchingConserves(bitmaps, granularity, heard, n, false);
        bitmaps := bitmaps[n := bitmaps[n].(recording := false)];
        RecordsStayOk(records, old(bitmaps), bitmaps, granularity);
      }
    }

    method EnableActive() returns (ok: bool)
      requires Valid()
      modifies `bitmaps
      ensures Valid()
      ensures ok ==>
                Active in old(bitmaps) && bitmaps == old(bitmaps)[Active := old(bitmaps)[Active].(recording := true)]
      ensures !ok ==> bitmaps == old(bitmaps) && (works ==> Active !in bitmaps)
    {
      ok := *;
      ok := (ok || works) && Active in bitmaps;
      if ok {
        SwitchingConserves(bitmaps, granularity, heard, Active, true);
        bitmaps := bitmaps[Active := bitmaps[Active].(recording := true)];
        RecordsStayOk(records, old(bitmaps), bitmaps, granularity);
      }
    }

    /** A new bitmap records from the start. */
    method Add(n: Name, g: nat) returns (ok: bool)
      requires Valid() && g == granularity
      modifies `bitmaps, `held
      ensures Valid()
      ensures ok ==> n !in old(bitmaps) && bitmaps == old(bitmaps)[n := Bitmap(g, true, {})]
      ensures !ok ==> bitmaps == old(bitmaps) && (works ==> n in bitmaps)
      ensures held == if ok && n == Active then [] else old(held)
    {
      ok := *;
      ok := (ok || works) && n !in bitmaps;
      if ok {
        AddingConserves(bitmaps, granularity, heard, n);
        bitmaps := bitmaps[n := Bitmap(g, true, {})];
        held := if n == Active then [] else held;
        RecordsStayOk(records, old(bitmaps), bitmaps, granularity);
      }
    }

    method MergeActive(id: Uuid) returns (ok: bool)
      requires Valid() && (Frozen(id) in bitmaps ==> bitmaps[Frozen(id)].recording)
      modifies `bitmaps
      ensures Valid()
      ensures ok ==>
                && Active in old(bitmaps) && Frozen(id) in old(bitmaps)
                && var target := old(bitmaps)[Frozen(id)];
                   bitmaps == old(bitmaps)[Frozen(id) := target.(dirty := target.dirty + old(bitmaps)[Active].dirty)]
      ensures !ok ==> bitmaps == old(bitmaps) && (works ==> Active !in bitmaps || Frozen(id) !in bitmaps)
    {
      ok := *;
      ok := (ok || works) && Active in bitmaps && Frozen(id) in bitmaps;
      if ok {
        var target := bitmaps[Frozen(id)];
        MergingConserves(bitmaps, granularity, heard, Frozen(id), Active);
        bitmaps := bitmaps[Frozen(id) := target.(dirty := target.dirty + bitmaps[Active].dirty)];
        RecordsStayOk(records, old(bitmaps), bitmaps, granularity);
      }
    }

    /** Clearing `cbt-active` once all its bits have been merged elsewhere. */
    method ClearActive(ghost id: Uuid) returns (ok: bool)
      requires Valid() && Active in bitmaps && Frozen(id) in bitmaps
               && bitmaps[Active].dirty <= bitmaps[Frozen(id)].dirty
      requires !steady
      modifies `bitmaps, `held
      ensures Valid()
      ensures ok ==> bitmaps == old(bitmaps)[Active := old(bitmaps)[Active].(dirty := {})] && held == []
      ensures !ok ==> bitmaps == old(bitmaps) && held == old(held) && !works
    {
      ok := *;
      ok := ok || works;
      if ok {
        ghost var after := bitmaps[Active := bitmaps[Active].(dirty := {})];
        forall b | b in bitmaps[Active].dirty ensures Marked(after, b) {
          assert Frozen(id) in after && b in after[Frozen(id)].dirty;
        }
        ClearingConservesIff(bitmaps, granularity, heard, Active);
        bitmaps := bitmaps[Active := bitmaps[Active].(dirty := {})];
        held := [];
        RecordsStayOk(records, old(bitmaps), bitmaps, granularity);
      }
    }

    lemma InOrder()
      requires Valid()
      ensures RecordsOk(records, bitmaps, granularity) && Chained(records)
    {
    }

    lemma OneGranularity(n: Name)
      requires Valid() && Tracks(n)
      ensures n in bitmaps ==> bitmaps[n].granularity == granularity
      ensures Active in bitmaps ==> bitmaps[Active].dirty == BlocksOf(held, granularity)
    {
    }

    // ----- the capture at a snapshot -----

    /** What the capture needs to go through. */
    ghost predicate Ready(id: Uuid)
      reads this`bitmaps
    {
      Active in bitmaps && Frozen(id) !in bitmaps
    }

    /** Steps 1 and 2: `cbt-active` stops, the new bitmap starts; in between nothing may record. */
    method StopAndAdd(id: Uuid) returns (ok: bool)
      requires Valid() && !steady
      modifies `content, `bitmaps, `turn, `heard, `missed, `held, `since, `steady
      ensures Valid() && Added(granularity, guest, old(Now()), id, ok, Now())
      ensures works && old(Ready(id)) ==> ok
    {
      hide Valid, Said, Written, SomeRecording;
      NoTimePassed(guest, Time());
      OneGranularity(Active);
      ok := Disable(Active);
      if ok {
        Guest();
        ok := Add(Frozen(id), bitmaps[Active].granularity);
      }
    }

    /** Step 3: what `cbt-active` has is merged into the new bitmap. */
    method Merge(id: Uuid) returns (ok: bool)
      requires Valid() && !steady && Swapping(granularity, Now(), id) && bitmaps[Frozen(id)].dirty == {}
      modifies `content, `bitmaps, `turn, `heard, `missed, `held, `since, `steady
      ensures Valid() && MergedIn(granularity, guest, old(Now()), id, ok, Now())
      ensures works ==> ok
    {
      assert granularity > 0;
      hide Valid, Turned, MergedIn, Swapping, Quietly;
      ghost var begun := Now();
      Guest();
      ghost var half := Now();
      TurnedSwapping(granularity, guest, begun, id, half);
      ok := MergeActive(id);
      MergeTold(granularity, guest, begun, half, id, ok, Now());
    }

    /** Step 4, after which all of it is only there. */
    method Clear(id: Uuid) returns (ok: bool)
      requires Valid() && !steady && Swapping(granularity, Now(), id)
               && bitmaps[Active].dirty <= bitmaps[Frozen(id)].dirty
      modifies `content, `bitmaps, `turn, `heard, `missed, `held, `since, `steady
      ensures Valid() && ClearedOut(granularity, guest, old(Now()), id, ok, Now())
      ensures works ==> ok
    {
      assert granularity > 0;
      hide Valid, Turned, ClearedOut, Swapping, Quietly;
      ghost var begun := Now();
      Guest();
      ghost var half := Now();
      TurnedSwapping(granularity, guest, begun, id, half);
      ok := ClearActive(id);
      ClearTold(granularity, guest, begun, half, id, ok, Now());
    }

    /** Steps 3 and 4: what `cbt-active` has is merged into the new bitmap before it is cleared. */
    method MergeAndClear(id: Uuid) returns (ok: bool)
      requires Valid() && !steady && Swapping(granularity, Now(), id) && bitmaps[Frozen(id)].dirty == {}
      modifies `content, `bitmaps, `turn, `heard, `missed, `held, `since, `steady
      ensures Valid() && Cleared(granularity, guest, old(Now()), id, ok, Now())
      ensures works ==> ok
    {
      assert granularity > 0;
      hide Valid, Swapping, MergedIn, ClearedOut, Cleared;
      ghost var begun := Now();
      ok := Merge(id);
      ghost var half := Now();
      MergedMeans(granularity, guest, begun, id, ok, half);
      if ok {
        ok := Clear(id);
        ClearEnds(granularity, guest, begun, half, id, ok, Now());
      }
    }

    /** Step 5: `cbt-active` records again; until it does, the new bitmap hears the guest. */
    method SwitchOn(id: Uuid) returns (ok: bool)
      requires Valid() && !steady && Swapping(granularity, Now(), id) && bitmaps[Active].dirty == {} && held == []
      modifies `content, `bitmaps, `turn, `heard, `missed, `held, `since, `steady
      ensures Valid() && Switched(granularity, guest, old(Now()), id, ok, Now())
      ensures works ==> ok
    {
      assert granularity > 0;
      hide Valid, Turned, Switched, Swapping, Quietly;
      ghost var begun := Now();
      Guest();
      ghost var half := Now();
      TurnedSwapping(granularity, guest, begun, id, half);
      ok := EnableActive();
      Steady(ok && since == []);
      SwitchTold(granularity, guest, begun, half, id, ok, Now());
    }

    ghost method Steady(now: bool)
      requires Valid() && (now ==> Active in bitmaps && since == [])
      modifies `steady
      ensures Valid() && steady == now
    {
      NoBlocks(granularity);
      steady := now;
    }

    /** The five steps. Afterwards the frozen bitmap has all `cbt-active` had, and what the guest wrote
        from its creation on; only writes between steps 1 and 2 can be missed. */
    method Swap(id: Uuid) returns (ok: bool)
      requires Valid() && !steady
      modifies `content, `bitmaps, `turn, `heard, `missed, `held, `since, `steady
      ensures Valid() && Swapped(granularity, guest, old(Now()), id, ok, Now())
      ensures works && old(Ready(id)) ==> ok
    {
      assert granularity > 0;
      hide Valid, Added, Cleared, Switched, Swapped, Swapping;
      ghost var begun := Now();
      ok := StopAndAdd(id);
      ghost var added := Now();
      AddedMeans(granularity, guest, begun, id, ok, added);
      if ok {
        ok := MergeAndClear(id);
        ghost var cleared := Now();
        ClearedMeans(granularity, guest, begun, added, id, ok, cleared);
        if ok {
          ok := SwitchOn(id);
          SwapEnds(granularity, guest, begun, added, cleared, id, ok, Now());
        }
      }
    }

    /** `export_bitmap`: the bitmap is stopped and keeps its bits, then it is exported. */
    method Export(n: Name) returns (saved: Option<nat>)
      requires Valid()
      modifies `content, `bitmaps, `turn, `heard, `missed, `held, `since, `steady
      ensures Valid() && Passed(guest, old(Time()), Time())
      ensures turn == old(turn) || (turn == old(turn) + 1 && n in old(bitmaps))
      ensures bitmaps == if turn == old(turn) then old(bitmaps) else Stopped(old(bitmaps), n, guest(old(turn)))
      ensures held == old(held) + if turn > old(turn) && IsRecording(bitmaps) then guest(old(turn)) else []
      ensures saved.Some? ==> turn == old(turn) + 1 && saved.value == old(bitmaps)[n].granularity
      ensures works && n in old(bitmaps) ==> saved.Some?
      ensures steady ==> old(steady)
      ensures n != Active && old(Recording()) ==> missed == old(missed) && steady == old(steady) && Recording()
    {
      hide Valid, Said, Written, SomeRecording;
      NoTimePassed(guest, Time());
      ghost var begun := Now();
      saved := None;
      var ok := Disable(n);
      if ok {
        if n != Active && Recording() {
          KeepsRecording(bitmaps, Active);
        }
        RecordingStays(bitmaps, guest(turn));
        Guest();
          ok := *;
        saved := if ok || works then Some(bitmaps[n].granularity) else None;
      }
    }

    /** Both bitmaps hear the guest. */
    method HearBoth(id: Uuid)
      requires Valid() && BothRecord(granularity, Now(), id)
      modifies `content, `bitmaps, `turn, `heard, `missed, `held, `since, `steady
      ensures Valid() && HeardBoth(granularity, guest, old(Now()), id, Now())
    {
      assert granularity > 0;
      hide Valid, Turned, HeardBoth;
      ghost var begun := Now();
      Guest();
      HeardTold(granularity, guest, begun, id, Now());
    }

    /** The frozen bitmap is stopped, exported and saved, while `cbt-active` hears the guest. */
    method ExportFrozen(id: Uuid) returns (persisted: bool)
      requires Valid() && BothRecord(granularity, Now(), id)
      modifies `content, `bitmaps, `turn, `heard, `missed, `held, `since, `steady
      ensures Valid() && Exported(granularity, guest, old(Now()), id, persisted, Now())
      ensures works ==> persisted
    {
      assert granularity > 0;
      hide Valid, BlocksOf, Passed, Recorded;
      ghost var stopped := bitmaps[Frozen(id) := bitmaps[Frozen(id)].(recording := false)];
      HearsNothing(stopped, guest(turn), Frozen(id));
      HearsAll(stopped, guest(turn), Active);
      var saved := Export(Frozen(id));
      var written: bool := *;
      persisted := saved.Some? && (written || works);
    }

    /** From the restart of `cbt-active` on: first both bitmaps hear the guest, then only `cbt-active`. */
    method Save(id: Uuid) returns (persisted: bool)
      requires Valid() && BothRecord(granularity, Now(), id) && held == []
      modifies `content, `bitmaps, `turn, `heard, `missed, `held, `since, `steady
      ensures Valid() && Saved(granularity, guest, old(Now()), id, persisted, Now())
      ensures works ==> persisted
    {
      assert granularity > 0;
      hide Valid, BothRecord, HeardBoth, Exported, Saved;
      ghost var begun := Now();
      HearBoth(id);
      ghost var half := Now();
      HeardBothMeans(granularity, guest, begun, id, half);
      persisted := ExportFrozen(id);
      OneGranularity(Active);
      SaveEnds(granularity, guest, begun, half, id, persisted, Now());
    }

    /** `_cbt_capture_at_snapshot`. Nothing `cbt-active` had or the guest writes is lost to the union of
        the frozen bitmaps and `cbt-active`, but for writes in the second turn. The frozen bitmap gets
        exactly the blocks `cbt-active` had and those kept. */
    method Capture(id: Uuid) returns (persisted: bool)
      requires Valid() && !steady
      modifies `content, `bitmaps, `turn, `heard, `missed, `held, `since, `steady
      ensures Valid() && CaptureTold(granularity, guest, old(Now()), id, persisted, Now())
      ensures works && old(Ready(id)) ==> persisted
    {
      assert granularity > 0;
      OneGranularity(Active);
      hide Valid, Turned, Captured, CaptureTold, Frozenly, Said;
      ghost var begun := Now();
      Guest();
      ghost var late := Now();
      LateTold(granularity, guest, begun, id, late);
      persisted := Active in bitmaps;
      if persisted {
        persisted := SwapAndSave(id);
        CaptureEnds(granularity, guest, begun, late, id, persisted, Now());
      }
    }

    /** The part of the capture that acts. */
    method SwapAndSave(id: Uuid) returns (persisted: bool)
      requires Valid() && !steady && Active in bitmaps
      modifies `content, `bitmaps, `turn, `heard, `missed, `held, `since, `steady
      ensures Valid() && Frozenly(granularity, guest, old(Now()), id, persisted, Now())
      ensures works && old(Ready(id)) ==> persisted
    {
      assert granularity > 0;
      hide Valid, Swapped, Saved, BothRecord, Frozenly;
      ghost var begun := Now();
      persisted := Swap(id);
      ghost var swapped := Now();
      SwappedMeans(granularity, guest, begun, id, persisted, swapped);
      if persisted {
        persisted := Save(id);
        SavedMeans(granularity, guest, begun, swapped, id, persisted, Now());
      }
    }

    /** The part of `Volume.snapshot` that concerns tracking: the ZFS snapshot, then the capture. */
    method Snapshot(id: Uuid) returns (persisted: bool)
      requires Valid()
      modifies this
      ensures Valid() && Took(granularity, guest, old(Now()), id, persisted, Now())
      ensures works && old(Ready(id)) ==> persisted
    {
      assert granularity > 0;
      hide Valid, CaptureTold, Took, Kept, BlocksOf;
      ghost var begun := Now();
      ghost var taken := Take(id);
      ghost var half := Now();
      persisted := Capture(id);
      ghost var last := Now();
      ghost var had := if persisted then begun.held + Kept(guest, begun) else begun.held;
      CapturedFrozen(granularity, guest, begun, half, id, persisted, last);
      if persisted {
        Persisted(taken, had);
      }
      TookIt(granularity, guest, begun, half, id, persisted, last, Now());
    }

    /** The moment of the ZFS snapshot. */
    ghost method Take(id: Uuid) returns (taken: Record)
      requires Valid()
      modifies `records, `since, `steady
      ensures Valid() && taken == Record(id, content, old(since), held, old(steady), false)
      ensures records == old(records) + [taken] && since == [] && !steady
    {
      taken := Record(id, content, since, held, steady, false);
      TakenIsChained(records, since, taken);
      records := records + [taken];
      since, steady := [], false;
    }

    ghost method Persisted(taken: Record, had: seq<Write>)
      requires Valid() && records != [] && records[|records| - 1] == taken && taken.had <= had
      requires Frozen(taken.id) in bitmaps
               && bitmaps[Frozen(taken.id)] == Bitmap(granularity, false, BlocksOf(had, granularity))
      modifies `records
      ensures Valid() && records == old(records)[..|old(records)| - 1] + [taken.(had := had, persisted := true)]
    {
      var now := taken.(had := had, persisted := true);
      assert had == taken.had + had[|taken.had|..];
      BlocksOfConcat(taken.had, had[|taken.had|..], granularity);
      assert RecordOk(taken, bitmaps, granularity);
      StillChained(records, now);
      records := records[..|records| - 1] + [now];
    }

    // ----- deactivate and activate -----

    /** `_cbt_persist_on_deactivate`: `cbt-active` is frozen and its granularity remembered. */
    method Deactivate() returns (saved: Option<nat>)
      requires Valid()
      modifies `content, `bitmaps, `turn, `heard, `missed, `held, `since, `steady
      ensures Valid() && Passed(guest, old(Time()), Time()) && held == old(held)
      ensures saved.Some? ==> turn == old(turn) + 1 && saved.value == granularity
      ensures if turn == old(turn) then bitmaps == old(bitmaps)
              else Active in old(bitmaps) && bitmaps == Stopped(old(bitmaps), Active, guest(old(turn)))
      ensures works && Active in old(bitmaps) ==> saved.Some?
    {
      NoTimePassed(guest, Time());
      OneGranularity(Active);
      hide Valid, Passed;
      saved := None;
      if Active in bitmaps {
        saved := Export(Active);
      }
    }

    /** `_cbt_restore_on_activate`. A `cbt-active` of the saved granularity is left alone, even a stopped
        one: tracking runs afterwards exactly if it did before, or there was no such bitmap. */
    method Activate(saved: Option<nat>) returns (ok: bool)
      requires Valid()
      modifies `bitmaps, `held
      ensures saved.None? || saved == Some(granularity) ==> Valid()
      ensures saved.None? ==> ok && bitmaps == old(bitmaps)
      ensures ok && saved.Some? ==> bitmaps == old(bitmaps)[Active := Prepared(old(bitmaps), saved.value)]
      ensures held == if ok && saved.Some? && !Fitting(old(bitmaps), saved.value) then [] else old(held)
      ensures !ok ==> bitmaps == old(bitmaps) || bitmaps == old(bitmaps) - {Active}
      ensures saved.Some? && Fitting(old(bitmaps), saved.value) ==> ok
      ensures works ==> ok
      ensures ok && saved.Some? ==> (Recording() <==> old(Recording()) || !Fitting(old(bitmaps), saved.value))
    {
      ok := true;
      if saved.None? || Fitting(bitmaps, saved.value) {
        return;
      }
      var removed: bool := *;
      if Active in bitmaps {
        if !removed && !works {
          return false;
        }
        bitmaps := bitmaps - {Active};
      }
      ok := *;
      ok := ok || works;
      if ok {
        bitmaps := bitmaps[Active := Bitmap(saved.value, true, {})];
        held := [];
        if saved.value == granularity {
          AddingConserves(old(bitmaps), granularity, heard, Active);
          RecordsStayOk(records, old(bitmaps), bitmaps, granularity);
        }
      }
    }

    /** Deactivating and activating again on the same qemu leaves tracking off, if it saves anything, which
        it does if the commands go through. */
    method Bounce() returns (saved: Option<nat>, ok: bool)
      requires Valid()
      modifies `content, `bitmaps, `turn, `heard, `missed, `held, `since, `steady
      ensures Valid() && ok
      ensures saved.Some? ==> Active in bitmaps && !Recording()
      ensures works && Active in old(bitmaps) ==> saved.Some?
    {
      saved := Deactivate();
      hide Valid;
      RecordingStays(bitmaps, guest(turn));
      Guest();
      OneGranularity(Active);
      ok := Activate(saved);
    }
  }

  // ----- whole lives -----

  datatype Op = Enables | GuestWrites | TakeSnapshot(id: Uuid) | Deactivates | Activates

  /** The node, and the granularity saved at the last deactivation. */
  datatype Stage = Stage(node: Moment, saved: Option<nat>)

  /** Nothing but the bitmaps differs, and what `cbt-active` holds. */
  ghost predicate OnlyBitmaps(s: Stage, t: Stage) {
    t == s.(node := s.node.(bitmaps := t.node.bitmaps, held := t.node.held))
  }

  /** The operation `op` leads from `s` to `t`; `ok` tells whether it went through. */
  ghost predicate Lived(g: nat, guest: Script, works: bool, s: Stage, op: Op, ok: bool, t: Stage)
    requires g > 0
  {
    var m, n := s.node, t.node;
    match op
    case Enables =>
      && OnlyBitmaps(s, t) && (works && Active !in m.bitmaps ==> ok)
      && (if ok then Active !in m.bitmaps && n.bitmaps == m.bitmaps[Active := Bitmap(g, true, {})] && n.held == []
          else t == s)
    case GuestWrites =>
      && ok && t.saved == s.saved && n.records == m.records
      && n.clock.turn == m.clock.turn + 1 && Passed(guest, m.clock, n.clock)
      && n.bitmaps == Recorded(m.bitmaps, guest(m.clock.turn))
      && n.held == m.held + if IsRecording(m.bitmaps) then guest(m.clock.turn) else []
    case TakeSnapshot(id) =>
      && t.saved == s.saved && Took(g, guest, m, id, ok, n)
      && (works && Active in m.bitmaps && Frozen(id) !in m.bitmaps ==> ok)
    case Deactivates =>
      && n.records == m.records && n.held == m.held && Passed(guest, m.clock, n.clock)
      && (works && Active in m.bitmaps ==> ok)
      && (if ok then t.saved == Some(g) && Active in m.bitmaps
          && n.bitmaps == Stopped(m.bitmaps, Active, guest(m.clock.turn))
          else t.saved == s.saved && n.bitmaps.Keys == m.bitmaps.Keys)
    case Activates =>
      && OnlyBitmaps(s, t) && (works ==> ok)
      && (if s.saved.None? || Fitting(m.bitmaps, s.saved.value) then ok && n.bitmaps == m.bitmaps && n.held == m.held
          else if ok then n.bitmaps == m.bitmaps[Active := Bitmap(s.saved.value, true, {})] && n.held == []
          else n.bitmaps == m.bitmaps || n.bitmaps == m.bitmaps - {Active})
  }

  /** `seen` are the stages between the operations. */
  ghost predicate Life(g: nat, guest: Script, works: bool, ops: seq<Op>, oks: seq<bool>, seen: seq<Stage>)
    requires g > 0
  {
    && |oks| == |ops| && |seen| == |ops| + 1
    && forall i :: 0 <= i < |ops| ==> Lived(g, guest, works, seen[i], ops[i], oks[i], seen[i + 1])
  }

  /** One operation. */
  method LiveOn(node: Node, op: Op, saved: Option<nat>) returns (ok: bool, saved': Option<nat>)
    requires node.Valid() && (saved.None? || saved == Some(node.granularity))
    modifies node
    ensures node.Valid() && (saved'.None? || saved' == Some(node.granularity))
    ensures Lived(node.granularity, node.guest, node.works, Stage(old(node.Now()), saved), op, ok,
                  Stage(node.Now(), saved'))
  {
    assert node.granularity > 0;
    hide Node.Valid, Passed, Recorded, Took, BlocksOf;
    saved' := saved;
    match op {
      case Enables =>
        ok := node.Add(Active, node.granularity);
      case GuestWrites =>
        node.Guest();
        ok := true;
      case TakeSnapshot(id) =>
        ok := node.Snapshot(id);
      case Deactivates =>
        var exported := node.Deactivate();
        ok := exported.Some?;
        saved' := if ok then exported else saved;
      case Activates =>
        ok := node.Activate(saved);
    }
  }

  lemma LifeGoesOn(g: nat, guest: Script, works: bool, ops: seq<Op>, oks: seq<bool>, seen: seq<Stage>, op: Op, ok: bool,
                   t: Stage)
    requires g > 0 && Life(g, guest, works, ops, oks, seen) && Lived(g, guest, works, seen[|ops|], op, ok, t)
    ensures Life(g, guest, works, ops + [op], oks + [ok], seen + [t])
  {
    hide Lived;
    var ops', oks', seen' := ops + [op], oks + [ok], seen + [t];
    forall i | 0 <= i < |ops'| ensures Lived(g, guest, works, seen'[i], ops'[i], oks'[i], seen'[i + 1]) {
      if i < |ops| {
        assert Lived(g, guest, works, seen[i], ops[i], oks[i], seen[i + 1]);
        assert seen'[i] == seen[i] && seen'[i + 1] == seen[i + 1];
      }
    }
  }

  /** A whole life of the node, told operation by operation. At its end every persisted bitmap can still be
      read, and its delta is sound exactly if it heard of every block written in between. */
  method Live(node: Node, ops: seq<Op>) returns (oks: seq<bool>, ghost seen: seq<Stage>)
    requires node.Valid()
    modifies node
    ensures node.Valid() && Life(node.granularity, node.guest, node.works, ops, oks, seen)
    ensures seen[0].node == old(node.Now()) && seen[|ops|].node == node.Now() && seen[0].saved == None
    ensures AllDeltasExact(node.records, node.bitmaps, node.granularity)
    ensures forall j :: 0 <= j < |node.records| && node.records[j].steady ==> Told(node.records[j], node.granularity)
  {
    assert node.granularity > 0;
    var saved: Option<nat> := None;
    oks, seen := [], [Stage(node.Now(), None)];
    for i := 0 to |ops|
      invariant node.Valid() && (saved.None? || saved == Some(node.granularity))
      invariant Life(node.granularity, node.guest, node.works, ops[..i], oks, seen)
      invariant seen[0] == Stage(old(node.Now()), None) && seen[i] == Stage(node.Now(), saved)
    {
      hide Node.Valid, Lived, Life;
      assert ops[..i + 1] == ops[..i] + [ops[i]];
      var ok;
      ok, saved := LiveOn(node, ops[i], saved);
      LifeGoesOn(node.granularity, node.guest, node.works, ops[..i], oks, seen, ops[i], ok, Stage(node.Now(), saved));
      oks, seen := oks + [ok], seen + [Stage(node.Now(), saved)];
    }
    assert ops[..|ops|] == ops;
    DeltasExact(node.records, node.bitmaps, node.granularity);
  }

  // ----- between two snapshots -----

  /** From the stage after the capture of a snapshot taken at `turn`, while the guest goes on writing. */
  ghost predicate Between(g: nat, guest: Script, turn: nat, m: Moment)
    requires g > 0
  {
    && turn + 7 <= m.clock.turn && IsRecording(m.bitmaps)
    && m.clock.since == Said(guest, turn, m.clock.turn) && m.held == Said(guest, turn + 5, m.clock.turn)
  }

  lemma BetweenGoesOn(g: nat, guest: Script, works: bool, turn: nat, s: Stage, ok: bool, t: Stage)
    requires g > 0 && Between(g, guest, turn, s.node) && Lived(g, guest, works, s, GuestWrites, ok, t)
    ensures Between(g, guest, turn, t.node)
  {
    SaidOnce(guest, s.node.clock.turn);
    SaidSplit(guest, turn, s.node.clock.turn, t.node.clock.turn);
    SaidSplit(guest, turn + 5, s.node.clock.turn, t.node.clock.turn);
    RecordingStays(s.node.bitmaps, guest(s.node.clock.turn));
  }

  /** Two captured snapshots of any life with nothing but guest writes between them, at the turns `t` and
      `u` of the guest. All writes from `t` on, before `u`, lie between them. What the second bitmap has
      heard of is what the guest wrote from its sixth turn after the first snapshot on, to the first turn
      after the second snapshot, and from the third to the sixth after it. */
  lemma NextRecord(g: nat, guest: Script, works: bool, ops: seq<Op>, oks: seq<bool>, seen: seq<Stage>, i: nat, j: nat)
    requires g > 0 && Life(g, guest, works, ops, oks, seen) && i < j < |ops|
    requires ops[i].TakeSnapshot? && oks[i] && ops[j].TakeSnapshot? && oks[j]
    requires forall k :: i < k < j ==> ops[k] == GuestWrites
    ensures var t, u := seen[i].node.clock.turn, seen[j].node.clock.turn;
            && t + 7 <= u && seen[j].node.records == seen[i + 1].node.records
            && var r := seen[j + 1].node.records[|seen[j].node.records|];
               && r.between == Said(guest, t, u)
               && r.had == Said(guest, t + 5, u + 1) + Said(guest, u + 2, u + 6)
  {
    hide Said, Passed, BlocksOf;
    var t := seen[i].node.clock.turn;
    assert Lived(g, guest, works, seen[i], ops[i], oks[i], seen[i + 1]);
    AfterCapture(g, guest, seen[i].node, ops[i].id, seen[i + 1].node);
    for k := i + 1 to j
      invariant Between(g, guest, t, seen[k].node) && seen[k].node.records == seen[i + 1].node.records
    {
      assert Lived(g, guest, works, seen[k], ops[k], oks[k], seen[k + 1]);
      BetweenGoesOn(g, guest, works, t, seen[k], oks[k], seen[k + 1]);
    }
    assert Lived(g, guest, works, seen[j], ops[j], oks[j], seen[j + 1]);
    var u := seen[j].node.clock.turn;
    SaidOnce(guest, u);
    SaidSplit(guest, t + 5, u, u + 1);
  }

  lemma AfterCapture(g: nat, guest: Script, s: Moment, id: Uuid, t: Moment)
    requires g > 0 && Took(g, guest, s, id, true, t)
    ensures Between(g, guest, s.clock.turn, t)
  {
  }

  /** The delta at the second of two such snapshots is sound, whatever the data, exactly if every block
      written between the first snapshot and the restart of `cbt-active` was written again later: before
      the second snapshot, or in time for its bitmap. */
  predicate LateAgain(guest: Script, t: nat, u: nat, g: nat)
    requires g > 0 && t + 7 <= u
  {
    BlocksOf(Said(guest, t, t + 5), g) <= BlocksOf(Said(guest, t + 5, u + 1) + Said(guest, u + 2, u + 6), g)
  }

  lemma ToldIffLateAgain(r: Record, guest: Script, t: nat, u: nat, g: nat)
    requires g > 0 && t + 7 <= u
    requires r.between == Said(guest, t, u) && r.had == Said(guest, t + 5, u + 1) + Said(guest, u + 2, u + 6)
    ensures Told(r, g) <==> LateAgain(guest, t, u, g)
  {
    hide BlocksOf;
    SaidSplit(guest, t, t + 5, u);
    SaidSplit(guest, t + 5, u, u + 1);
    BlocksOfConcat(Said(guest, t, t + 5), Said(guest, t + 5, u), g);
    BlocksOfConcat(Said(guest, t + 5, u), Said(guest, u, u + 1), g);
    BlocksOfConcat(Said(guest, t + 5, u + 1), Said(guest, u + 2, u + 6), g);
  }

  /** With working commands, nothing stops the life the documentation describes. */
  lemma AllGoThrough(g: nat, guest: Script, ops: seq<Op>, oks: seq<bool>, seen: seq<Stage>, first: Uuid, second: Uuid)
    requires g > 0 && Life(g, guest, true, ops, oks, seen) && first != second
    requires ops == [Enables, GuestWrites, TakeSnapshot(first), GuestWrites, TakeSnapshot(second)]
    requires seen[0].node.bitmaps == map[] && seen[0].node.records == []
    ensures oks == [true, true, true, true, true]
    ensures seen[2].node.clock.turn == seen[0].node.clock.turn + 1
            && seen[4].node.clock.turn == seen[0].node.clock.turn + 9
    ensures Passed(guest, seen[0].node.clock, seen[2].node.clock)
    ensures seen[2].node.records == [] && seen[3].node.records == [Taken(guest, seen[2].node, first, true)]
    ensures seen[5].node.records == seen[4].node.records + [Taken(guest, seen[4].node, second, true)]
  {
    hide Said, BlocksOf, Recorded;
    var a, b, c := seen[0], seen[1], seen[2];
    assert Lived(g, guest, true, a, Enables, oks[0], b);
    assert Lived(g, guest, true, b, GuestWrites, oks[1], c);
    RecordingStays(b.node.bitmaps, guest(b.node.clock.turn));
    assert c.node.bitmaps.Keys == {Active};
    assert Lived(g, guest, true, c, TakeSnapshot(first), oks[2], seen[3]);
    assert Lived(g, guest, true, seen[3], GuestWrites, oks[3], seen[4]);
    RecordingStays(seen[3].node.bitmaps, guest(seen[3].node.clock.turn));
    assert Lived(g, guest, true, seen[4], TakeSnapshot(second), oks[4], seen[5]);
  }

  /** Of the records of such a life, which began at `s`, and the bitmaps at its end. */
  ghost predicate FirstDelta(g: nat, guest: Script, s: Moment, second: Uuid, rs: seq<Record>, bs: Bitmaps)
    requires g > 0
  {
    var t, u, size := s.clock.turn + 1, s.clock.turn + 9, |s.clock.content|;
    && |rs| == 2 && rs[0].persisted && rs[1].persisted && rs[1].id == second
    && Passed(guest, s.clock, Clock(rs[0].content, t, s.clock.since + Said(guest, s.clock.turn, t)))
    && Fits(Said(guest, t, u), |rs[0].content|) && rs[1].content == Written(rs[0].content, Said(guest, t, u))
    && Frozen(second) in bs
    && bs[Frozen(second)].dirty == BlocksOf(Said(guest, t + 5, u + 1) + Said(guest, u + 2, u + 6), g)
    && Fits(Said(guest, t, u), size)
    && (AlwaysSound(Said(guest, t, u), bs[Frozen(second)].dirty, g, size) <==> LateAgain(guest, t, u, g))
  }

  lemma FirstDeltaTold(g: nat, guest: Script, ops: seq<Op>, oks: seq<bool>, seen: seq<Stage>, first: Uuid, second: Uuid,
                       rs: seq<Record>, bs: Bitmaps)
    requires g > 0 && Life(g, guest, true, ops, oks, seen) && first != second
    requires ops == [Enables, GuestWrites, TakeSnapshot(first), GuestWrites, TakeSnapshot(second)]
    requires seen[0].node.bitmaps == map[] && seen[0].node.records == []
    requires rs == seen[5].node.records && AllDeltasExact(rs, bs, g) && Chained(rs) && RecordsOk(rs, bs, g)
    ensures FirstDelta(g, guest, seen[0].node, second, rs, bs)
  {
    assert |seen| == 6;
    hide FirstDelta, Said, Life, Passed, RecordsOk, Chained, AllDeltasExact;
    SecondRecord(g, guest, ops, oks, seen, first, second);
    FirstDeltaFrom(g, guest, seen[0].node, seen[2].node.clock, second, rs, bs);
  }

  lemma FirstDeltaFrom(g: nat, guest: Script, s: Moment, snapped: Clock, second: Uuid, rs: seq<Record>, bs: Bitmaps)
    requires g > 0 && |rs| == 2 && AllDeltasExact(rs, bs, g) && Chained(rs) && RecordsOk(rs, bs, g)
    requires rs[0].persisted && rs[1].persisted && rs[1].id == second && rs[0].content == snapped.content
    requires Passed(guest, s.clock, snapped) && snapped.turn == s.clock.turn + 1
    requires var t, u := s.clock.turn + 1, s.clock.turn + 9;
             rs[1].between == Said(guest, t, u) && rs[1].had == Said(guest, t + 5, u + 1) + Said(guest, u + 2, u + 6)
    ensures FirstDelta(g, guest, s, second, rs, bs)
  {
    hide Said, BlocksOf, AlwaysSound, LateAgain, Told, Written, Passed;
    ToldIffLateAgain(rs[1], guest, s.clock.turn + 1, s.clock.turn + 9, g);
    assert DeltaExact(rs[0], rs[1], bs, g) && Follows(rs[0], rs[1]) && RecordOk(rs[1], bs, g);
    SameSize(guest, s.clock, snapped);
  }

  lemma SameSize(guest: Script, s: Clock, t: Clock)
    requires Passed(guest, s, t)
    ensures |t.content| == |s.content| && t.since == s.since + Said(guest, s.turn, t.turn)
  {
  }

  lemma SecondRecord(g: nat, guest: Script, ops: seq<Op>, oks: seq<bool>, seen: seq<Stage>, first: Uuid, second: Uuid)
    requires g > 0 && Life(g, guest, true, ops, oks, seen) && first != second
    requires ops == [Enables, GuestWrites, TakeSnapshot(first), GuestWrites, TakeSnapshot(second)]
    requires seen[0].node.bitmaps == map[] && seen[0].node.records == []
    ensures var rs, t, u := seen[5].node.records, seen[0].node.clock.turn + 1, seen[0].node.clock.turn + 9;
            && |rs| == 2 && rs[0].persisted && rs[1].persisted && rs[1].id == second
            && seen[2].node.clock.turn == t && Passed(guest, seen[0].node.clock, seen[2].node.clock)
            && rs[0].content == seen[2].node.clock.content
            && rs[1].between == Said(guest, t, u) && rs[1].had == Said(guest, t + 5, u + 1) + Said(guest, u + 2, u + 6)
  {
    assert |seen| == 6;
    hide Said, Life, Passed;
    AllGoThrough(g, guest, ops, oks, seen, first, second);
    NextRecord(g, guest, true, ops, oks, seen, 2, 4);
  }

  /** The life the documentation describes: tracking is enabled on a fresh node, the guest writes, a
      snapshot is taken, the guest writes, another one is taken. If commands go through, both bitmaps are
      persisted, and the second one is sound exactly if what was written late, in the five turns after
      the first snapshot, was written again. */
  method FirstLife(node: Node, first: Uuid, second: Uuid)
    requires node.Valid() && node.works && node.bitmaps == map[] && node.records == [] && first != second
    modifies node
    ensures node.Valid() && FirstDelta(node.granularity, node.guest, old(node.Now()), second, node.records,
                                       node.bitmaps)
  {
    assert node.granularity > 0;
    hide FirstDelta, Life, AllDeltasExact, Node.Valid;
    var ops := [Enables, GuestWrites, TakeSnapshot(first), GuestWrites, TakeSnapshot(second)];
    var oks;
    ghost var seen;
    oks, seen := Live(node, ops);
    node.InOrder();
    FirstDeltaTold(node.granularity, node.guest, ops, oks, seen, first, second, node.records, node.bitmaps);
  }

  /** A guest that writes one byte right after the first snapshot, and nothing else. */
  function LateByte(): Script {
    n => if n == 1 then [Write(0, [1])] else []
  }

  /** The two snapshots differ in that byte, everything works, and the second bitmap is empty. */
  method UnsoundLife() returns (node: Node)
    ensures node.Valid() && node.works && node.granularity == 1
    ensures |node.records| == 2 && node.records[0].content == [0] && node.records[1].content == [1]
            && node.records[1].persisted
    ensures Frozen(node.records[1].id) in node.bitmaps && node.bitmaps[Frozen(node.records[1].id)].dirty == {}
    ensures !DeltaSound(node.records[0].content, node.records[1].content, {}, 1)
  {
    node := new Node([0], 1, true, LateByte());
    ghost var born := node.Now();
    hide Node.Valid, FirstDelta;
    FirstLife(node, 1, 2);
    LateByteLost(born, node.records, node.bitmaps);
  }

  lemma LateByteLost(s: Moment, rs: seq<Record>, bs: Bitmaps)
    requires s.clock == Clock([0], 0, []) && FirstDelta(1, LateByte(), s, 2, rs, bs)
    ensures rs[0].content == [0] && rs[1].content == [1] && bs[Frozen(2)].dirty == {} && !DeltaSound([0], [1], {}, 1)
  {
    hide FirstDelta, Said, Written, BlocksOf, DeltaSound, LateByte;
    WhatIsSaid();
    assert Said(LateByte(), 6, 10) + Said(LateByte(), 11, 15) == [];
    FirstDeltaMeans(s, rs, bs);
    NoBlocks(1);
    OneByteWritten();
    ByteDiffers();
  }

  lemma WhatIsSaid()
    ensures Said(LateByte(), 0, 1) == [] && Said(LateByte(), 1, 9) == [Write(0, [1])]
    ensures Said(LateByte(), 6, 10) == [] && Said(LateByte(), 11, 15) == []
  {
    hide Said;
    SaidOnce(LateByte(), 0);
    SaidOnce(LateByte(), 1);
    SaidSplit(LateByte(), 1, 2, 9);
    Silence(2, 9);
    Silence(6, 10);
    Silence(11, 15);
  }

  lemma OneByteWritten()
    ensures Written([0], []) == [0] && Written([0], [Write(0, [1])]) == [1]
  {
    assert [Write(0, [1])][..0] == [];
  }

  lemma ByteDiffers()
    ensures !DeltaSound([0], [1], {}, 1)
  {
    assert [0][0] != [1][0];
  }

  lemma FirstDeltaMeans(s: Moment, rs: seq<Record>, bs: Bitmaps)
    requires s.clock == Clock([0], 0, []) && FirstDelta(1, LateByte(), s, 2, rs, bs)
    ensures Fits(Said(LateByte(), 0, 1), 1) && rs[0].content == Written([0], Said(LateByte(), 0, 1))
    ensures Fits(Said(LateByte(), 1, 9), 1) && rs[1].content == Written(rs[0].content, Said(LateByte(), 1, 9))
    ensures bs[Frozen(2)].dirty == BlocksOf(Said(LateByte(), 6, 10) + Said(LateByte(), 11, 15), 1)
  {
    hide Said, Written, BlocksOf, AlwaysSound, LateAgain, LateByte;
  }

  lemma {:induction false} Silence(a: nat, b: nat)
    requires 2 <= a <= b
    ensures Said(LateByte(), a, b) == []
    decreases b
  {
    if a < b {
      Silence(a, b - 1);
    }
  }

  /** A bitmap of that granularity is there already. */
  predicate Fitting(bs: Bitmaps, granularity: nat) {
    Active in bs && bs[Active].granularity == granularity
  }

  /** `cbt-active` after `prepare_bitmap_from_payload`: the one that is there, if its granularity is right,
      else a new one. */
  function Prepared(bs: Bitmaps, granularity: nat): Bitmap {
    if Fitting(bs, granularity) then bs[Active] else Bitmap(granularity, true, {})
  }

  /** A bitmap stopped, and then the guest's writes. */
  function Stopped(bs: Bitmaps, n: Name, ws: seq<Write>): Bitmaps
    requires n in bs
  {
    Recorded(bs[n := bs[n].(recording := false)], ws)
  }

  lemma KeepsRecording(bs: Bitmaps, n: Name)
    requires n in bs && Tracks(n) && bs[n].recording
    ensures SomeRecording(bs)
  {
  }

  lemma BlocksOfTurn(guest: Script, a: nat, b: nat, g: nat)
    requires a <= b && g > 0
    ensures BlocksOf(Said(guest, a, b + 1), g) == BlocksOf(Said(guest, a, b), g) + BlocksOf(guest(b), g)
    ensures BlocksOf(Said(guest, a, a), g) == {}
  {
    BlocksOfConcat(Said(guest, a, b), guest(b), g);
  }

  lemma SaidTwice(guest: Script, a: nat)
    ensures Said(guest, a, a + 2) == guest(a) + guest(a + 1)
  {
    SaidOnce(guest, a);
  }

  lemma RecordsHear(rs: seq<Record>, bs: Bitmaps, ws: seq<Write>, g: nat)
    requires g > 0 && RecordsOk(rs, bs, g)
    ensures RecordsOk(rs, Recorded(bs, ws), g)
  {
    RecordsStayOk(rs, bs, Recorded(bs, ws), g);
  }

  lemma HearsAll(bs: Bitmaps, ws: seq<Write>, n: Name)
    requires n in bs && bs[n].recording && bs[n].granularity > 0
    ensures n in Recorded(bs, ws)
            && Recorded(bs, ws)[n] == bs[n].(dirty := bs[n].dirty + BlocksOf(ws, bs[n].granularity))
    ensures Recorded(bs, ws).Keys == bs.Keys
  {
  }

  lemma HearsNothing(bs: Bitmaps, ws: seq<Write>, n: Name)
    requires n in bs && !bs[n].recording
    ensures n in Recorded(bs, ws) && Recorded(bs, ws)[n] == bs[n] && Recorded(bs, ws).Keys == bs.Keys
  {
  }

  lemma NoBlocks(g: nat)
    requires g > 0
    ensures BlocksOf([], g) == {}
  {
  }

  lemma AddedMeans(g: nat, guest: Script, s: Moment, id: Uuid, ok: bool, t: Moment)
    requires g > 0 && Added(g, guest, s, id, ok, t)
    ensures !t.steady && (ok ==> Swapping(g, t, id) && t.bitmaps[Frozen(id)].dirty == {})
    ensures !ok ==> Swapped(g, guest, s, id, false, t)
  {
  }

  /** A turn of the guest between two steps. */
  lemma TurnedSwapping(g: nat, guest: Script, s: Moment, id: Uuid, t: Moment)
    requires g > 0 && Swapping(g, s, id) && !s.steady && Turned(guest, s, t)
    ensures Swapping(g, t, id) && Quietly(guest, s, t) && t.clock.turn == s.clock.turn + 1
    ensures Active in t.bitmaps && Frozen(id) in t.bitmaps
    ensures t.bitmaps[Active] == s.bitmaps[Active]
    ensures t.bitmaps[Frozen(id)] == Bitmap(g, true, s.bitmaps[Frozen(id)].dirty + BlocksOf(guest(s.clock.turn), g))
  {
    hide Passed, BlocksOf, SomeRecording, Recorded;
    KeepsRecording(s.bitmaps, Frozen(id));
    HearsAll(s.bitmaps, guest(s.clock.turn), Frozen(id));
    HearsNothing(s.bitmaps, guest(s.clock.turn), Active);
  }

  lemma MergeTold(g: nat, guest: Script, s: Moment, half: Moment, id: Uuid, ok: bool, t: Moment)
    requires g > 0 && Swapping(g, s, id) && s.bitmaps[Frozen(id)].dirty == {}
    requires Swapping(g, half, id) && Quietly(guest, s, half) && half.clock.turn == s.clock.turn + 1
    requires half.bitmaps[Active] == s.bitmaps[Active]
    requires half.bitmaps[Frozen(id)] == Bitmap(g, true, s.bitmaps[Frozen(id)].dirty + BlocksOf(guest(s.clock.turn), g))
    requires var target := half.bitmaps[Frozen(id)];
             var merged := target.(dirty := target.dirty + half.bitmaps[Active].dirty);
             t == half.(bitmaps := if ok then half.bitmaps[Frozen(id) := merged] else half.bitmaps)
    ensures MergedIn(g, guest, s, id, ok, t)
  {
    hide Passed, BlocksOf;
  }

  lemma ClearTold(g: nat, guest: Script, s: Moment, half: Moment, id: Uuid, ok: bool, t: Moment)
    requires g > 0 && Swapping(g, s, id)
    requires Swapping(g, half, id) && Quietly(guest, s, half) && half.clock.turn == s.clock.turn + 1
    requires half.bitmaps[Active] == s.bitmaps[Active]
    requires half.bitmaps[Frozen(id)] == Bitmap(g, true, s.bitmaps[Frozen(id)].dirty + BlocksOf(guest(s.clock.turn), g))
    requires var cleared := half.bitmaps[Active].(dirty := {});
             t == if ok then half.(bitmaps := half.bitmaps[Active := cleared], held := []) else half
    ensures ClearedOut(g, guest, s, id, ok, t)
  {
    hide Passed, BlocksOf;
  }

  lemma SwitchTold(g: nat, guest: Script, s: Moment, half: Moment, id: Uuid, ok: bool, t: Moment)
    requires g > 0 && Swapping(g, s, id) && s.bitmaps[Active].dirty == {}
    requires Swapping(g, half, id) && Quietly(guest, s, half) && half.clock.turn == s.clock.turn + 1
    requires half.bitmaps[Active] == s.bitmaps[Active]
    requires half.bitmaps[Frozen(id)] == Bitmap(g, true, s.bitmaps[Frozen(id)].dirty + BlocksOf(guest(s.clock.turn), g))
    requires t == half.(bitmaps := t.bitmaps, steady := ok && half.clock.since == [])
    requires t.bitmaps == if ok then half.bitmaps[Active := half.bitmaps[Active].(recording := true)] else half.bitmaps
    ensures Switched(g, guest, s, id, ok, t)
  {
    hide Passed, BlocksOf;
  }

  lemma MergedMeans(g: nat, guest: Script, s: Moment, id: Uuid, ok: bool, t: Moment)
    requires g > 0 && MergedIn(g, guest, s, id, ok, t)
    ensures !t.steady && (ok ==> Swapping(g, t, id) && t.bitmaps[Active].dirty <= t.bitmaps[Frozen(id)].dirty)
    ensures !ok ==> Cleared(g, guest, s, id, false, t)
  {
  }

  lemma ClearEnds(g: nat, guest: Script, s: Moment, half: Moment, id: Uuid, ok: bool, t: Moment)
    requires g > 0 && MergedIn(g, guest, s, id, true, half) && ClearedOut(g, guest, half, id, ok, t)
    ensures Cleared(g, guest, s, id, ok, t)
  {
    hide Passed, BlocksOf, Said;
    PassedTwice(guest, s.clock, half.clock, t.clock);
    BlocksOfTurn(guest, s.clock.turn, s.clock.turn + 1, g);
    BlocksOfTurn(guest, s.clock.turn, s.clock.turn, g);
  }

  lemma ClearedMeans(g: nat, guest: Script, s: Moment, added: Moment, id: Uuid, ok: bool, t: Moment)
    requires g > 0 && Added(g, guest, s, id, true, added) && Cleared(g, guest, added, id, ok, t)
    ensures !t.steady && (ok ==> Swapping(g, t, id) && t.bitmaps[Active].dirty == {} && t.held == [])
    ensures !ok ==> Swapped(g, guest, s, id, false, t)
  {
    hide Passed, BlocksOf, Said;
    PassedTwice(guest, s.clock, added.clock, t.clock);
  }

  lemma SwapEnds(g: nat, guest: Script, s: Moment, added: Moment, cleared: Moment, id: Uuid, ok: bool, t: Moment)
    requires g > 0 && Added(g, guest, s, id, true, added) && Cleared(g, guest, added, id, true, cleared)
    requires Switched(g, guest, cleared, id, ok, t)
    ensures Swapped(g, guest, s, id, ok, t)
  {
    hide Passed, BlocksOf, Said;
    PassedTwice(guest, s.clock, added.clock, cleared.clock);
    PassedTwice(guest, s.clock, cleared.clock, t.clock);
    BlocksOfTurn(guest, added.clock.turn, cleared.clock.turn, g);
  }

  lemma SwappedMeans(g: nat, guest: Script, s: Moment, id: Uuid, ok: bool, t: Moment)
    requires g > 0 && Swapped(g, guest, s, id, ok, t)
    ensures if ok then BothRecord(g, t, id) && t.held == [] else Frozenly(g, guest, s, id, false, t)
  {
  }

  lemma SavedMeans(g: nat, guest: Script, s: Moment, swapped: Moment, id: Uuid, ok: bool, t: Moment)
    requires g > 0 && Swapped(g, guest, s, id, true, swapped) && Saved(g, guest, swapped, id, ok, t)
    ensures Frozenly(g, guest, s, id, ok, t)
  {
    hide Passed, BlocksOf, Said;
    PassedTwice(guest, s.clock, swapped.clock, t.clock);
    PassedSince(guest, s.clock, swapped.clock);
    BlocksOfTurn(guest, s.clock.turn + 1, s.clock.turn + 4, g);
  }

  lemma HeardTold(g: nat, guest: Script, s: Moment, id: Uuid, t: Moment)
    requires g > 0 && BothRecord(g, s, id) && Turned(guest, s, t)
    ensures HeardBoth(g, guest, s, id, t)
  {
    hide Passed, BlocksOf, SomeRecording, Recorded;
    KeepsRecording(s.bitmaps, Active);
    HearsAll(s.bitmaps, guest(s.clock.turn), Frozen(id));
    HearsAll(s.bitmaps, guest(s.clock.turn), Active);
  }

  lemma HeardBothMeans(g: nat, guest: Script, s: Moment, id: Uuid, t: Moment)
    requires g > 0 && HeardBoth(g, guest, s, id, t)
    ensures BothRecord(g, t, id)
  {
  }

  lemma SaveEnds(g: nat, guest: Script, s: Moment, half: Moment, id: Uuid, ok: bool, t: Moment)
    requires g > 0 && s.held == [] && HeardBoth(g, guest, s, id, half) && Exported(g, guest, half, id, ok, t)
    requires Active in t.bitmaps ==> t.bitmaps[Active].dirty == BlocksOf(t.held, g)
    ensures Saved(g, guest, s, id, ok, t)
  {
    hide Passed, BlocksOf, Said;
    PassedTwice(guest, s.clock, half.clock, t.clock);
    SaidTwice(guest, s.clock.turn);
  }

  lemma LateTold(g: nat, guest: Script, s: Moment, id: Uuid, t: Moment)
    requires g > 0 && Turned(guest, s, t)
    ensures t.bitmaps.Keys == s.bitmaps.Keys && (!s.steady ==> !t.steady) && CaptureTold(g, guest, s, id, false, t)
  {
    if IsRecording(s.bitmaps) {
      KeepsRecording(s.bitmaps, Active);
    }
  }

  lemma CaptureEnds(g: nat, guest: Script, s: Moment, late: Moment, id: Uuid, ok: bool, t: Moment)
    requires g > 0 && Active in s.bitmaps && s.bitmaps[Active].granularity == g
             && s.bitmaps[Active].dirty == BlocksOf(s.held, g)
    requires Turned(guest, s, late) && Frozenly(g, guest, late, id, ok, t) && CaptureTold(g, guest, s, id, false, late)
    ensures CaptureTold(g, guest, s, id, ok, t)
  {
    hide Passed, BlocksOf, Said, SomeRecording, Captured;
    PassedTwice(guest, s.clock, late.clock, t.clock);
    PassedSince(guest, s.clock, late.clock);
    RecordingStays(s.bitmaps, guest(s.clock.turn));
    if ok {
      CapturedAll(g, guest, s, late, id, t);
      SaidSplit(guest, s.clock.turn, s.clock.turn + 1, s.clock.turn + 5);
    }
  }

  lemma PassedSince(guest: Script, s: Clock, t: Clock)
    requires Passed(guest, s, t)
    ensures t.since == s.since + Said(guest, s.turn, t.turn)
  {
  }

  /** Taking the ZFS snapshot changes nothing a capture depends on. */
  lemma CapturedFrozen(g: nat, guest: Script, s: Moment, half: Moment, id: Uuid, ok: bool, t: Moment)
    requires g > 0 && CaptureTold(g, guest, half, id, ok, t)
    requires half.bitmaps == s.bitmaps && half.held == s.held && half.clock.turn == s.clock.turn
    ensures ok ==>
              Frozen(id) in t.bitmaps && t.bitmaps[Frozen(id)] == Bitmap(g, false, BlocksOf(s.held + Kept(guest, s), g))
  {
    hide BlocksOf, Passed, Said;
  }

  lemma TookIt(g: nat, guest: Script, s: Moment, half: Moment, id: Uuid, ok: bool, last: Moment, t: Moment)
    requires g > 0 && CaptureTold(g, guest, half, id, ok, last) && t == last.(records := t.records)
    requires half == s.(clock := s.clock.(since := []), steady := false, records := half.records)
    requires t.records == s.records + [Taken(guest, s, id, ok)]
    ensures Took(g, guest, s, id, ok, t)
  {
    hide BlocksOf, Passed, Said;
  }

  lemma CapturedAll(g: nat, guest: Script, s: Moment, late: Moment, id: Uuid, t: Moment)
    requires g > 0 && Active in s.bitmaps && s.bitmaps[Active].granularity == g
             && s.bitmaps[Active].dirty == BlocksOf(s.held, g)
    requires late.clock.turn == s.clock.turn + 1 && late.bitmaps == Recorded(s.bitmaps, guest(s.clock.turn))
    requires Frozenly(g, guest, late, id, true, t)
    ensures Captured(g, guest, s, id, t)
  {
    hide BlocksOf, Said, Passed;
    var turn := s.clock.turn;
    var early := if IsRecording(s.bitmaps) then guest(turn) else [];
    BlocksOfConcat(s.held, Kept(guest, s), g);
    BlocksOfConcat(early, Said(guest, turn + 2, turn + 6), g);
    NoBlocks(g);
    if s.bitmaps[Active].recording {
      HearsAll(s.bitmaps, guest(turn), Active);
    } else {
      HearsNothing(s.bitmaps, guest(turn), Active);
    }
  }

  lemma StillChained(rs: seq<Record>, now: Record)
    requires Chained(rs) && rs != [] && now == rs[|rs| - 1].(had := now.had, persisted := true)
    ensures Chained(rs[..|rs| - 1] + [now])
  {
    var all := rs[..|rs| - 1] + [now];
    forall i, j | 0 <= i && j == i + 1 < |all| ensures Follows(all[i], all[j]) {
      assert Follows(rs[i], rs[j]);
    }
  }

  lemma TakenIsChained(rs: seq<Record>, since: seq<Write>, taken: Record)
    requires Chained(rs) && SinceLast(rs, since, taken.content) && taken.between == since
    ensures Chained(rs + [taken])
  {
    var all := rs + [taken];
    forall i, j | 0 <= i && j == i + 1 < |all| ensures Follows(all[i], all[j]) {
      if j < |rs| {
        assert Follows(rs[i], rs[j]);
      }
    }
  }

  ghost predicate SinceLast(rs: seq<Record>, since: seq<Write>, content: Content) {
    rs != [] ==> Fits(since, |rs[|rs| - 1].content|) && content == Written(rs[|rs| - 1].content, since)
  }

  lemma SinceGrows(rs: seq<Record>, since: seq<Write>, content: Content, w: Write)
    requires SinceLast(rs, since, content) && w.offset + |w.data| <= |content|
    ensures SinceLast(rs, since + [w], Patched(content, w)) && Patched(content, w) == Written(content, [w])
  {
    assert [w][..0] == [];
    if rs != [] {
      var c := rs[|rs| - 1].content;
      OneMore(c, since, w);
    }
  }

  lemma OneWrite(c: Content, w: Write)
    requires w.offset + |w.data| <= |c|
    ensures Fits([w], |c|) && Written(c, [w]) == Patched(c, w)
  {
    assert [w][..0] == [];
  }

  lemma OneMore(c: Content, ws: seq<Write>, w: Write)
    requires Fits(ws, |c|) && w.offset + |w.data| <= |c|
    ensures Fits(ws + [w], |c|) && Written(c, ws + [w]) == Patched(Written(c, ws), w)
  {
    assert (ws + [w])[..|ws|] == ws;
  }

  lemma OneWriteMore(c: Content, bs: Bitmaps, ws: seq<Write>, w: Write)
    requires Fits(ws, |c|) && w.offset + |w.data| <= |c|
    ensures Fits(ws + [w], |c|) && Written(c, ws + [w]) == Written(Written(c, ws), [w])
    ensures Recorded(bs, ws + [w]) == Recorded(Recorded(bs, ws), [w])
    ensures SomeRecording(Recorded(bs, ws)) <==> SomeRecording(bs)
  {
    WrittenConcat(c, ws, [w]);
    RecordedTwice(bs, ws, [w]);
    if SomeRecording(bs) {
      var n :| n in bs && Tracks(n) && bs[n].recording;
      assert n in Recorded(bs, ws) && Recorded(bs, ws)[n].recording;
    }
  }

  /** Writes neither take a bitmap away nor switch it on or off. */
  lemma RecordingStays(bs: Bitmaps, ws: seq<Write>)
    ensures Recorded(bs, ws).Keys == bs.Keys && IsRecording(Recorded(bs, ws)) == IsRecording(bs)
    ensures forall n :: n in bs ==>
              Recorded(bs, ws)[n].recording == bs[n].recording && Recorded(bs, ws)[n].granularity == bs[n].granularity
  {
  }

  lemma NothingHappened(c: Content, bs: Bitmaps)
    ensures Recorded(bs, []) == bs && Written(c, []) == c
  {
    forall n | n in bs ensures Hear(bs[n], []) == bs[n] {
      assert bs[n].granularity > 0 ==> bs[n].dirty + {} == bs[n].dirty;
    }
  }
}
