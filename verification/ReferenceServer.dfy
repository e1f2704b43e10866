/** An NBD server that can export any bitmap, if not economically: one chunk a byte. With it the pipeline
    from bitmap to extents is a round trip. */
module ReferenceServer {
  import opened Wrappers
  import opened NbdWire
  import opened NbdClient
  import opened NbdServer
  import opened ChangedBlocks
  import opened EndToEnd

  function StatusOf(blocks: set<nat>, g: nat, x: nat): Descriptor
    requires g > 0
  {
    Descriptor(1, if x / g in blocks then 1 else 0)
  }

  function ByteChunk(blocks: set<nat>, g: nat, id: nat, x: nat, last: bool): Chunk
    requires g > 0
  {
    Chunk(if last then 1 else 0, REPLY_BLOCK_STATUS, BE(id, 4) + WriteDescriptors([StatusOf(blocks, g, x)]))
  }

  function ByteReply(blocks: set<nat>, g: nat, id: nat, x: nat, n: nat): (r: Reply)
    requires g > 0
    ensures |r| == n
    decreases n
  {
    if n == 0 then [] else [ByteChunk(blocks, g, id, x, n == 1)] + ByteReply(blocks, g, id, x + 1, n - 1)
  }

  function Statuses(blocks: set<nat>, g: nat, x: nat, n: nat): seq<Descriptor>
    requires g > 0
    decreases n
  {
    if n == 0 then [] else [StatusOf(blocks, g, x)] + Statuses(blocks, g, x + 1, n - 1)
  }

  function ByteScript(blocks: set<nat>, g: nat, id: nat, rs: seq<Request>): (r: seq<Reply>)
    requires g > 0
    ensures |r| == |rs|
    decreases rs
  {
    if rs == [] then [] else [ByteReply(blocks, g, id, rs[0].offset, rs[0].length)] + ByteScript(blocks, g, id, rs[1..])
  }

  function ByteServer(blocks: set<nat>, g: nat, id: nat, size: nat): Conversation
    requires g > 0
  {
    Conversation(0,
                 [OptionReply(OPT_SET_META_CONTEXT, REP_META_CONTEXT, BE(id, 4))],
                 [OptionReply(OPT_GO, REP_INFO, BE(INFO_EXPORT, 2) + BE(size, 8) + BE(0, 2))],
                 ByteScript(blocks, g, id, Requests(size, BLOCK_STATUS_CHUNK, 0, 0)), Acks([], [], []))
  }

  // ----- one reply -----

  lemma ByteChunkRead(blocks: set<nat>, g: nat, id: nat, x: nat, last: bool)
    requires g > 0 && id < 0x1_0000_0000
    ensures ChunkDescriptors(ByteChunk(blocks, g, id, x, last), id) == Ok([StatusOf(blocks, g, x)])
    ensures var c := ByteChunk(blocks, g, id, x, last);
            |c.body| == 12 && c.flags <= 1 && (c.Done() <==> last) && c.ctype == REPLY_BLOCK_STATUS
  {
    hide BE, UN, ReadDescriptors;
    Widths();
    ReadWritten(id, 4);
    var ds := [StatusOf(blocks, g, x)];
    assert ds[1..] == [];
    DescriptorsRoundTrip(ds);
    var body := ByteChunk(blocks, g, id, x, last).body;
    assert body[..4] == BE(id, 4) && body[4..] == WriteDescriptors(ds);
    assert |WriteDescriptors(ds)| == 8;
  }

  lemma {:induction false} ByteReplyWellFormed(blocks: set<nat>, g: nat, id: nat, x: nat, n: nat, handle: nat)
    requires g > 0 && id < 0x1_0000_0000 && n > 0 && handle < 0x1_0000_0000_0000_0000
    ensures WellFormed(ByteReply(blocks, g, id, x, n), handle)
    decreases n
  {
    hide ByteChunk, ChunkDescriptors;
    var r := ByteReply(blocks, g, id, x, n);
    ByteChunkRead(blocks, g, id, x, n == 1);
    if n > 1 {
      ByteReplyWellFormed(blocks, g, id, x + 1, n - 1, handle);
      var tail := ByteReply(blocks, g, id, x + 1, n - 1);
      assert forall i :: 0 < i < n ==> r[i] == tail[i - 1];
    }
  }

  lemma {:induction false} ByteReplyRead(blocks: set<nat>, g: nat, id: nat, x: nat, n: nat)
    requires g > 0 && id < 0x1_0000_0000
    ensures DescriptorsOf(ByteReply(blocks, g, id, x, n), id) == Ok(Statuses(blocks, g, x, n))
    decreases n
  {
    hide ChunkDescriptors, ByteChunk;
    if n > 0 {
      var r := ByteReply(blocks, g, id, x, n);
      ByteChunkRead(blocks, g, id, x, n == 1);
      ByteReplyRead(blocks, g, id, x + 1, n - 1);
      assert r[1..] == ByteReply(blocks, g, id, x + 1, n - 1);
    }
  }

  lemma {:induction false} StatusesTruthful(blocks: set<nat>, g: nat, x: nat, n: nat, size: nat)
    requires g > 0
    ensures Total(Statuses(blocks, g, x, n)) == n
    ensures Accurate(Place(Statuses(blocks, g, x, n), x), BytesOf(blocks, g), size)
    decreases n
  {
    if n > 0 {
      StatusesTruthful(blocks, g, x + 1, n - 1, size);
      var all, tail := Statuses(blocks, g, x, n), Statuses(blocks, g, x + 1, n - 1);
      assert all[1..] == tail;
      AccurateConcat([Status(x, 1, all[0].status)], Place(tail, x + 1), BytesOf(blocks, g), size);
    }
  }

  lemma AccurateConcat(a: seq<Status>, b: seq<Status>, dirty: iset<int>, size: nat)
    requires Accurate(a, dirty, size) && Accurate(b, dirty, size)
    ensures Accurate(a + b, dirty, size)
  {
    forall i, x | 0 <= i < |a + b| && In((a + b)[i], x) && x < size ensures (a + b)[i].status == 1 <==> x in dirty {
      assert i < |a| ==> In(a[i], x);
      assert i >= |a| ==> In(b[i - |a|], x);
    }
  }

  // ----- the script -----

  lemma {:induction false} ByteScriptServes(blocks: set<nat>, g: nat, id: nat, rs: seq<Request>, size: nat)
    requires g > 0 && id < 0x1_0000_0000
    requires forall i :: 0 <= i < |rs| ==> rs[i].length > 0 && rs[i].handle < 0x1_0000_0000_0000_0000
    ensures Answers(ByteScript(blocks, g, id, rs), rs, id)
    ensures CoversRequests(ByteScript(blocks, g, id, rs), rs, id)
    ensures Accurate(Placed(ByteScript(blocks, g, id, rs), rs, id), BytesOf(blocks, g), size)
    decreases rs
  {
    hide WellFormed, ByteReply, Accurate;
    if rs == [] {
      NothingIsAccurate(BytesOf(blocks, g), size);
    } else {
      var script, r := ByteScript(blocks, g, id, rs), rs[0];
      ByteScriptServes(blocks, g, id, rs[1..], size);
      assert script[1..] == ByteScript(blocks, g, id, rs[1..]);
      ByteReplyWellFormed(blocks, g, id, r.offset, r.length, r.handle);
      ByteReplyRead(blocks, g, id, r.offset, r.length);
      StatusesTruthful(blocks, g, r.offset, r.length, size);
      forall i | 0 <= i < |rs|
        ensures Answer(script[i], rs[i], id) && Total(DescriptorsOf(script[i], id).value) >= rs[i].length {
        assert i > 0 ==> Answer(script[1..][i - 1], rs[1..][i - 1], id);
      }
      AccurateConcat(Place(Statuses(blocks, g, r.offset, r.length), r.offset), Placed(script[1..], rs[1..], id),
                     BytesOf(blocks, g), size);
    }
  }

  lemma NothingIsAccurate(dirty: iset<int>, size: nat)
    ensures Accurate([], dirty, size)
  {
  }

  lemma {:induction false} HandlesFit(size: nat, chunkSize: nat, handle: nat, offset: nat)
    requires chunkSize > 0 && handle <= offset <= size
    ensures forall i :: 0 <= i < |Requests(size, chunkSize, handle, offset)| ==>
              Requests(size, chunkSize, handle, offset)[i].handle < size
    decreases size - offset
  {
    if offset < size {
      HandlesFit(size, chunkSize, handle + 1, offset + Min(chunkSize, size - offset));
    }
  }

  lemma NegotiationConforms(blocks: set<nat>, g: nat, id: nat, size: nat)
    requires g > 0 && id < 0x1_0000_0000 && size < 0x1_0000_0000_0000_0000
    ensures var c := ByteServer(blocks, g, id, size);
            && AllInterim(c.contexts, OPT_SET_META_CONTEXT, REP_META_CONTEXT, 4) && LastId(c.contexts, None) == Some(id)
            && AllInterim(c.infos, OPT_GO, REP_INFO, 2) && LastSize(c.infos, None) == Some(size)
  {
    hide BE, UN, ByteScript;
    Widths();
    ReadWritten(id, 4);
    ReadWritten(INFO_EXPORT, 2);
    ReadWritten(size, 8);
    var c := ByteServer(blocks, g, id, size);
    assert c.contexts[0].payload[..4] == BE(id, 4);
    assert c.infos[0].payload[..2] == BE(INFO_EXPORT, 2) && c.infos[0].payload[2..10] == BE(size, 8);
    assert c.contexts[1..] == [] && c.infos[1..] == [];
  }

  /** Any bitmap of any export can be served in full. */
  lemma EveryBitmapServed(blocks: set<nat>, g: nat, id: nat, size: nat)
    requires g > 0 && id < 0x1_0000_0000 && size < 0x1_0000_0000_0000_0000
    ensures Serves(ByteServer(blocks, g, id, size), id, size, blocks, g)
  {
    hide Answers, Accurate, CoversRequests, AllInterim, LastId, LastSize, ByteScript, Requests, BE;
    var rs := Requests(size, BLOCK_STATUS_CHUNK, 0, 0);
    RequestsTile(size, BLOCK_STATUS_CHUNK, 0, 0);
    HandlesFit(size, BLOCK_STATUS_CHUNK, 0, 0);
    NegotiationConforms(blocks, g, id, size);
    ByteScriptServes(blocks, g, id, rs, size);
  }

  /** Bitmap to bytes to extents and back: the client recovers exactly the bitmap that was served, and
      leaves what follows the conversation alone. */
  lemma BitmapRoundTrip(blocks: set<nat>, g: nat, id: nat, size: nat, rest: Bytes)
    requires g > 0 && id < 0x1_0000_0000 && size < 0x1_0000_0000_0000_0000
    ensures var r := Fetch(Stream(ByteServer(blocks, g, id, size), rest));
            r.Ok? && r.value.1 == rest && Exact(r.value.0, BytesOf(blocks, g), size)
  {
    hide Serves, Fetch, Stream, Exact, ByteServer;
    var c := ByteServer(blocks, g, id, size);
    EveryBitmapServed(blocks, g, id, size);
    assert Conforms(c, id, size) by {
      ServesConforms(c, id, size, blocks, g);
    }
    ConversationDecodes(c, id, size, rest);
    CompleteIsExact(c, id, size, blocks, g);
  }

  lemma ServesConforms(c: Conversation, id: nat, size: nat, blocks: set<nat>, g: nat)
    requires g > 0 && Serves(c, id, size, blocks, g)
    ensures Conforms(c, id, size)
  {
  }

  // ----- a reply that ends early -----

  /** A server that says of a two-byte export, both bytes dirty, only that the first is dirty. */
  function ShortServer(id: nat): Conversation {
    ByteServer({0}, 2, id, 2).(replies := [ByteReply({0}, 2, id, 0, 1)])
  }

  /** Every word of the server is true and keeps to the protocol, which allows short replies, but the
      client never asks again: a dirty byte is taken for clean. */
  lemma ShortReplyLosesByte(id: nat, rest: Bytes)
    requires id < 0x1_0000_0000
    ensures Conforms(ShortServer(id), id, 2) && Accurate(Found(ShortServer(id), id, 2), BytesOf({0}, 2), 2)
    ensures Fetch(Stream(ShortServer(id), rest)) == Ok(([Extent(0, 1)], rest))
            && !Exact([Extent(0, 1)], BytesOf({0}, 2), 2)
  {
    hide Fetch, Stream, WellFormed, ByteReply, BE, UN;
    var c, r := ShortServer(id), ByteReply({0}, 2, id, 0, 1);
    var rs := Requests(2, BLOCK_STATUS_CHUNK, 0, 0);
    assert rs == [Request(0, 0, 2)];
    NegotiationConforms({0}, 2, id, 2);
    ByteReplyWellFormed({0}, 2, id, 0, 1, 0);
    ByteReplyRead({0}, 2, id, 0, 1);
    assert Answers(c.replies, rs, id);
    StatusesTruthful({0}, 2, 0, 1, 2);
    assert Place(Statuses({0}, 2, 0, 1), 0) == [Status(0, 1, 1)];
    assert Placed(c.replies[1..], rs[1..], id) == [];
    assert Found(c, id, 2) == [Status(0, 1, 1)];
    ConversationDecodes(c, id, 2, rest);
    assert DirtyOnes([Status(0, 1, 1)]) == [Extent(0, 1)];
    assert 1 in BytesOf({0}, 2) && !Dirty([Extent(0, 1)], 1);
  }

  // ----- an error of another type -----

  /** A server that answers the only request for a two-byte export with a single chunk of type `t`. */
  function FailingServer(id: nat, t: nat, body: Bytes): Conversation {
    ByteServer({0}, 2, id, 2).(replies := [[Chunk(1, t, body)]])
  }

  /** Every chunk type with bit 15 set reports an error, of which the client knows only 0x8001: after any
      other it takes the export for clean, although both bytes are dirty. */
  lemma OtherErrorsMissed(id: nat, t: nat, body: Bytes, rest: Bytes)
    requires id < 0x1_0000_0000 && 0x8000 <= t < 0x1_0000 && |body| < 0x1_0000_0000
    ensures var r := Fetch(Stream(FailingServer(id, t, body), rest));
            if t == 0x8001 then r.Err? else r == Ok(([], rest))
  {
    hide BE, UN, Stream, Fetch;
    var c, chunk := FailingServer(id, t, body), Chunk(1, t, body);
    var rs := Requests(2, BLOCK_STATUS_CHUNK, 0, 0);
    assert rs == [Request(0, 0, 2)];
    NegotiationConforms({0}, 2, id, 2);
    assert WellFormed([chunk], 0);
    if t != 0x8001 {
      EndAddsNothing([], chunk, id);
      assert [] + [chunk] == [chunk] && Answer(c.replies[0], rs[0], id);
      assert Placed(c.replies[1..], rs[1..], id) == [];
      assert Found(c, id, 2) == [];
      ConversationDecodes(c, id, 2, rest);
    } else {
      assert Framed(c.replies, rs) && chunk in c.replies[0];
      ErrorChunkReported(c, id, 2, rest, 0, chunk);
    }
  }
}
