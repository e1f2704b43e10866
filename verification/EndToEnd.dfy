/** The whole pipeline: guest writes, the bitmap captured at a snapshot, its export read over NBD however
    the socket fragments it, and the bit array of `list_changed_blocks`. */
module EndToEnd {
  import opened Wrappers
  import opened NbdWire
  import opened NbdClient
  import opened NbdServer
  import opened ChangedBlocks
  import Tracking
  import QemuNode

  /** Everything a server says in one conversation. */
  datatype Conversation = Conversation(flags: nat, contexts: seq<OptionReply>, infos: seq<OptionReply>,
                                       replies: seq<Reply>, acks: Acks)

  /** What comes with the three ACKs. */
  datatype Acks = Acks(structured: Bytes, context: Bytes, go: Bytes)

  function AfterGo(c: Conversation, rest: Bytes): Bytes {
    WriteScript(c.replies, 0) + rest
  }

  function AfterContext(c: Conversation, rest: Bytes): Bytes {
    WriteOptionReplies(c.infos) + (WriteOptionReply(Ack(OPT_GO, c.acks.go)) + AfterGo(c, rest))
  }

  function AfterAck(c: Conversation, rest: Bytes): Bytes {
    WriteOptionReplies(c.contexts)
    + (WriteOptionReply(Ack(OPT_SET_META_CONTEXT, c.acks.context)) + AfterContext(c, rest))
  }

  /** The bytes of the conversation, and `rest` after them. */
  function Stream(c: Conversation, rest: Bytes): Bytes {
    WriteHello(c.flags) + (WriteOptionReply(Ack(OPT_STRUCTURED_REPLY, c.acks.structured)) + AfterAck(c, rest))
  }

  /** The negotiation ends with an export of `size` bytes under the context `id`. */
  ghost predicate Negotiated(c: Conversation, id: nat, size: nat) {
    && c.flags < 0x1_0000
    && |c.acks.structured| < 0x1_0000_0000 && |c.acks.context| < 0x1_0000_0000 && |c.acks.go| < 0x1_0000_0000
    && AllInterim(c.contexts, OPT_SET_META_CONTEXT, REP_META_CONTEXT, 4) && LastId(c.contexts, None) == Some(id)
    && AllInterim(c.infos, OPT_GO, REP_INFO, 2) && LastSize(c.infos, None) == Some(size)
  }

  /** The server keeps to the protocol, for an export of `size` bytes under the context `id`. */
  ghost predicate Conforms(c: Conversation, id: nat, size: nat) {
    Negotiated(c, id, size) && Answers(c.replies, Requests(size, BLOCK_STATUS_CHUNK, 0, 0), id)
  }

  function Found(c: Conversation, id: nat, size: nat): seq<Status>
    requires Conforms(c, id, size)
  {
    Placed(c.replies, Requests(size, BLOCK_STATUS_CHUNK, 0, 0), id)
  }

  lemma NegotiationDecodes(c: Conversation, id: nat, size: nat, rest: Bytes)
    requires Negotiated(c, id, size)
    ensures Negotiation(Stream(c, rest)) == Ok(((id, size), AfterGo(c, rest)))
  {
    hide ReadHandshake, ReadStructuredAck, ReadMetaContext, ReadGo, WriteHello, WriteOptionReplies, WriteOptionReply,
        WriteScript;
    HelloDecodes(c.flags, WriteOptionReply(Ack(OPT_STRUCTURED_REPLY, c.acks.structured)) + AfterAck(c, rest));
    AckDecodes(c.acks.structured, AfterAck(c, rest));
    MetaContextDecodes(c.contexts, None, c.acks.context, AfterContext(c, rest));
    GoDecodes(c.infos, None, c.acks.go, AfterGo(c, rest));
  }

  /** A conforming conversation is read to its last byte and not beyond, and yields what was sent. */
  lemma ConversationDecodes(c: Conversation, id: nat, size: nat, rest: Bytes)
    requires Conforms(c, id, size)
    ensures Negotiation(Stream(c, rest)) == Ok(((id, size), AfterGo(c, rest)))
    ensures Fetch(Stream(c, rest)) == Ok((DirtyOnes(Found(c, id, size)), rest))
  {
    hide Negotiation, Walk, WriteScript, Stream;
    NegotiationDecodes(c, id, size, rest);
    WalkDecodes(c.replies, id, size, BLOCK_STATUS_CHUNK, 0, 0, [], rest);
    assert [] + Found(c, id, size) == Found(c, id, size);
  }

  /** Nothing else ends a negotiation well. */
  lemma NegotiationExact(bs: Bytes) returns (c: Conversation)
    requires Negotiation(bs).Ok?
    ensures var ((id, size), afterGo) := Negotiation(bs).value;
            Negotiated(c, id, size)
            && forall replies, rest :: afterGo == WriteScript(replies, 0) + rest ==>
                 bs == Stream(c.(replies := replies), rest)
  {
    hide ReadHandshake, ReadStructuredAck, ReadMetaContext, ReadGo, WriteHello, WriteOptionReplies, WriteOptionReply,
        WriteScript;
    HelloExact(bs);
    var (flags, afterHello) := ReadHandshake(bs).value;
    var structured := AckExact(afterHello);
    var afterAck := ReadStructuredAck(afterHello).value.1;
    var contexts, context := MetaContextExact(afterAck, None);
    var afterMeta := ReadMetaContext(afterAck, None).value.1;
    var infos, go := GoExact(afterMeta, None);
    c := Conversation(flags, contexts, infos, [], Acks(structured, context, go));
  }

  /** The client gets a result if and only if what it receives begins with a conforming conversation:
      whatever else a server sends, it is told so. */
  lemma AcceptedIff(bs: Bytes)
    ensures Fetch(bs).Ok? <==> exists c, id, size, rest :: Conforms(c, id, size) && bs == Stream(c, rest)
  {
    hide Negotiation, Walk, Stream, Conforms;
    if Fetch(bs).Ok? {
      var c, id, size, rest := FetchExact(bs);
    }
    if c, id, size, rest :| Conforms(c, id, size) && bs == Stream(c, rest) {
      ConversationDecodes(c, id, size, rest);
    }
  }

  lemma FetchExact(bs: Bytes) returns (c: Conversation, id: nat, size: nat, rest: Bytes)
    requires Fetch(bs).Ok?
    ensures Conforms(c, id, size) && bs == Stream(c, rest)
  {
    hide Negotiation, Walk, Stream, WriteScript;
    c := NegotiationExact(bs);
    var ((i, n), afterGo) := Negotiation(bs).value;
    id, size := i, n;
    var replies := WalkExact(afterGo, id, size, BLOCK_STATUS_CHUNK, 0, 0, []);
    rest := Walk(afterGo, id, size, BLOCK_STATUS_CHUNK, 0, 0, []).value.1;
    c := c.(replies := replies);
  }

  /** If the server answers every request completely, the client gets a result if and only if every chunk
      of every answer is acceptable. */
  lemma FetchOkIff(c: Conversation, id: nat, size: nat, rest: Bytes)
    requires Negotiated(c, id, size) && Framed(c.replies, Requests(size, BLOCK_STATUS_CHUNK, 0, 0))
    ensures Fetch(Stream(c, rest)).Ok? <==>
              forall i, chunk :: 0 <= i < |c.replies| && chunk in c.replies[i] ==> Acceptable(chunk, id)
  {
    hide Negotiation, Walk, Stream, WriteScript, Acceptable;
    NegotiationDecodes(c, id, size, rest);
    WalkOkIff(c.replies, id, size, BLOCK_STATUS_CHUNK, 0, 0, [], rest);
  }

  /** A chunk of type 0x8001 anywhere is an error, whatever the server says besides. */
  lemma ErrorChunkReported(c: Conversation, id: nat, size: nat, rest: Bytes, i: nat, chunk: Chunk)
    requires Negotiated(c, id, size) && Framed(c.replies, Requests(size, BLOCK_STATUS_CHUNK, 0, 0))
    requires i < |c.replies| && chunk in c.replies[i] && chunk.ctype == 0x8001
    ensures Fetch(Stream(c, rest)).Err?
  {
    hide Fetch, Stream;
    FetchOkIff(c, id, size, rest);
    assert !Acceptable(chunk, id);
  }

  /** Every request of a walk over an export that can be announced fits the wire, and is understood. */
  lemma RequestsUnderstood(size: nat, i: nat)
    requires size < 0x1_0000_0000_0000_0000 && i < |Requests(size, BLOCK_STATUS_CHUNK, 0, 0)|
    ensures var r := Requests(size, BLOCK_STATUS_CHUNK, 0, 0)[i];
            |WriteRequest(r)| == 28 && ReadRequest(WriteRequest(r)) == Some(r)
  {
    var rs := Requests(size, BLOCK_STATUS_CHUNK, 0, 0);
    RequestsTile(size, BLOCK_STATUS_CHUNK, 0, 0);
    InTheExport(rs, size, 0);
    InTheExport(rs, size, i);
    RequestRoundTrip(rs[i]);
  }

  /** Requests that tile an export lie within it, the `i`th at least `i` bytes from the start. */
  lemma {:induction false} InTheExport(rs: seq<Request>, size: nat, i: nat)
    requires i < |rs| && rs[|rs| - 1].offset + rs[|rs| - 1].length == size
    requires forall j :: 0 <= j < |rs| ==> rs[j].length >= 1
    requires forall j, k :: 0 <= j && k == j + 1 < |rs| ==> rs[k].offset == rs[j].offset + rs[j].length
    ensures rs[i].offset + (|rs| - i) <= size
    decreases |rs| - i
  {
    if i < |rs| - 1 {
      InTheExport(rs, size, i + 1);
    }
  }

  ghost function BytesOf(blocks: set<nat>, g: nat): iset<int>
    requires g > 0
  {
    iset x: int | x / g in blocks
  }

  /** The server reports the bitmap truthfully, and each reply reaches the end of its request. */
  ghost predicate Serves(c: Conversation, id: nat, size: nat, blocks: set<nat>, g: nat)
    requires g > 0
  {
    && Conforms(c, id, size)
    && Accurate(Found(c, id, size), BytesOf(blocks, g), size)
    && CoversRequests(c.replies, Requests(size, BLOCK_STATUS_CHUNK, 0, 0), id)
  }

  /** `fetch_dirty_extents` from such a server: exactly the dirty bytes of the export. */
  method FetchBitmap(sock: Socket, exportName: Bytes, context: Bytes, ghost c: Conversation, ghost id: nat,
                     ghost size: nat,
                     ghost blocks: set<nat>, ghost g: nat, ghost rest: Bytes)
    returns (r: Result<seq<Extent>, WireError>)
    requires g > 0 && Serves(c, id, size, blocks, g) && sock.incoming == Stream(c, rest)
    modifies sock
    ensures r.Ok? && Exact(r.value, BytesOf(blocks, g), size) && sock.incoming == rest
  {
    ConversationDecodes(c, id, size, rest);
    ghost var total;
    r, total := sock.FetchDirtyExtents(exportName, context);
    CompleteIsExact(c, id, size, blocks, g);
  }

  lemma CompleteIsExact(c: Conversation, id: nat, size: nat, blocks: set<nat>, g: nat)
    requires g > 0 && Serves(c, id, size, blocks, g)
    ensures Exact(DirtyOnes(Found(c, id, size)), BytesOf(blocks, g), size)
  {
    forall x | 0 <= x < size && x in BytesOf(blocks, g) ensures Reached(Found(c, id, size), x) {
      CoveringReachesAll(c.replies, id, size, BLOCK_STATUS_CHUNK, 0, 0, x);
    }
    ExactIff(Found(c, id, size), BytesOf(blocks, g), size);
  }

  /** The report has the bit of every byte of the window that differs between the two contents. */
  ghost predicate Reports(bits: seq<bv8>, before: Tracking.Content, after: Tracking.Content, offset: int, length: int,
                          g: int)
    requires g > 0 && |before| == |after|
  {
    forall x :: offset <= x < offset + length && 0 <= x < |before| && before[x] != after[x] ==>
        HasBit(bits, x / g - FirstBlock(offset, g))
  }

  predicate HasBit(bits: seq<bv8>, b: int) {
    0 <= b < 8 * |bits| && Bit(bits, b)
  }

  /** No more than the granularity forces: within the export, a set bit means a dirty block of the bitmap
      overlaps its block. */
  ghost predicate ReportsOnly(bits: seq<bv8>, blocks: set<nat>, bg: nat, offset: int, size: nat, g: int)
    requires g > 0 && bg > 0
  {
    forall b: nat ::
      var n := FirstBlock(offset, g) + b;
      b < 8 * |bits| && Bit(bits, b) && 0 <= n * g && (n + 1) * g <= size ==> Overlaps(blocks, bg, n, g)
  }

  ghost predicate Overlaps(blocks: set<nat>, bg: nat, n: int, g: int)
    requires bg > 0
  {
    exists x :: n * g <= x < (n + 1) * g && x in BytesOf(blocks, bg)
  }

  lemma SoundDeltaIsReported(bits: seq<bv8>, extents: seq<Extent>, before: Tracking.Content, after: Tracking.Content,
                             blocks: set<nat>, bg: nat,
                             offset: int, length: int, g: int)
    requires g > 0 && bg > 0 && |before| == |after| && Tracking.DeltaSound(before, after, blocks, bg)
    requires Exact(extents, BytesOf(blocks, bg), |before|) && Packed(bits, extents, offset, length, g)
    ensures Reports(bits, before, after, offset, length, g)
    ensures ReportsOnly(bits, blocks, bg, offset, |before|, g)
  {
    forall x | offset <= x < offset + length && 0 <= x < |before| && before[x] != after[x]
      ensures HasBit(bits, x / g - FirstBlock(offset, g))
    {
      assert x in BytesOf(blocks, bg);
      DirtyByteHasBit(bits, extents, offset, length, g, x);
    }
    forall b: nat | b < 8 * |bits| && Bit(bits, b) && 0 <= (FirstBlock(offset, g) + b) * g
        && (FirstBlock(offset, g) + b + 1) * g <= |before|
      ensures Overlaps(blocks, bg, FirstBlock(offset, g) + b, g)
    {
      var x := DirtyByteOf(extents, FirstBlock(offset, g) + b, g);
      assert x in BytesOf(blocks, bg);
    }
  }

  lemma OneBitmap(granularity: int, extents: seq<Extent>)
    ensures var bitmaps := map[0 := PersistedBitmap(granularity, Some(extents))];
            && (forall x :: DirtyInSome(bitmaps, x) <==> Dirty(extents, x))
            && (granularity > 0 ==> forall g :: Resolved(bitmaps, g) ==> g == granularity)
  {
    var bitmaps := map[0 := PersistedBitmap(granularity, Some(extents))];
    assert 0 in bitmaps;
  }

  /** `list_changed_blocks` between two consecutive snapshots of a VDI, the bitmap having heard of every block
      written in between: while the export lives, every byte that differs between them has its bit. */
  method ChangedBetween(node: QemuNode.Node, ghost j: nat, sock: Socket, exportName: Bytes, context: Bytes, offset: int,
                        length: nat,
                        ghost c: Conversation, ghost id: nat, ghost rest: Bytes)
    returns (g: int, bits: seq<bv8>)
    requires node.Valid() && 0 < j < |node.records| && node.records[j].persisted
             && QemuNode.Told(node.records[j], node.granularity)
    requires Tracking.Frozen(node.records[j].id) in node.bitmaps
    requires Serves(c, id, |node.records[j].content|, node.bitmaps[Tracking.Frozen(node.records[j].id)].dirty,
                    node.granularity)
    requires sock.incoming == Stream(c, rest)
    modifies sock
    ensures g == node.granularity && |node.records[j - 1].content| == |node.records[j].content|
    ensures Reports(bits, node.records[j - 1].content, node.records[j].content, offset, length, g)
    ensures ReportsOnly(bits, node.bitmaps[Tracking.Frozen(node.records[j].id)].dirty, node.granularity, offset,
                        |node.records[j].content|, g)
  {
    hide Serves, Packed, Dirty, DirtyInSome, Tracking.Conserved, QemuNode.Chained, QemuNode.SinceLast,
        Tracking.DeltaSound, Stream;
    ghost var blocks := node.bitmaps[Tracking.Frozen(node.records[j].id)].dirty;
    ghost var size := |node.records[j].content|;
    assert QemuNode.RecordOk(node.records[j], node.bitmaps, node.granularity);
    QemuNode.DeltaOfRecords(node.records, node.bitmaps, node.granularity, j);
    var fetched := FetchBitmap(sock, exportName, context, c, id, size, blocks, node.granularity, rest);
    ghost var extents;
    var state := Bitmaps(map[0 := PersistedBitmap(node.granularity, Some(fetched.value))]);
    g, bits, extents := ListChangedBlocks(state, offset, length);
    OneBitmap(node.granularity, fetched.value);
    assert Exact(extents, BytesOf(blocks, node.granularity), size);
    SoundDeltaIsReported(bits, extents, node.records[j - 1].content, node.records[j].content, blocks, node.granularity,
                         offset, length, g);
  }
}
