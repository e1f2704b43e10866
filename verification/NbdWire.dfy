/** The wire format of the NBD conversation: big-endian fields, option replies, structured reply chunks
    and requests, each with the reader the client uses and the writer a server (or the client) uses. */
module NbdWire {
  import opened Wrappers

  type Byte = x: int | 0 <= x < 256
  type Bytes = seq<Byte>

  const NBDMAGIC: nat := 0x4E42444D41474943
  const IHAVEOPT: nat := 0x49484156454F5054
  const OPTION_REPLY_MAGIC: nat := 0x3E889045565A9
  const REQUEST_MAGIC: nat := 0x25609513
  const STRUCTURED_REPLY_MAGIC: nat := 0x668E33EF

  const OPT_GO: nat := 7
  const OPT_STRUCTURED_REPLY: nat := 8
  const OPT_SET_META_CONTEXT: nat := 10

  const REP_ACK: nat := 1
  const REP_INFO: nat := 3
  const REP_META_CONTEXT: nat := 4
  const REP_FLAG_ERROR: nat := 0x8000_0000

  const INFO_EXPORT: nat := 0
  const CMD_BLOCK_STATUS: nat := 7

  const REPLY_NONE: nat := 0
  const REPLY_BLOCK_STATUS: nat := 5
  const REPLY_ERROR: nat := 0x8001

  datatype WireError =
    | ShortRead
    | BadMagic
    | HandleMismatch
    | UnexpectedOption
    | ServerError
    | Malformed
    | NoContextId
    | NoExportInfo

  // ----- big-endian numbers -----

  function BE(n: nat, k: nat): (r: Bytes)
    ensures |r| == k
  {
    if k == 0 then [] else BE(n / 256, k - 1) + [n % 256]
  }

  function UN(bs: Bytes): nat {
    if bs == [] then 0 else UN(bs[..|bs| - 1]) * 256 + bs[|bs| - 1]
  }

  function Pow256(k: nat): nat {
    if k == 0 then 1 else 256 * Pow256(k - 1)
  }

  lemma {:induction false} ReadWritten(n: nat, k: nat)
    requires n < Pow256(k)
    ensures UN(BE(n, k)) == n
  {
    if k > 0 {
      ReadWritten(n / 256, k - 1);
      assert BE(n, k)[..k - 1] == BE(n / 256, k - 1);
    }
  }

  /** Nothing but what was written is read as that number. */
  lemma {:induction false} WrittenRead(bs: Bytes)
    ensures UN(bs) < Pow256(|bs|) && BE(UN(bs), |bs|) == bs
    decreases |bs|
  {
    if bs != [] {
      var init, last := bs[..|bs| - 1], bs[|bs| - 1];
      WrittenRead(init);
      assert UN(bs) == UN(init) * 256 + last;
      assert UN(bs) / 256 == UN(init) && UN(bs) % 256 == last;
      assert bs == init + [last];
    }
  }

  /** The most significant byte comes first. */
  lemma {:induction false} BigEndian(bs: Bytes)
    requires bs != []
    ensures UN(bs) == bs[0] * Pow256(|bs| - 1) + UN(bs[1..])
    decreases |bs|
  {
    if |bs| > 1 {
      var init, last := bs[..|bs| - 1], bs[|bs| - 1];
      BigEndian(init);
      assert bs == init + [last] && bs[1..] == init[1..] + [last];
      OneByteMore(init, last);
      OneByteMore(init[1..], last);
      Shifted(bs[0], Pow256(|bs| - 2), UN(init[1..]));
    }
  }

  lemma OneByteMore(bs: Bytes, b: Byte)
    ensures UN(bs + [b]) == UN(bs) * 256 + b
  {
    assert (bs + [b])[..|bs|] == bs;
  }

  lemma Shifted(b: int, p: int, rest: int)
    ensures (b * p + rest) * 256 == b * (256 * p) + rest * 256
  {
  }

  lemma Widths()
    ensures Pow256(2) == 0x1_0000 && Pow256(4) == 0x1_0000_0000 && Pow256(8) == 0x1_0000_0000_0000_0000
  {
    assert Pow256(1) == 256 && Pow256(3) == 0x100_0000;
    assert Pow256(5) == 0x100_0000_0000 && Pow256(6) == 0x1_0000_0000_0000 && Pow256(7) == 0x100_0000_0000_0000;
  }

  // ----- option replies -----

  datatype OptionReply = OptionReply(option: nat, rep: nat, payload: Bytes)

  ghost predicate OptionReplyFits(r: OptionReply) {
    r.option < 0x1_0000_0000 && r.rep < 0x1_0000_0000 && |r.payload| < 0x1_0000_0000
  }

  function WriteOptionReply(r: OptionReply): Bytes {
    BE(OPTION_REPLY_MAGIC, 8) + BE(r.option, 4) + BE(r.rep, 4) + BE(|r.payload|, 4) + r.payload
  }

  /** `_recv_option_reply`, as a function of the bytes still to come. */
  function ReadOptionReply(bs: Bytes): (r: Result<(OptionReply, Bytes), WireError>)
    ensures r.Ok? ==> |r.value.1| < |bs|
  {
    if |bs| < 20 then Err(ShortRead)
    else if UN(bs[..8]) != OPTION_REPLY_MAGIC then Err(BadMagic)
    else
      var length := UN(bs[16..20]);
      if |bs| < 20 + length then Err(ShortRead)
      else Ok((OptionReply(UN(bs[8..12]), UN(bs[12..16]), bs[20..20 + length]), bs[20 + length..]))
  }

  lemma OptionReplyRoundTrip(r: OptionReply, rest: Bytes)
    requires OptionReplyFits(r)
    ensures ReadOptionReply(WriteOptionReply(r) + rest) == Ok((r, rest))
  {
    hide BE, UN;
    Widths();
    ReadWritten(OPTION_REPLY_MAGIC, 8);
    ReadWritten(r.option, 4);
    ReadWritten(r.rep, 4);
    ReadWritten(|r.payload|, 4);
    var bs := WriteOptionReply(r) + rest;
    assert bs[..8] == BE(OPTION_REPLY_MAGIC, 8);
    assert bs[8..12] == BE(r.option, 4);
    assert bs[12..16] == BE(r.rep, 4);
    assert bs[16..20] == BE(|r.payload|, 4);
    assert bs[20..20 + |r.payload|] == r.payload;
    assert bs[20 + |r.payload|..] == rest;
  }

  /** Nothing else is read as an option reply. */
  lemma OptionReplyExact(bs: Bytes)
    requires ReadOptionReply(bs).Ok?
    ensures var (r, rest) := ReadOptionReply(bs).value; OptionReplyFits(r) && bs == WriteOptionReply(r) + rest
  {
    hide BE, UN;
    Widths();
    WrittenRead(bs[..8]);
    WrittenRead(bs[8..12]);
    WrittenRead(bs[12..16]);
    WrittenRead(bs[16..20]);
    var n := 20 + UN(bs[16..20]);
    assert bs == bs[..8] + bs[8..12] + bs[12..16] + bs[16..20] + bs[20..n] + bs[n..];
  }

  // ----- structured reply chunks -----

  datatype Chunk = Chunk(flags: nat, ctype: nat, body: Bytes) {
    /** NBD_REPLY_FLAG_DONE is bit 0. */
    predicate Done() {
      flags % 2 == 1
    }
  }

  ghost predicate ChunkFits(c: Chunk, handle: nat) {
    c.flags < 0x1_0000 && c.ctype < 0x1_0000 && |c.body| < 0x1_0000_0000 && handle < 0x1_0000_0000_0000_0000
  }

  function ChunkHeader(c: Chunk, handle: nat): (r: Bytes)
    ensures |r| == 20
  {
    BE(STRUCTURED_REPLY_MAGIC, 4) + BE(c.flags, 2) + BE(c.ctype, 2) + BE(handle, 8) + BE(|c.body|, 4)
  }

  function WriteChunk(c: Chunk, handle: nat): Bytes {
    ChunkHeader(c, handle) + c.body
  }

  /** One turn of `_read_structured_chunks`. */
  function ReadChunk(bs: Bytes, handle: nat): (r: Result<(Chunk, Bytes), WireError>)
    ensures r.Ok? ==> |r.value.1| < |bs|
  {
    if |bs| < 20 then Err(ShortRead)
    else if UN(bs[..4]) != STRUCTURED_REPLY_MAGIC then Err(BadMagic)
    else if UN(bs[8..16]) != handle then Err(HandleMismatch)
    else
      var length := UN(bs[16..20]);
      if |bs| < 20 + length then Err(ShortRead)
      else Ok((Chunk(UN(bs[4..6]), UN(bs[6..8]), bs[20..20 + length]), bs[20 + length..]))
  }

  lemma ChunkHeaderFields(c: Chunk, handle: nat)
    requires ChunkFits(c, handle)
    ensures var h := ChunkHeader(c, handle);
            && UN(h[..4]) == STRUCTURED_REPLY_MAGIC && UN(h[4..6]) == c.flags && UN(h[6..8]) == c.ctype
            && UN(h[8..16]) == handle && UN(h[16..20]) == |c.body|
  {
    hide BE, UN;
    Widths();
    ReadWritten(STRUCTURED_REPLY_MAGIC, 4);
    ReadWritten(c.flags, 2);
    ReadWritten(c.ctype, 2);
    ReadWritten(handle, 8);
    ReadWritten(|c.body|, 4);
    var h := ChunkHeader(c, handle);
    assert h[..4] == BE(STRUCTURED_REPLY_MAGIC, 4);
    assert h[4..6] == BE(c.flags, 2);
    assert h[6..8] == BE(c.ctype, 2);
    assert h[8..16] == BE(handle, 8);
    assert h[16..20] == BE(|c.body|, 4);
  }

  lemma ChunkRoundTrip(c: Chunk, handle: nat, rest: Bytes)
    requires ChunkFits(c, handle)
    ensures ReadChunk(WriteChunk(c, handle) + rest, handle) == Ok((c, rest))
  {
    ChunkHeaderFields(c, handle);
    var h := ChunkHeader(c, handle);
    var bs := WriteChunk(c, handle) + rest;
    assert bs[..4] == h[..4] && bs[4..6] == h[4..6] && bs[6..8] == h[6..8];
    assert bs[8..16] == h[8..16] && bs[16..20] == h[16..20];
    assert bs[20..20 + |c.body|] == c.body;
    assert bs[20 + |c.body|..] == rest;
  }

  /** Nothing else is read as a chunk with that handle. */
  lemma ChunkExact(bs: Bytes, handle: nat)
    requires ReadChunk(bs, handle).Ok?
    ensures var (c, rest) := ReadChunk(bs, handle).value; ChunkFits(c, handle) && bs == WriteChunk(c, handle) + rest
  {
    hide BE, UN;
    Widths();
    WrittenRead(bs[..4]);
    WrittenRead(bs[4..6]);
    WrittenRead(bs[6..8]);
    WrittenRead(bs[8..16]);
    WrittenRead(bs[16..20]);
    var n := 20 + UN(bs[16..20]);
    assert bs == bs[..4] + bs[4..6] + bs[6..8] + bs[8..16] + bs[16..20] + bs[20..n] + bs[n..];
  }

  // ----- BLOCK_STATUS bodies -----

  datatype Descriptor = Descriptor(length: nat, status: nat)

  predicate DescriptorFits(d: Descriptor) {
    d.length < 0x1_0000_0000 && d.status < 0x1_0000_0000
  }

  function WriteDescriptors(ds: seq<Descriptor>): Bytes {
    if ds == [] then [] else BE(ds[0].length, 4) + BE(ds[0].status, 4) + WriteDescriptors(ds[1..])
  }

  /** Eight bytes a descriptor; a remainder makes the unpacking raise. */
  function ReadDescriptors(bs: Bytes): (r: Result<seq<Descriptor>, WireError>)
    ensures r.Ok? <==> |bs| % 8 == 0
    decreases |bs|
  {
    if bs == [] then Ok([])
    else if |bs| < 8 then Err(Malformed)
    else
      match ReadDescriptors(bs[8..])
      case Err(e) => Err(e)
      case Ok(ds) => Ok([Descriptor(UN(bs[..4]), UN(bs[4..8]))] + ds)
  }

  lemma {:induction false} DescriptorsRoundTrip(ds: seq<Descriptor>)
    requires forall d :: d in ds ==> DescriptorFits(d)
    ensures ReadDescriptors(WriteDescriptors(ds)) == Ok(ds)
  {
    if ds != [] {
      Widths();
      assert DescriptorFits(ds[0]);
      ReadWritten(ds[0].length, 4);
      ReadWritten(ds[0].status, 4);
      var bs := WriteDescriptors(ds);
      assert bs[..4] == BE(ds[0].length, 4);
      assert bs[4..8] == BE(ds[0].status, 4);
      assert bs[8..] == WriteDescriptors(ds[1..]);
      DescriptorsRoundTrip(ds[1..]);
      assert |bs| >= 8;
      assert ds == [ds[0]] + ds[1..];
      assert ds[0] == Descriptor(UN(bs[..4]), UN(bs[4..8]));
      assert ReadDescriptors(bs) == Ok([ds[0]] + ds[1..]);
    }
  }

  /** Nothing else is read as these descriptors. */
  lemma {:induction false} DescriptorsExact(bs: Bytes)
    requires |bs| % 8 == 0
    ensures var ds := ReadDescriptors(bs).value;
            |ds| == |bs| / 8 && (forall d :: d in ds ==> DescriptorFits(d)) && WriteDescriptors(ds) == bs
    decreases |bs|
  {
    if bs != [] {
      DescriptorsExact(bs[8..]);
      OneDescriptor(bs);
      var rest := ReadDescriptors(bs[8..]).value;
      var ds := ReadDescriptors(bs).value;
      assert ds == [Descriptor(UN(bs[..4]), UN(bs[4..8]))] + rest && ds[1..] == rest;
    }
  }

  lemma OneDescriptor(bs: Bytes)
    requires |bs| >= 8
    ensures var d := Descriptor(UN(bs[..4]), UN(bs[4..8]));
            DescriptorFits(d) && BE(d.length, 4) + BE(d.status, 4) + bs[8..] == bs
  {
    hide BE, UN;
    Widths();
    WrittenRead(bs[..4]);
    WrittenRead(bs[4..8]);
    assert bs == bs[..4] + bs[4..8] + bs[8..];
  }

  // ----- requests -----

  datatype Request = Request(handle: nat, offset: nat, length: nat)

  /** `_request` for NBD_CMD_BLOCK_STATUS without flags. */
  function WriteRequest(r: Request): Bytes {
    BE(REQUEST_MAGIC, 4) + BE(0, 2) + BE(CMD_BLOCK_STATUS, 2) + BE(r.handle, 8) + BE(r.offset, 8) + BE(r.length, 4)
  }

  /** What a server makes of it. */
  function ReadRequest(bs: Bytes): Option<Request>
    requires |bs| == 28
  {
    if UN(bs[..4]) == REQUEST_MAGIC && UN(bs[4..6]) == 0 && UN(bs[6..8]) == CMD_BLOCK_STATUS
    then Some(Request(UN(bs[8..16]), UN(bs[16..24]), UN(bs[24..28])))
    else None
  }

  lemma RequestRoundTrip(r: Request)
    requires r.handle < 0x1_0000_0000_0000_0000 && r.offset < 0x1_0000_0000_0000_0000 && r.length < 0x1_0000_0000
    ensures |WriteRequest(r)| == 28 && ReadRequest(WriteRequest(r)) == Some(r)
  {
    hide BE, UN;
    Widths();
    ReadWritten(REQUEST_MAGIC, 4);
    ReadWritten(0, 2);
    ReadWritten(CMD_BLOCK_STATUS, 2);
    ReadWritten(r.handle, 8);
    ReadWritten(r.offset, 8);
    ReadWritten(r.length, 4);
    var bs := WriteRequest(r);
    assert bs[..4] == BE(REQUEST_MAGIC, 4);
    assert bs[4..6] == BE(0, 2);
    assert bs[6..8] == BE(CMD_BLOCK_STATUS, 2);
    assert bs[8..16] == BE(r.handle, 8);
    assert bs[16..24] == BE(r.offset, 8);
    assert bs[24..28] == BE(r.length, 4);
  }
}
