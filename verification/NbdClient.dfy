/** The NBD client of the changed-block pipeline. Each reader of the socket is proved equal to a function
    of the bytes still to come, however the socket fragments them. */
module NbdClient {
  import opened Wrappers
  import opened NbdWire
  import opened ChangedBlocks

  /** A stretch of the export with the status the server reported for it. */
  datatype Status = Status(offset: nat, length: nat, status: nat)

  type Parsed<T> = Result<(T, Bytes), WireError>

  // ----- what is sent -----

  function WriteOption(option: nat, payload: Bytes): Bytes {
    BE(IHAVEOPT, 8) + BE(option, 4) + BE(|payload|, 4) + payload
  }

  function MetaContextPayload(exportName: Bytes, context: Bytes): Bytes {
    BE(|exportName|, 4) + exportName + BE(1, 4) + BE(|context|, 4) + context
  }

  function GoPayload(exportName: Bytes): Bytes {
    BE(|exportName|, 4) + exportName + BE(0, 2)
  }

  /** The requests of one walk, from `offset` on. */
  function Requests(size: nat, chunkSize: nat, handle: nat, offset: nat): seq<Request>
    requires chunkSize > 0
    decreases size - offset
  {
    if offset >= size then []
    else
      var length := Min(chunkSize, size - offset);
      [Request(handle, offset, length)] + Requests(size, chunkSize, handle + 1, offset + length)
  }

  function WriteRequests(rs: seq<Request>): Bytes {
    if rs == [] then [] else WriteRequest(rs[0]) + WriteRequests(rs[1..])
  }

  // ----- what is read, as functions of the stream -----

  function ReadHandshake(bs: Bytes): Parsed<nat> {
    if |bs| < 18 then Err(ShortRead)
    else if UN(bs[..8]) != NBDMAGIC then Err(BadMagic)
    else if UN(bs[8..16]) != IHAVEOPT then Err(BadMagic)
    else Ok((UN(bs[16..18]), bs[18..]))
  }

  function ReadStructuredAck(bs: Bytes): Parsed<()> {
    match ReadOptionReply(bs)
    case Err(e) => Err(e)
    case Ok((reply, rest)) =>
      if reply.option != OPT_STRUCTURED_REPLY || reply.rep != REP_ACK then Err(UnexpectedOption) else Ok(((), rest))
  }

  /** Bit 31 of the reply type marks an error. */
  predicate IsError(rep: nat) {
    rep / REP_FLAG_ERROR % 2 == 1
  }

  /** The reply loop of `_opt_set_meta_context`; the last context id announced before the ACK wins. */
  function ReadMetaContext(bs: Bytes, id: Option<nat>): Parsed<nat>
    decreases |bs|
  {
    match ReadOptionReply(bs)
    case Err(e) => Err(e)
    case Ok((reply, rest)) =>
      if reply.option != OPT_SET_META_CONTEXT then Err(UnexpectedOption)
      else if IsError(reply.rep) then Err(ServerError)
      else if reply.rep == REP_META_CONTEXT then
        if |reply.payload| < 4 then Err(Malformed) else ReadMetaContext(rest, Some(UN(reply.payload[..4])))
      else if reply.rep == REP_ACK then
        if id.None? then Err(NoContextId) else Ok((id.value, rest))
      else ReadMetaContext(rest, id)
  }

  /** The size in an INFO reply: only NBD_INFO_EXPORT of at least 12 bytes carries one. */
  function InfoSize(payload: Bytes, size: Option<nat>): Option<nat>
    requires |payload| >= 2
  {
    if UN(payload[..2]) == INFO_EXPORT && |payload| >= 12 then Some(UN(payload[2..10])) else size
  }

  /** The reply loop of `_opt_go`. */
  function ReadGo(bs: Bytes, size: Option<nat>): Parsed<nat>
    decreases |bs|
  {
    match ReadOptionReply(bs)
    case Err(e) => Err(e)
    case Ok((reply, rest)) =>
      if reply.option != OPT_GO then Err(UnexpectedOption)
      else if IsError(reply.rep) then Err(ServerError)
      else if reply.rep == REP_INFO then
        if |reply.payload| < 2 then Err(Malformed) else ReadGo(rest, InfoSize(reply.payload, size))
      else if reply.rep == REP_ACK then
        if size.None? then Err(NoExportInfo) else Ok((size.value, rest))
      else ReadGo(rest, size)
  }

  /** What the client can make something of: no error chunk, and in a BLOCK_STATUS chunk an id and, for the
      context `id`, whole descriptors. */
  predicate Acceptable(c: Chunk, id: nat) {
    && c.ctype != 0x8001
    && (c.ctype == 5 ==> |c.body| >= 4 && (UN(c.body[..4]) == id ==> (|c.body| - 4) % 8 == 0))
  }

  /** The descriptors a chunk contributes for context `id`. Chunk types the client does not know, and
      other contexts, contribute nothing. */
  function ChunkDescriptors(c: Chunk, id: nat): (r: Result<seq<Descriptor>, WireError>)
    ensures r.Ok? <==> Acceptable(c, id)
  {
    if c.ctype == REPLY_NONE then Ok([])
    else if c.ctype == REPLY_ERROR then if |c.body| < 4 then Err(Malformed) else Err(ServerError)
    else if c.ctype != REPLY_BLOCK_STATUS then Ok([])
    else if |c.body| < 4 then Err(Malformed)
    else if UN(c.body[..4]) != id then Ok([])
    else ReadDescriptors(c.body[4..])
  }

  /** All descriptors of the reply to one request, up to and including its DONE chunk, behind those in `ds`. */
  function ReadReply(bs: Bytes, handle: nat, id: nat, ds: seq<Descriptor>): (r: Parsed<seq<Descriptor>>)
    ensures r.Ok? ==> |r.value.1| < |bs|
    decreases |bs|
  {
    match ReadChunk(bs, handle)
    case Err(e) => Err(e)
    case Ok((c, rest)) =>
      match ChunkDescriptors(c, id)
      case Err(e) => Err(e)
      case Ok(more) => if c.Done() then Ok((ds + more, rest)) else ReadReply(rest, handle, id, ds + more)
  }

  /** Descriptors follow each other without gaps from `cur` on. */
  function Place(ds: seq<Descriptor>, cur: nat): seq<Status>
    decreases ds
  {
    if ds == [] then [] else [Status(cur, ds[0].length, ds[0].status)] + Place(ds[1..], cur + ds[0].length)
  }

  function Total(ds: seq<Descriptor>): nat {
    if ds == [] then 0 else ds[0].length + Total(ds[1..])
  }

  /** `_walk_block_status` from `offset` on, behind what was found before. The next request starts where
      this one ends, whatever its reply covered. */
  function Walk(bs: Bytes, id: nat, size: nat, chunkSize: nat, handle: nat, offset: nat,
                found: seq<Status>): Parsed<seq<Status>>
    requires chunkSize > 0
    decreases size - offset
  {
    if offset >= size then Ok((found, bs))
    else
      match ReadReply(bs, handle, id, [])
      case Err(e) => Err(e)
      case Ok((ds, rest)) =>
        Walk(rest, id, size, chunkSize, handle + 1, offset + Min(chunkSize, size - offset), found + Place(ds, offset))
  }

  /** Status 1 is dirty; everything else counts as clean. */
  function DirtyOnes(found: seq<Status>): seq<Extent> {
    if found == [] then []
    else if found[0].status == 1 then [Extent(found[0].offset, found[0].length)] + DirtyOnes(found[1..])
    else DirtyOnes(found[1..])
  }

  const BLOCK_STATUS_CHUNK: nat := 0x8000_0000

  /** Everything before the walk: the context id and the size of the export. */
  function Negotiation(bs: Bytes): Parsed<(nat, nat)> {
    match ReadHandshake(bs)
    case Err(e) => Err(e)
    case Ok((_, afterHello)) =>
      match ReadStructuredAck(afterHello)
      case Err(e) => Err(e)
      case Ok((_, afterAck)) =>
        match ReadMetaContext(afterAck, None)
        case Err(e) => Err(e)
        case Ok((id, afterMeta)) =>
          match ReadGo(afterMeta, None)
          case Err(e) => Err(e)
          case Ok((size, rest)) => Ok(((id, size), rest))
  }

  /** What `fetch_dirty_extents` makes of everything the server sends. */
  function Fetch(bs: Bytes): Parsed<seq<Extent>> {
    match Negotiation(bs)
    case Err(e) => Err(e)
    case Ok(((id, size), afterGo)) =>
      match Walk(afterGo, id, size, BLOCK_STATUS_CHUNK, 0, 0, [])
      case Err(e) => Err(e)
      case Ok((found, rest)) => Ok((DirtyOnes(found), rest))
  }

  /** What the client sends in a negotiation that ends well. */
  function Negotiating(exportName: Bytes, context: Bytes): Bytes {
    BE(1, 4)
    + WriteOption(OPT_STRUCTURED_REPLY, [])
    + WriteOption(OPT_SET_META_CONTEXT, MetaContextPayload(exportName, context))
    + WriteOption(OPT_GO, GoPayload(exportName))
  }

  // ----- lemmas the loops need -----

  lemma {:induction false} TotalConcat(a: seq<Descriptor>, b: seq<Descriptor>)
    ensures Total(a + b) == Total(a) + Total(b)
    decreases a
  {
    if a == [] {
      assert a + b == b;
    } else {
      TotalConcat(a[1..], b);
      assert (a + b)[0] == a[0] && (a + b)[1..] == a[1..] + b;
    }
  }

  lemma {:induction false} PlaceConcat(a: seq<Descriptor>, b: seq<Descriptor>, cur: nat)
    ensures Place(a + b, cur) == Place(a, cur) + Place(b, cur + Total(a))
    ensures Total(a + b) == Total(a) + Total(b)
    decreases a
  {
    TotalConcat(a, b);
    if a == [] {
      assert a + b == b && Total(a) == 0 && Place(a, cur) == [];
    } else {
      var head, next := [Status(cur, a[0].length, a[0].status)], cur + a[0].length;
      PlaceConcat(a[1..], b, next);
      PlaceOne(a, cur);
      PlaceOne(a + b, cur);
      assert (a + b)[0] == a[0] && (a + b)[1..] == a[1..] + b;
      assert next + Total(a[1..]) == cur + Total(a);
      assert head + (Place(a[1..], next) + Place(b, cur + Total(a))) ==
               head + Place(a[1..], next) + Place(b, cur + Total(a));
    }
  }

  lemma PlaceOne(ds: seq<Descriptor>, cur: nat)
    requires ds != []
    ensures Place(ds, cur) == [Status(cur, ds[0].length, ds[0].status)] + Place(ds[1..], cur + ds[0].length)
  {
  }

  lemma {:induction false} DirtyOnesConcat(a: seq<Status>, b: seq<Status>)
    ensures DirtyOnes(a + b) == DirtyOnes(a) + DirtyOnes(b)
  {
    if a == [] {
      assert a + b == b;
    } else {
      DirtyOnesConcat(a[1..], b);
      assert (a + b)[0] == a[0] && (a + b)[1..] == a[1..] + b;
      if a[0].status == 1 {
        var head := [Extent(a[0].offset, a[0].length)];
        assert head + (DirtyOnes(a[1..]) + DirtyOnes(b)) == head + DirtyOnes(a[1..]) + DirtyOnes(b);
      }
    }
  }

  /** A reader's outcome is the one the stream function gives, error included. */
  ghost predicate Agrees<T(!new)>(r: Result<T, WireError>, rest: Bytes, spec: Parsed<T>) {
    match r
    case Ok(v) => spec == Ok((v, rest))
    case Err(e) => spec == Err(e)
  }

  // ----- the connection -----

  class Socket {
    /** Bytes the server has yet to deliver before it closes. */
    var incoming: Bytes
    var sent: Bytes

    /** One receive call: some of the bytes to come, at most `n`; empty at the end of the stream. */
    method Recv(n: nat) returns (piece: Bytes)
      requires n > 0
      modifies `incoming
      ensures |piece| <= n && piece + incoming == old(incoming)
      ensures piece == [] <==> old(incoming) == []
    {
      if incoming == [] {
        return [];
      }
      var k: nat :| 1 <= k <= n && k <= |incoming|;
      piece := incoming[..k];
      incoming := incoming[k..];
    }

    method SendAll(data: Bytes)
      modifies `sent
      ensures sent == old(sent) + data
    {
      sent := sent + data;
    }

    /** Exactly `n` bytes, or an error exactly if fewer are left. */
    method RecvExact(n: nat) returns (r: Result<Bytes, WireError>)
      modifies `incoming
      ensures r.Ok? <==> n <= |old(incoming)|
      ensures r.Ok? ==> r.value == old(incoming)[..n] && incoming == old(incoming)[n..]
      ensures r.Err? ==> r.error == ShortRead
    {
      var buf: Bytes := [];
      while |buf| < n
        invariant |buf| <= n && buf + incoming == old(incoming)
        decreases n - |buf|
      {
        var piece := Recv(n - |buf|);
        if piece == [] {
          return Err(ShortRead);
        }
        buf := buf + piece;
      }
      r := Ok(buf);
    }

    method Handshake() returns (r: Result<nat, WireError>)
      modifies this
      ensures Agrees(r, incoming, ReadHandshake(old(incoming)))
      ensures sent == old(sent) + if r.Ok? then BE(1, 4) else []
    {
      var got := RecvExact(18);
      if got.Err? {
        return Err(got.error);
      }
      var hello := got.value;
      ghost var bs := old(incoming);
      assert hello[..8] == bs[..8] && hello[8..16] == bs[8..16] && hello[16..18] == bs[16..18];
      if UN(hello[..8]) != NBDMAGIC || UN(hello[8..16]) != IHAVEOPT {
        return Err(BadMagic);
      }
      SendAll(BE(1, 4));
      r := Ok(UN(hello[16..18]));
    }

    method RecvOptionReply() returns (r: Result<OptionReply, WireError>)
      modifies `incoming
      ensures Agrees(r, incoming, ReadOptionReply(old(incoming)))
      ensures r.Ok? ==> |incoming| < |old(incoming)|
    {
      var got := RecvExact(20);
      if got.Err? {
        return Err(got.error);
      }
      var head := got.value;
      ghost var bs := old(incoming);
      assert head[..8] == bs[..8] && head[8..12] == bs[8..12] && head[12..16] == bs[12..16]
             && head[16..20] == bs[16..20];
      if UN(head[..8]) != OPTION_REPLY_MAGIC {
        return Err(BadMagic);
      }
      var length := UN(head[16..20]);
      var payload := RecvExact(length);
      if payload.Err? {
        return Err(payload.error);
      }
      assert payload.value == bs[20..20 + length] && incoming == bs[20 + length..];
      r := Ok(OptionReply(UN(head[8..12]), UN(head[12..16]), payload.value));
    }

    method OptStructuredReply() returns (r: Result<(), WireError>)
      modifies this
      ensures Agrees(r, incoming, ReadStructuredAck(old(incoming)))
      ensures sent == old(sent) + WriteOption(OPT_STRUCTURED_REPLY, [])
    {
      SendAll(WriteOption(OPT_STRUCTURED_REPLY, []));
      var got := RecvOptionReply();
      if got.Err? {
        return Err(got.error);
      }
      if got.value.option != OPT_STRUCTURED_REPLY || got.value.rep != REP_ACK {
        return Err(UnexpectedOption);
      }
      r := Ok(());
    }

    method OptSetMetaContext(exportName: Bytes, context: Bytes) returns (r: Result<nat, WireError>)
      modifies this
      ensures Agrees(r, incoming, ReadMetaContext(old(incoming), None))
      ensures sent == old(sent) + WriteOption(OPT_SET_META_CONTEXT, MetaContextPayload(exportName, context))
    {
      SendAll(WriteOption(OPT_SET_META_CONTEXT, MetaContextPayload(exportName, context)));
      var id: Option<nat> := None;
      while true
        invariant ReadMetaContext(incoming, id) == ReadMetaContext(old(incoming), None)
        invariant sent == old(sent) + WriteOption(OPT_SET_META_CONTEXT, MetaContextPayload(exportName, context))
        decreases |incoming|
      {
        var got := RecvOptionReply();
        if got.Err? {
          return Err(got.error);
        }
        var reply := got.value;
        if reply.option != OPT_SET_META_CONTEXT {
          return Err(UnexpectedOption);
        }
        if IsError(reply.rep) {
          return Err(ServerError);
        }
        if reply.rep == REP_META_CONTEXT {
          if |reply.payload| < 4 {
            return Err(Malformed);
          }
          id := Some(UN(reply.payload[..4]));
        } else if reply.rep == REP_ACK {
          if id.None? {
            return Err(NoContextId);
          }
          return Ok(id.value);
        }
      }
    }

    method OptGo(exportName: Bytes) returns (r: Result<nat, WireError>)
      modifies this
      ensures Agrees(r, incoming, ReadGo(old(incoming), None))
      ensures sent == old(sent) + WriteOption(OPT_GO, GoPayload(exportName))
    {
      SendAll(WriteOption(OPT_GO, GoPayload(exportName)));
      var size: Option<nat> := None;
      while true
        invariant ReadGo(incoming, size) == ReadGo(old(incoming), None)
        invariant sent == old(sent) + WriteOption(OPT_GO, GoPayload(exportName))
        decreases |incoming|
      {
        var got := RecvOptionReply();
        if got.Err? {
          return Err(got.error);
        }
        var reply := got.value;
        if reply.option != OPT_GO {
          return Err(UnexpectedOption);
        }
        if IsError(reply.rep) {
          return Err(ServerError);
        }
        if reply.rep == REP_INFO {
          if |reply.payload| < 2 {
            return Err(Malformed);
          }
          if UN(reply.payload[..2]) == INFO_EXPORT && |reply.payload| >= 12 {
            size := Some(UN(reply.payload[2..10]));
          }
        } else if reply.rep == REP_ACK {
          if size.None? {
            return Err(NoExportInfo);
          }
          return Ok(size.value);
        }
      }
    }

    method RecvChunk(handle: nat) returns (r: Result<Chunk, WireError>)
      modifies `incoming
      ensures Agrees(r, incoming, ReadChunk(old(incoming), handle))
      ensures r.Ok? ==> |incoming| < |old(incoming)|
    {
      var got := RecvExact(20);
      if got.Err? {
        return Err(got.error);
      }
      var head := got.value;
      ghost var bs := old(incoming);
      assert head[..4] == bs[..4] && head[4..6] == bs[4..6] && head[6..8] == bs[6..8];
      assert head[8..16] == bs[8..16] && head[16..20] == bs[16..20];
      if UN(head[..4]) != STRUCTURED_REPLY_MAGIC {
        return Err(BadMagic);
      }
      if UN(head[8..16]) != handle {
        return Err(HandleMismatch);
      }
      var length := UN(head[16..20]);
      var body := RecvExact(length);
      if body.Err? {
        return Err(body.error);
      }
      assert body.value == bs[20..20 + length] && incoming == bs[20 + length..];
      r := Ok(Chunk(UN(head[4..6]), UN(head[6..8]), body.value));
    }

    /** All chunks of one reply, placing each descriptor where the one before it ended. */
    method RecvReply(handle: nat, id: nat, offset: nat) returns (r: Result<seq<Status>, WireError>)
      modifies `incoming
      ensures match ReadReply(old(incoming), handle, id, [])
              case Err(e) => r == Err(e)
              case Ok((ds, rest)) => r == Ok(Place(ds, offset)) && incoming == rest
    {
      var cur := offset;
      var found: seq<Status> := [];
      ghost var ds: seq<Descriptor> := [];
      while true
        invariant ReadReply(old(incoming), handle, id, []) == ReadReply(incoming, handle, id, ds)
        invariant found == Place(ds, offset) && cur == offset + Total(ds)
        decreases |incoming|
      {
        var got := RecvChunk(handle);
        if got.Err? {
          return Err(got.error);
        }
        var c := got.value;
        var placed := PlaceChunk(c, id, cur);
        if placed.Err? {
          return Err(placed.error);
        }
        ghost var more := ChunkDescriptors(c, id).value;
        PlaceConcat(ds, more, offset);
        found, cur, ds := found + placed.value.0, placed.value.1, ds + more;
        if c.Done() {
          return Ok(found);
        }
      }
    }

    method WalkBlockStatus(id: nat, size: nat, chunkSize: nat) returns (r: Result<seq<Status>, WireError>)
      requires chunkSize > 0
      modifies this
      ensures Agrees(r, incoming, Walk(old(incoming), id, size, chunkSize, 0, 0, []))
      ensures SentSome(old(sent), sent, WriteRequests(Requests(size, chunkSize, 0, 0)))
      ensures r.Ok? ==> sent == old(sent) + WriteRequests(Requests(size, chunkSize, 0, 0))
    {
      hide ReadReply, Place;
      var handle, offset := 0, 0;
      var found: seq<Status> := [];
      ghost var rs := Requests(size, chunkSize, 0, 0);
      while offset < size
        invariant offset <= size
        invariant Walk(old(incoming), id, size, chunkSize, 0, 0, []) ==
                    Walk(incoming, id, size, chunkSize, handle, offset, found)
        invariant StillToSend(old(sent), sent, rs, Requests(size, chunkSize, handle, offset))
      {
        var length := Min(chunkSize, size - offset);
        OneRequestSent(old(sent), sent, rs, Requests(size, chunkSize, handle, offset));
        SendAll(WriteRequest(Request(handle, offset, length)));
        var reply := RecvReply(handle, id, offset);
        if reply.Err? {
          return Err(reply.error);
        }
        found := found + reply.value;
        handle, offset := handle + 1, offset + length;
      }
      r := Ok(found);
    }

    /** The options in the only order the protocol allows: structured replies and the context before GO. */
    method Negotiate(exportName: Bytes, context: Bytes) returns (r: Result<(nat, nat), WireError>)
      modifies this
      ensures Agrees(r, incoming, Negotiation(old(incoming)))
      ensures r.Ok? ==> sent == old(sent) + Negotiating(exportName, context)
    {
      var hello := Handshake();
      if hello.Err? {
        return Err(hello.error);
      }
      var ack := OptStructuredReply();
      if ack.Err? {
        return Err(ack.error);
      }
      var id := OptSetMetaContext(exportName, context);
      if id.Err? {
        return Err(id.error);
      }
      var size := OptGo(exportName);
      if size.Err? {
        return Err(size.error);
      }
      FourSends(old(sent), BE(1, 4), WriteOption(OPT_STRUCTURED_REPLY, []),
                WriteOption(OPT_SET_META_CONTEXT, MetaContextPayload(exportName, context)),
                    WriteOption(OPT_GO, GoPayload(exportName)));
      r := Ok((id.value, size.value));
    }

    /** `fetch_dirty_extents` on a connected socket. */
    method FetchDirtyExtents(exportName: Bytes, context: Bytes)
      returns (r: Result<seq<Extent>, WireError>, ghost size: nat)
      modifies this
      ensures Agrees(r, incoming, Fetch(old(incoming)))
      ensures r.Ok? ==> size == Negotiation(old(incoming)).value.0.1
      ensures r.Ok? ==>
                sent == old(sent) + Negotiating(exportName, context)
                    + WriteRequests(Requests(size, BLOCK_STATUS_CHUNK, 0, 0))
    {
      size := 0;
      var go := Negotiate(exportName, context);
      if go.Err? {
        return Err(go.error), 0;
      }
      size := go.value.1;
      var walked := WalkBlockStatus(go.value.0, go.value.1, BLOCK_STATUS_CHUNK);
      if walked.Err? {
        return Err(walked.error), size;
      }
      var extents := KeepDirty(walked.value);
      r := Ok(extents);
    }
  }

  // ----- what has been sent -----

  /** `now` is `before` and some of `all`, which is sent in order. */
  ghost predicate SentSome(before: Bytes, now: Bytes, all: Bytes) {
    before <= now <= before + all
  }

  ghost predicate StillToSend(before: Bytes, now: Bytes, all: seq<Request>, rest: seq<Request>) {
    before <= now && now + WriteRequests(rest) == before + WriteRequests(all)
  }

  lemma OneRequestSent(before: Bytes, now: Bytes, all: seq<Request>, rest: seq<Request>)
    requires StillToSend(before, now, all, rest) && rest != []
    ensures StillToSend(before, now + WriteRequest(rest[0]), all, rest[1..])
    ensures SentSome(before, now + WriteRequest(rest[0]), WriteRequests(all))
  {
    var one, more := WriteRequest(rest[0]), WriteRequests(rest[1..]);
    assert now + (one + more) == now + one + more;
  }

  lemma FourSends(before: Bytes, a: Bytes, b: Bytes, c: Bytes, d: Bytes)
    ensures before + a + b + c + d == before + (a + b + c + d)
  {
  }

  method KeepDirty(found: seq<Status>) returns (extents: seq<Extent>)
    ensures extents == DirtyOnes(found)
  {
    extents := [];
    var i := 0;
    while i < |found|
      invariant 0 <= i <= |found|
      invariant extents == DirtyOnes(found[..i])
    {
      if found[i].status == 1 {
        extents := extents + [Extent(found[i].offset, found[i].length)];
      }
      assert found[..i + 1] == found[..i] + [found[i]];
      DirtyOnesConcat(found[..i], [found[i]]);
      i := i + 1;
    }
    assert found[..|found|] == found;
  }

  /** The body of the chunk loop: the statuses one chunk yields from `cur` on, and where it ends. */
  method PlaceChunk(c: Chunk, id: nat, cur: nat) returns (r: Result<(seq<Status>, nat), WireError>)
    ensures match r
            case Err(e) => ChunkDescriptors(c, id) == Err(e)
            case Ok((found, end)) =>
              && ChunkDescriptors(c, id).Ok?
              && found == Place(ChunkDescriptors(c, id).value, cur)
              && end == cur + Total(ChunkDescriptors(c, id).value)
  {
    if c.ctype == REPLY_NONE {
      return Ok(([], cur));
    }
    if c.ctype == REPLY_ERROR {
      return Err(if |c.body| < 4 then Malformed else ServerError);
    }
    if c.ctype != REPLY_BLOCK_STATUS {
      return Ok(([], cur));
    }
    if |c.body| < 4 {
      return Err(Malformed);
    }
    if UN(c.body[..4]) != id {
      return Ok(([], cur));
    }
    r := PlaceDescriptors(c.body[4..], cur);
  }

  method PlaceDescriptors(bs: Bytes, from: nat) returns (r: Result<(seq<Status>, nat), WireError>)
    ensures match r
            case Err(e) => ReadDescriptors(bs) == Err(e)
            case Ok((found, end)) =>
              && ReadDescriptors(bs).Ok?
              && found == Place(ReadDescriptors(bs).value, from)
              && end == from + Total(ReadDescriptors(bs).value)
  {
    var found: seq<Status> := [];
    var cur := from;
    ghost var ds: seq<Descriptor> := [];
    var i := 0;
    assert bs[0..] == bs;
    AfterNone(ReadDescriptors(bs));
    while i < |bs|
      invariant 0 <= i <= |bs|
      invariant ReadDescriptors(bs) == After(ds, ReadDescriptors(bs[i..]))
      invariant found == Place(ds, from) && cur == from + Total(ds)
    {
      assert bs[i..] != [];
      if i + 8 > |bs| {
        return Err(Malformed);
      }
      var d := Descriptor(UN(bs[i..i + 4]), UN(bs[i + 4..i + 8]));
      assert bs[i..][..4] == bs[i..i + 4] && bs[i..][4..8] == bs[i + 4..i + 8] && bs[i..][8..] == bs[i + 8..];
      DescriptorTaken(bs[i..], ds, d);
      PlaceConcat(ds, [d], from);
      found := found + [Status(cur, d.length, d.status)];
      cur := cur + d.length;
      ds := ds + [d];
      i := i + 8;
    }
    assert bs[i..] == [] && ds + [] == ds;
    r := Ok((found, cur));
  }

  ghost function After(ds: seq<Descriptor>, r: Result<seq<Descriptor>, WireError>): Result<seq<Descriptor>, WireError> {
    match r
    case Err(e) => Err(e)
    case Ok(more) => Ok(ds + more)
  }

  lemma AfterNone(r: Result<seq<Descriptor>, WireError>)
    ensures After([], r) == r
  {
    if r.Ok? {
      assert [] + r.value == r.value;
    }
  }

  lemma DescriptorTaken(bs: Bytes, ds: seq<Descriptor>, d: Descriptor)
    requires |bs| >= 8 && d == Descriptor(UN(bs[..4]), UN(bs[4..8]))
    ensures After(ds, ReadDescriptors(bs)) == After(ds + [d], ReadDescriptors(bs[8..]))
  {
    var rest := ReadDescriptors(bs[8..]);
    if rest.Ok? {
      assert ds + ([d] + rest.value) == ds + [d] + rest.value;
    }
  }
}
