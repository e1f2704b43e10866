/** A server that keeps to the NBD protocol, and what the client gets out of it: exactly the messages
    sent, exactly their bytes, and exactly the dirty bytes of the bitmap where the replies reach. */
module NbdServer {
  import opened Wrappers
  import opened NbdWire
  import opened NbdClient
  import opened ChangedBlocks

  // ----- option haggling -----

  function WriteHello(flags: nat): Bytes {
    BE(NBDMAGIC, 8) + BE(IHAVEOPT, 8) + BE(flags, 2)
  }

  function WriteOptionReplies(rs: seq<OptionReply>): Bytes {
    if rs == [] then [] else WriteOptionReply(rs[0]) + WriteOptionReplies(rs[1..])
  }

  /** The client does not look into what comes with it. */
  function Ack(option: nat, payload: Bytes): OptionReply {
    OptionReply(option, REP_ACK, payload)
  }

  lemma HelloDecodes(flags: nat, rest: Bytes)
    requires flags < 0x1_0000
    ensures ReadHandshake(WriteHello(flags) + rest) == Ok((flags, rest))
  {
    hide BE, UN;
    Widths();
    ReadWritten(NBDMAGIC, 8);
    ReadWritten(IHAVEOPT, 8);
    ReadWritten(flags, 2);
    var bs := WriteHello(flags) + rest;
    assert bs[..8] == BE(NBDMAGIC, 8) && bs[8..16] == BE(IHAVEOPT, 8) && bs[16..18] == BE(flags, 2);
    assert bs[18..] == rest;
  }

  /** Nothing else is taken for it. */
  lemma HelloExact(bs: Bytes)
    requires ReadHandshake(bs).Ok?
    ensures var (flags, rest) := ReadHandshake(bs).value; flags < 0x1_0000 && bs == WriteHello(flags) + rest
  {
    hide BE, UN;
    Widths();
    WrittenRead(bs[..8]);
    WrittenRead(bs[8..16]);
    WrittenRead(bs[16..18]);
    assert bs == bs[..8] + bs[8..16] + bs[16..18] + bs[18..];
  }

  lemma AckDecodes(payload: Bytes, rest: Bytes)
    requires |payload| < 0x1_0000_0000
    ensures ReadStructuredAck(WriteOptionReply(Ack(OPT_STRUCTURED_REPLY, payload)) + rest) == Ok(((), rest))
  {
    hide WriteOptionReply, ReadOptionReply;
    OptionReplyRoundTrip(Ack(OPT_STRUCTURED_REPLY, payload), rest);
  }

  lemma AckExact(bs: Bytes) returns (payload: Bytes)
    requires ReadStructuredAck(bs).Ok?
    ensures |payload| < 0x1_0000_0000
            && bs == WriteOptionReply(Ack(OPT_STRUCTURED_REPLY, payload)) + ReadStructuredAck(bs).value.1
  {
    hide WriteOptionReply, ReadOptionReply;
    OptionReplyExact(bs);
    payload := ReadOptionReply(bs).value.0.payload;
  }

  /** A reply the client reads on after: it answers the option, and is neither an error nor the ACK. */
  ghost predicate Interim(r: OptionReply, option: nat, infoType: nat, minimum: nat) {
    && OptionReplyFits(r) && r.option == option && r.rep < 0x8000_0000 && r.rep != REP_ACK
    && (r.rep == infoType ==> |r.payload| >= minimum)
  }

  ghost predicate AllInterim(rs: seq<OptionReply>, option: nat, infoType: nat, minimum: nat) {
    forall i :: 0 <= i < |rs| ==> Interim(rs[i], option, infoType, minimum)
  }

  function LastId(rs: seq<OptionReply>, id: Option<nat>): Option<nat>
    requires AllInterim(rs, OPT_SET_META_CONTEXT, REP_META_CONTEXT, 4)
    decreases rs
  {
    if rs == [] then id
    else
      assert Interim(rs[0], OPT_SET_META_CONTEXT, REP_META_CONTEXT, 4);
      LastId(rs[1..], if rs[0].rep == REP_META_CONTEXT then Some(UN(rs[0].payload[..4])) else id)
  }

  function LastSize(rs: seq<OptionReply>, size: Option<nat>): Option<nat>
    requires AllInterim(rs, OPT_GO, REP_INFO, 2)
    decreases rs
  {
    if rs == [] then size
    else
      assert Interim(rs[0], OPT_GO, REP_INFO, 2);
      LastSize(rs[1..], if rs[0].rep == REP_INFO then InfoSize(rs[0].payload, size) else size)
  }

  lemma {:induction false} MetaContextDecodes(rs: seq<OptionReply>, id: Option<nat>, payload: Bytes, rest: Bytes)
    requires AllInterim(rs, OPT_SET_META_CONTEXT, REP_META_CONTEXT, 4) && |payload| < 0x1_0000_0000
    ensures ReadMetaContext(WriteOptionReplies(rs) + (WriteOptionReply(Ack(OPT_SET_META_CONTEXT, payload)) + rest), id)
         == (match LastId(rs, id) case None => Err(NoContextId) case Some(i) => Ok((i, rest)))
    decreases rs
  {
    hide WriteOptionReply, ReadOptionReply;
    var tail := WriteOptionReply(Ack(OPT_SET_META_CONTEXT, payload)) + rest;
    if rs == [] {
      OptionReplyRoundTrip(Ack(OPT_SET_META_CONTEXT, payload), rest);
      assert WriteOptionReplies(rs) + tail == tail;
    } else {
      assert Interim(rs[0], OPT_SET_META_CONTEXT, REP_META_CONTEXT, 4);
      var more := WriteOptionReplies(rs[1..]) + tail;
      assert WriteOptionReplies(rs) + tail == WriteOptionReply(rs[0]) + more;
      OptionReplyRoundTrip(rs[0], more);
      MetaContextDecodes(rs[1..], if rs[0].rep == REP_META_CONTEXT then Some(UN(rs[0].payload[..4])) else id, payload,
                         rest);
    }
  }

  lemma {:induction false} GoDecodes(rs: seq<OptionReply>, size: Option<nat>, payload: Bytes, rest: Bytes)
    requires AllInterim(rs, OPT_GO, REP_INFO, 2) && |payload| < 0x1_0000_0000
    ensures ReadGo(WriteOptionReplies(rs) + (WriteOptionReply(Ack(OPT_GO, payload)) + rest), size)
         == (match LastSize(rs, size) case None => Err(NoExportInfo) case Some(n) => Ok((n, rest)))
    decreases rs
  {
    hide WriteOptionReply, ReadOptionReply;
    var tail := WriteOptionReply(Ack(OPT_GO, payload)) + rest;
    if rs == [] {
      OptionReplyRoundTrip(Ack(OPT_GO, payload), rest);
      assert WriteOptionReplies(rs) + tail == tail;
    } else {
      assert Interim(rs[0], OPT_GO, REP_INFO, 2);
      var more := WriteOptionReplies(rs[1..]) + tail;
      assert WriteOptionReplies(rs) + tail == WriteOptionReply(rs[0]) + more;
      OptionReplyRoundTrip(rs[0], more);
      GoDecodes(rs[1..], if rs[0].rep == REP_INFO then InfoSize(rs[0].payload, size) else size, payload, rest);
    }
  }

  /** Nothing else is taken for an announced context: the replies up to the first ACK answer the option,
      none reports an error, and one announces an id. */
  lemma {:induction false} MetaContextExact(bs: Bytes, id: Option<nat>) returns (rs: seq<OptionReply>, payload: Bytes)
    requires ReadMetaContext(bs, id).Ok?
    ensures AllInterim(rs, OPT_SET_META_CONTEXT, REP_META_CONTEXT, 4) && |payload| < 0x1_0000_0000
    ensures var (found, rest) := ReadMetaContext(bs, id).value;
            && bs == WriteOptionReplies(rs) + (WriteOptionReply(Ack(OPT_SET_META_CONTEXT, payload)) + rest)
            && LastId(rs, id) == Some(found)
    decreases |bs|
  {
    hide WriteOptionReply, ReadOptionReply;
    OptionReplyExact(bs);
    var (r, more) := ReadOptionReply(bs).value;
    if r.rep == REP_ACK {
      rs, payload := [], r.payload;
      assert bs == WriteOptionReplies(rs) + (WriteOptionReply(r) + more);
    } else {
      var next := if r.rep == REP_META_CONTEXT then Some(UN(r.payload[..4])) else id;
      rs, payload := MetaContextExact(more, next);
      InterimFirst(r, rs, OPT_SET_META_CONTEXT, REP_META_CONTEXT, 4);
      var tail := WriteOptionReply(Ack(OPT_SET_META_CONTEXT, payload)) + ReadMetaContext(bs, id).value.1;
      RepliesFirst(r, rs, tail);
      rs := [r] + rs;
    }
  }

  lemma {:induction false} GoExact(bs: Bytes, size: Option<nat>) returns (rs: seq<OptionReply>, payload: Bytes)
    requires ReadGo(bs, size).Ok?
    ensures AllInterim(rs, OPT_GO, REP_INFO, 2) && |payload| < 0x1_0000_0000
    ensures var (found, rest) := ReadGo(bs, size).value;
            && bs == WriteOptionReplies(rs) + (WriteOptionReply(Ack(OPT_GO, payload)) + rest)
            && LastSize(rs, size) == Some(found)
    decreases |bs|
  {
    hide WriteOptionReply, ReadOptionReply;
    OptionReplyExact(bs);
    var (r, more) := ReadOptionReply(bs).value;
    if r.rep == REP_ACK {
      rs, payload := [], r.payload;
      assert bs == WriteOptionReplies(rs) + (WriteOptionReply(r) + more);
    } else {
      var next := if r.rep == REP_INFO then InfoSize(r.payload, size) else size;
      rs, payload := GoExact(more, next);
      InterimFirst(r, rs, OPT_GO, REP_INFO, 2);
      var tail := WriteOptionReply(Ack(OPT_GO, payload)) + ReadGo(bs, size).value.1;
      RepliesFirst(r, rs, tail);
      rs := [r] + rs;
    }
  }

  lemma InterimFirst(r: OptionReply, rs: seq<OptionReply>, option: nat, infoType: nat, minimum: nat)
    requires Interim(r, option, infoType, minimum) && AllInterim(rs, option, infoType, minimum)
    ensures AllInterim([r] + rs, option, infoType, minimum) && ([r] + rs)[1..] == rs
  {
  }

  lemma RepliesFirst(r: OptionReply, rs: seq<OptionReply>, tail: Bytes)
    ensures WriteOptionReplies([r] + rs) + tail == WriteOptionReply(r) + (WriteOptionReplies(rs) + tail)
  {
    assert ([r] + rs)[1..] == rs;
  }

  /** The id taken is the one announced last. */
  lemma {:induction false} LastIdMeans(rs: seq<OptionReply>, id: Option<nat>, i: nat)
    requires AllInterim(rs, OPT_SET_META_CONTEXT, REP_META_CONTEXT, 4)
    requires i < |rs| && rs[i].rep == REP_META_CONTEXT
    requires forall j :: i < j < |rs| ==> rs[j].rep != REP_META_CONTEXT
    ensures |rs[i].payload| >= 4 && LastId(rs, id) == Some(UN(rs[i].payload[..4]))
    decreases rs
  {
    assert Interim(rs[0], OPT_SET_META_CONTEXT, REP_META_CONTEXT, 4);
    var next := if rs[0].rep == REP_META_CONTEXT then Some(UN(rs[0].payload[..4])) else id;
    if i > 0 {
      LastIdMeans(rs[1..], next, i - 1);
    } else {
      NoIdMore(rs[1..], next);
    }
  }

  lemma {:induction false} NoIdMore(rs: seq<OptionReply>, id: Option<nat>)
    requires AllInterim(rs, OPT_SET_META_CONTEXT, REP_META_CONTEXT, 4)
    requires forall j :: 0 <= j < |rs| ==> rs[j].rep != REP_META_CONTEXT
    ensures LastId(rs, id) == id
    decreases rs
  {
    if rs != [] {
      NoIdMore(rs[1..], id);
    }
  }

  /** An INFO reply that carries the size of the export, in its bytes 2 to 10. */
  predicate TellsSize(r: OptionReply) {
    r.rep == REP_INFO && |r.payload| >= 12 && UN(r.payload[..2]) == INFO_EXPORT
  }

  /** The size taken is the one told last. */
  lemma {:induction false} LastSizeMeans(rs: seq<OptionReply>, size: Option<nat>, i: nat)
    requires AllInterim(rs, OPT_GO, REP_INFO, 2) && i < |rs| && TellsSize(rs[i])
    requires forall j :: i < j < |rs| ==> !TellsSize(rs[j])
    ensures LastSize(rs, size) == Some(UN(rs[i].payload[2..10]))
    decreases rs
  {
    assert Interim(rs[0], OPT_GO, REP_INFO, 2);
    var next := if rs[0].rep == REP_INFO then InfoSize(rs[0].payload, size) else size;
    if i > 0 {
      LastSizeMeans(rs[1..], next, i - 1);
    } else {
      NoSizeMore(rs[1..], next);
    }
  }

  lemma {:induction false} NoSizeMore(rs: seq<OptionReply>, size: Option<nat>)
    requires AllInterim(rs, OPT_GO, REP_INFO, 2) && forall j :: 0 <= j < |rs| ==> !TellsSize(rs[j])
    ensures LastSize(rs, size) == size
    decreases rs
  {
    if rs != [] {
      assert Interim(rs[0], OPT_GO, REP_INFO, 2) && !TellsSize(rs[0]);
      NoSizeMore(rs[1..], size);
    }
  }

  // ----- what the server understands -----

  /** An option as it comes from the client, and what follows it. */
  function ReadOption(bs: Bytes): Option<(nat, Bytes, Bytes)> {
    if |bs| < 16 || UN(bs[..8]) != IHAVEOPT || |bs| < 16 + UN(bs[12..16]) then None
    else
      var n := 16 + UN(bs[12..16]);
      Some((UN(bs[8..12]), bs[16..n], bs[n..]))
  }

  /** A string, preceded by its length in four bytes, and what follows it. */
  function ReadString(bs: Bytes): (r: Option<(Bytes, Bytes)>)
    ensures r.Some? ==> |r.value.1| < |bs|
  {
    if |bs| < 4 || |bs| < 4 + UN(bs[..4]) then None else Some((bs[4..4 + UN(bs[..4])], bs[4 + UN(bs[..4])..]))
  }

  /** Exactly `n` strings, and nothing more. */
  function ReadStrings(bs: Bytes, n: nat): Option<seq<Bytes>> {
    if n == 0 then if bs == [] then Some([]) else None
    else
      match ReadString(bs)
      case None => None
      case Some((first, rest)) =>
        match ReadStrings(rest, n - 1)
        case None => None
        case Some(others) => Some([first] + others)
  }

  /** NBD_OPT_SET_META_CONTEXT: the export, and the contexts asked for. */
  function ReadSetMetaContext(payload: Bytes): Option<(Bytes, seq<Bytes>)> {
    match ReadString(payload)
    case None => None
    case Some((exportName, rest)) =>
      if |rest| < 4 then None
      else
        match ReadStrings(rest[4..], UN(rest[..4]))
        case None => None
        case Some(contexts) => Some((exportName, contexts))
  }

  /** NBD_OPT_GO: the export, and the kinds of information asked for, in two bytes each. */
  function ReadGoRequest(payload: Bytes): Option<(Bytes, Bytes)> {
    match ReadString(payload)
    case None => None
    case Some((exportName, rest)) =>
      if |rest| < 2 || |rest| != 2 + 2 * UN(rest[..2]) then None else Some((exportName, rest[2..]))
  }

  lemma OptionRoundTrip(option: nat, payload: Bytes, rest: Bytes)
    requires option < 0x1_0000_0000 && |payload| < 0x1_0000_0000
    ensures ReadOption(WriteOption(option, payload) + rest) == Some((option, payload, rest))
  {
    hide BE, UN;
    Widths();
    ReadWritten(IHAVEOPT, 8);
    ReadWritten(option, 4);
    ReadWritten(|payload|, 4);
    var bs := WriteOption(option, payload) + rest;
    assert bs[..8] == BE(IHAVEOPT, 8) && bs[8..12] == BE(option, 4) && bs[12..16] == BE(|payload|, 4);
    assert bs[16..16 + |payload|] == payload && bs[16 + |payload|..] == rest;
  }

  lemma StringRoundTrip(text: Bytes, rest: Bytes)
    requires |text| < 0x1_0000_0000
    ensures ReadString(BE(|text|, 4) + text + rest) == Some((text, rest))
  {
    hide BE, UN;
    Widths();
    ReadWritten(|text|, 4);
    var bs := BE(|text|, 4) + text + rest;
    assert bs[..4] == BE(|text|, 4) && bs[4..4 + |text|] == text && bs[4 + |text|..] == rest;
  }

  /** The server learns the export and the one context asked for. */
  lemma SetMetaContextRoundTrip(exportName: Bytes, context: Bytes)
    requires |exportName| < 0x1_0000_0000 && |context| < 0x1_0000_0000
    ensures ReadSetMetaContext(MetaContextPayload(exportName, context)) == Some((exportName, [context]))
  {
    hide BE, UN;
    Widths();
    ReadWritten(1, 4);
    var query := BE(|context|, 4) + context;
    var rest := BE(1, 4) + query;
    StringRoundTrip(exportName, rest);
    assert MetaContextPayload(exportName, context) == BE(|exportName|, 4) + exportName + rest;
    assert rest[..4] == BE(1, 4) && rest[4..] == query;
    StringRoundTrip(context, []);
    assert query == BE(|context|, 4) + context + [];
    hide ReadString;
    var none: seq<Bytes> := [];
    assert ReadStrings([], 0) == Some(none) && [context] + none == [context];
  }

  /** The server learns the export, and that it is asked for what it usually tells. */
  lemma GoRoundTrip(exportName: Bytes)
    requires |exportName| < 0x1_0000_0000
    ensures ReadGoRequest(GoPayload(exportName)) == Some((exportName, []))
  {
    hide BE, UN;
    Widths();
    ReadWritten(0, 2);
    StringRoundTrip(exportName, BE(0, 2));
    assert BE(0, 2)[..2] == BE(0, 2) && BE(0, 2)[2..] == [];
  }

  /** The export and the contexts the client asks for, and the export it goes on to, if it speaks the fixed
      newstyle, wants structured replies and asks in the order the protocol demands. */
  function ReadNegotiating(bs: Bytes): Option<(Bytes, seq<Bytes>, Bytes, Bytes)> {
    if |bs| < 4 || UN(bs[..4]) != 1 then None
    else
      match ReadOption(bs[4..])
      case None => None
      case Some((first, none, afterFirst)) =>
        match ReadOption(afterFirst)
        case None => None
        case Some((second, query, afterSecond)) =>
          match ReadOption(afterSecond)
          case None => None
          case Some((third, request, rest)) =>
            if first != 8 || none != [] || second != 10 || third != 7 then None
            else
              match ReadSetMetaContext(query)
              case None => None
              case Some((exportName, contexts)) =>
                match ReadGoRequest(request)
                case None => None
                case Some((chosen, _)) => Some((exportName, contexts, chosen, rest))
  }

  /** All the client says in a negotiation is understood: the one context of the export, and the export. */
  lemma NegotiatingRoundTrip(exportName: Bytes, context: Bytes, rest: Bytes)
    requires |exportName| + |context| < 0xFFFF_FFF0
    ensures ReadNegotiating(Negotiating(exportName, context) + rest) == Some((exportName, [context], exportName, rest))
  {
    hide BE, UN, Pow256, ReadOption, WriteOption, ReadSetMetaContext, ReadGoRequest, MetaContextPayload, GoPayload;
    var query, request := MetaContextPayload(exportName, context), GoPayload(exportName);
    var flags := BE(1, 4);
    OneFlag(flags);
    PayloadsFit(exportName, context);
    SetMetaContextRoundTrip(exportName, context);
    GoRoundTrip(exportName);
    var a, b, c := WriteOption(OPT_STRUCTURED_REPLY, []), WriteOption(OPT_SET_META_CONTEXT, query),
        WriteOption(OPT_GO, request);
    OptionRoundTrip(OPT_STRUCTURED_REPLY, [], b + (c + rest));
    OptionRoundTrip(OPT_SET_META_CONTEXT, query, c + rest);
    OptionRoundTrip(OPT_GO, request, rest);
    FlagsFirst(flags, a, b, c, rest);
  }

  lemma OneFlag(flags: Bytes)
    requires flags == BE(1, 4)
    ensures UN(flags) == 1
  {
    Widths();
    ReadWritten(1, 4);
  }

  lemma PayloadsFit(exportName: Bytes, context: Bytes)
    ensures |MetaContextPayload(exportName, context)| == 12 + |exportName| + |context|
    ensures |GoPayload(exportName)| == 6 + |exportName|
  {
  }

  lemma FlagsFirst(flags: Bytes, a: Bytes, b: Bytes, c: Bytes, rest: Bytes)
    requires |flags| == 4
    ensures var bs := flags + a + b + c + rest; bs[..4] == flags && bs[4..] == a + (b + (c + rest))
  {
    assert flags + a + b + c + rest == flags + (a + (b + (c + rest)));
  }

  // ----- block status replies -----

  type Reply = seq<Chunk>

  /** Chunks that fit their fields, the last one and only it marked DONE. */
  ghost predicate WellFormed(reply: Reply, handle: nat) {
    && reply != []
    && (forall i :: 0 <= i < |reply| ==> ChunkFits(reply[i], handle))
    && (forall i :: 0 <= i < |reply| ==> (reply[i].Done() <==> i == |reply| - 1))
  }

  function WriteReply(reply: Reply, handle: nat): Bytes {
    if reply == [] then [] else WriteChunk(reply[0], handle) + WriteReply(reply[1..], handle)
  }

  /** What a reply says about the context. */
  function DescriptorsOf(reply: Reply, id: nat): (r: Result<seq<Descriptor>, WireError>)
    ensures r.Ok? <==> forall c :: c in reply ==> Acceptable(c, id)
  {
    if reply == [] then Ok([])
    else
      assert reply == [reply[0]] + reply[1..];
      match ChunkDescriptors(reply[0], id)
      case Err(e) => Err(e)
      case Ok(ds) =>
        match DescriptorsOf(reply[1..], id)
        case Err(e) => Err(e)
        case Ok(more) => Ok(ds + more)
  }

  /** The bytes in which a reply speaks about the context. */
  function StatusBytes(reply: Reply, id: nat): Bytes {
    if reply == [] then []
    else
      var c := reply[0];
      (if c.ctype == 5 && |c.body| >= 4 && UN(c.body[..4]) == id then c.body[4..] else []) + StatusBytes(reply[1..], id)
  }

  /** The descriptors taken from a reply are written there, one after the other, and there are no others. */
  lemma {:induction false} DescriptorsWritten(reply: Reply, id: nat)
    requires forall c :: c in reply ==> Acceptable(c, id)
    ensures WriteDescriptors(DescriptorsOf(reply, id).value) == StatusBytes(reply, id)
    decreases reply
  {
    hide UN;
    if reply != [] {
      var c := reply[0];
      assert Acceptable(c, id);
      DescriptorsWritten(reply[1..], id);
      if c.ctype == 5 && UN(c.body[..4]) == id {
        DescriptorsExact(c.body[4..]);
      }
      DescriptorsConcat(ChunkDescriptors(c, id).value, DescriptorsOf(reply[1..], id).value);
    }
  }

  lemma {:induction false} DescriptorsConcat(a: seq<Descriptor>, b: seq<Descriptor>)
    ensures WriteDescriptors(a + b) == WriteDescriptors(a) + WriteDescriptors(b)
    decreases a
  {
    hide BE;
    if a == [] {
      assert a + b == b;
    } else {
      DescriptorsConcat(a[1..], b);
      assert (a + b)[0] == a[0] && (a + b)[1..] == a[1..] + b;
      var first := BE(a[0].length, 4) + BE(a[0].status, 4);
      assert first + (WriteDescriptors(a[1..]) + WriteDescriptors(b)) ==
               first + WriteDescriptors(a[1..]) + WriteDescriptors(b);
    }
  }

  /** A last chunk that is neither an error nor speaks of the context, as the chunk of type 0 that usually
      ends a reply, adds nothing and takes nothing away. */
  lemma {:induction false} EndAddsNothing(reply: Reply, end: Chunk, id: nat)
    requires end.ctype != 5 && end.ctype != 0x8001
    ensures DescriptorsOf(reply + [end], id) == DescriptorsOf(reply, id)
    decreases reply
  {
    var all := reply + [end];
    if reply == [] {
      var none: seq<Descriptor> := [];
      assert all[1..] == [] && none + none == none;
    } else {
      assert all[0] == reply[0] && all[1..] == reply[1..] + [end];
      EndAddsNothing(reply[1..], end, id);
    }
  }

  /** So a reply that ends with a DONE chunk of type 0 is what came before it. */
  lemma NoneEndsReply(reply: Reply, end: Chunk, handle: nat, id: nat, rest: Bytes)
    requires forall c :: c in reply ==> ChunkFits(c, handle) && c.flags % 2 == 0 && Acceptable(c, id)
    requires ChunkFits(end, handle) && end.ctype == 0 && end.flags % 2 == 1
    ensures ReadReply(WriteReply(reply + [end], handle) + rest, handle, id, []) ==
              Ok((DescriptorsOf(reply, id).value, rest))
  {
    var all := reply + [end];
    assert forall i :: 0 <= i < |reply| ==> all[i] in reply;
    assert WellFormed(all, handle);
    ReplyDecodes(all, handle, id, [], rest);
    EndAddsNothing(reply, end, id);
    var ds := DescriptorsOf(reply, id).value;
    assert [] + ds == ds;
  }

  /** The reply to one request is read to its end, and no further. */
  lemma {:induction false} ReplyDecodes(reply: Reply, handle: nat, id: nat, ds: seq<Descriptor>, rest: Bytes)
    requires WellFormed(reply, handle)
    ensures ReadReply(WriteReply(reply, handle) + rest, handle, id, ds)
         == (match DescriptorsOf(reply, id) case Err(e) => Err(e) case Ok(more) => Ok((ds + more, rest)))
    decreases reply
  {
    hide WriteChunk, ReadChunk, ChunkDescriptors;
    var more := WriteReply(reply[1..], handle) + rest;
    assert WriteReply(reply, handle) + rest == WriteChunk(reply[0], handle) + more;
    ChunkRoundTrip(reply[0], handle, more);
    var first := ChunkDescriptors(reply[0], id);
    if first.Ok? {
      if |reply| == 1 {
        assert reply[1..] == [] && more == rest && first.value + [] == first.value;
      } else {
        assert !reply[0].Done();
        ReplyDecodes(reply[1..], handle, id, ds + first.value, rest);
        var others := DescriptorsOf(reply[1..], id);
        assert others.Ok? ==> ds + first.value + others.value == ds + (first.value + others.value);
      }
    }
  }

  /** Nothing else is taken for a reply. */
  lemma {:induction false} ReplyExact(bs: Bytes, handle: nat, id: nat, ds: seq<Descriptor>) returns (reply: Reply)
    requires ReadReply(bs, handle, id, ds).Ok?
    ensures WellFormed(reply, handle) && forall c :: c in reply ==> Acceptable(c, id)
    ensures bs == WriteReply(reply, handle) + ReadReply(bs, handle, id, ds).value.1
    decreases |bs|
  {
    hide WriteChunk, ReadChunk;
    ChunkExact(bs, handle);
    var (c, more) := ReadChunk(bs, handle).value;
    hide ChunkDescriptors;
    if c.Done() {
      reply := [c];
      assert WriteReply(reply, handle) == WriteChunk(c, handle) + WriteReply([], handle);
    } else {
      var tail := ReplyExact(more, handle, id, ds + ChunkDescriptors(c, id).value);
      reply := [c] + tail;
      ReplyFirst(c, tail, handle, ReadReply(bs, handle, id, ds).value.1);
    }
  }

  lemma ReplyFirst(c: Chunk, reply: Reply, handle: nat, rest: Bytes)
    requires WellFormed(reply, handle) && ChunkFits(c, handle) && !c.Done()
    ensures WellFormed([c] + reply, handle)
    ensures WriteReply([c] + reply, handle) + rest == WriteChunk(c, handle) + (WriteReply(reply, handle) + rest)
  {
    assert ([c] + reply)[1..] == reply;
  }

  /** One reply per request, in order. */
  ghost predicate Answers(script: seq<Reply>, rs: seq<Request>, id: nat) {
    |script| == |rs| && forall i :: 0 <= i < |rs| ==> Answer(script[i], rs[i], id)
  }

  ghost predicate Answer(reply: Reply, r: Request, id: nat) {
    WellFormed(reply, r.handle) && forall c :: c in reply ==> Acceptable(c, id)
  }

  function WriteScript(script: seq<Reply>, handle: nat): Bytes
    decreases script
  {
    if script == [] then [] else WriteReply(script[0], handle) + WriteScript(script[1..], handle + 1)
  }

  /** Each reply placed at the start of its request. */
  function Placed(script: seq<Reply>, rs: seq<Request>, id: nat): seq<Status>
    requires Answers(script, rs, id)
    decreases script
  {
    if script == [] then []
    else
      AnswersRest(script, rs, id);
      Place(DescriptorsOf(script[0], id).value, rs[0].offset) + Placed(script[1..], rs[1..], id)
  }

  lemma AnswersRest(script: seq<Reply>, rs: seq<Request>, id: nat)
    requires script != [] && Answers(script, rs, id)
    ensures Answer(script[0], rs[0], id) && Answers(script[1..], rs[1..], id)
  {
    forall i | 0 <= i < |rs| - 1 ensures Answer(script[1..][i], rs[1..][i], id) {
      assert Answer(script[i + 1], rs[i + 1], id);
    }
  }

  lemma {:induction false} WalkDecodes(script: seq<Reply>, id: nat, size: nat, chunkSize: nat, handle: nat, offset: nat,
                                       found: seq<Status>, rest: Bytes)
    requires chunkSize > 0 && offset <= size
    requires Answers(script, Requests(size, chunkSize, handle, offset), id)
    ensures Walk(WriteScript(script, handle) + rest, id, size, chunkSize, handle, offset, found)
         == Ok((found + Placed(script, Requests(size, chunkSize, handle, offset), id), rest))
    decreases script
  {
    hide WriteReply, ReadReply, WellFormed, DescriptorsOf;
    var rs := Requests(size, chunkSize, handle, offset);
    if offset == size {
      assert WriteScript(script, handle) + rest == rest && found + [] == found;
    } else {
      var next := offset + Min(chunkSize, size - offset);
      AnswersRest(script, rs, id);
      assert rs[1..] == Requests(size, chunkSize, handle + 1, next);
      var more := WriteScript(script[1..], handle + 1) + rest;
      assert WriteScript(script, handle) + rest == WriteReply(script[0], handle) + more;
      ReplyDecodes(script[0], handle, id, [], more);
      var ds := DescriptorsOf(script[0], id).value;
      assert [] + ds == ds;
      WalkDecodes(script[1..], id, size, chunkSize, handle + 1, next, found + Place(ds, offset), rest);
      assert found + Place(ds, offset) + Placed(script[1..], rs[1..], id) ==
               found + (Place(ds, offset) + Placed(script[1..], rs[1..], id));
    }
  }

  /** Nothing else is taken for the replies to a walk. */
  lemma {:induction false} WalkExact(bs: Bytes, id: nat, size: nat, chunkSize: nat, handle: nat, offset: nat,
                                     found: seq<Status>) returns (script: seq<Reply>)
    requires chunkSize > 0 && offset <= size && Walk(bs, id, size, chunkSize, handle, offset, found).Ok?
    ensures Answers(script, Requests(size, chunkSize, handle, offset), id)
    ensures bs == WriteScript(script, handle) + Walk(bs, id, size, chunkSize, handle, offset, found).value.1
    decreases size - offset
  {
    hide WriteReply, ReadReply, WellFormed;
    if offset == size {
      script := [];
    } else {
      var next := offset + Min(chunkSize, size - offset);
      var (ds, more) := ReadReply(bs, handle, id, []).value;
      var reply := ReplyExact(bs, handle, id, []);
      var tail := WalkExact(more, id, size, chunkSize, handle + 1, next, found + Place(ds, offset));
      script := [reply] + tail;
      var rs, rest := Requests(size, chunkSize, handle, offset), Requests(size, chunkSize, handle + 1, next);
      assert rs == [Request(handle, offset, Min(chunkSize, size - offset))] + rest;
      forall i | 0 <= i < |rs| ensures Answer(script[i], rs[i], id) {
        if i > 0 {
          assert script[i] == tail[i - 1] && rs[i] == rest[i - 1] && Answer(tail[i - 1], rest[i - 1], id);
        }
      }
      ScriptFirst(reply, tail, handle, Walk(bs, id, size, chunkSize, handle, offset, found).value.1);
    }
  }

  lemma ScriptFirst(reply: Reply, script: seq<Reply>, handle: nat, rest: Bytes)
    ensures WriteScript([reply] + script, handle) + rest ==
              WriteReply(reply, handle) + (WriteScript(script, handle + 1) + rest)
  {
    assert ([reply] + script)[1..] == script;
  }

  /** One reply per request, each complete, whatever it says. */
  ghost predicate Framed(script: seq<Reply>, rs: seq<Request>) {
    |script| == |rs| && forall i :: 0 <= i < |rs| ==> WellFormed(script[i], rs[i].handle)
  }

  /** The walk goes through exactly if all chunks of all replies are acceptable. */
  lemma {:induction false} WalkOkIff(script: seq<Reply>, id: nat, size: nat, chunkSize: nat, handle: nat, offset: nat,
                                     found: seq<Status>, rest: Bytes)
    requires chunkSize > 0 && offset <= size && Framed(script, Requests(size, chunkSize, handle, offset))
    ensures Walk(WriteScript(script, handle) + rest, id, size, chunkSize, handle, offset, found).Ok?
       <==> forall i, c :: 0 <= i < |script| && c in script[i] ==> Acceptable(c, id)
    decreases script
  {
    hide WriteReply, ReadReply, Acceptable, DescriptorsOf, Place, WriteChunk;
    if offset < size {
      var next := offset + Min(chunkSize, size - offset);
      var rs, later := Requests(size, chunkSize, handle, offset), Requests(size, chunkSize, handle + 1, next);
      assert rs[1..] == later && WellFormed(script[0], rs[0].handle);
      var more := WriteScript(script[1..], handle + 1) + rest;
      assert WriteScript(script, handle) + rest == WriteReply(script[0], handle) + more;
      ReplyDecodes(script[0], handle, id, [], more);
      assert forall i :: 0 <= i < |later| ==> script[1..][i] == script[i + 1] && later[i] == rs[i + 1];
      hide WellFormed;
      assert Framed(script[1..], later);
      if DescriptorsOf(script[0], id).Ok? {
        var ds := DescriptorsOf(script[0], id).value;
        WalkOkIff(script[1..], id, size, chunkSize, handle + 1, next, found + Place([] + ds, offset), rest);
      }
      FirstAndLater(script, id);
    }
  }

  lemma FirstAndLater(script: seq<Reply>, id: nat)
    requires script != []
    ensures (forall i, c :: 0 <= i < |script| && c in script[i] ==> Acceptable(c, id)) <==>
              (forall c :: c in script[0] ==> Acceptable(c, id))
                && (forall i, c :: 0 <= i < |script[1..]| && c in script[1..][i] ==> Acceptable(c, id))
  {
    hide Acceptable;
    if (forall c :: c in script[0] ==> Acceptable(c, id))
        && (forall i, c :: 0 <= i < |script[1..]| && c in script[1..][i] ==> Acceptable(c, id)) {
      forall i, c | 0 <= i < |script| && c in script[i] ensures Acceptable(c, id) {
        assert i > 0 ==> script[i] == script[1..][i - 1];
      }
    }
    if forall i, c :: 0 <= i < |script| && c in script[i] ==> Acceptable(c, id) {
      forall i, c | 0 <= i < |script[1..]| && c in script[1..][i] ensures Acceptable(c, id) {
        assert script[1..][i] == script[i + 1];
      }
    }
  }

  // ----- exactness -----

  predicate In(f: Status, x: int) {
    f.offset <= x < f.offset + f.length
  }

  ghost predicate Reached(found: seq<Status>, x: int) {
    exists i :: 0 <= i < |found| && In(found[i], x)
  }

  /** Within the export, a status is 1 exactly over dirty bytes. */
  ghost predicate Accurate(found: seq<Status>, dirty: iset<int>, size: nat) {
    forall i, x :: 0 <= i < |found| && In(found[i], x) && x < size ==> (found[i].status == 1 <==> x in dirty)
  }

  lemma {:induction false} DirtyOnesCover(found: seq<Status>, x: int)
    ensures Dirty(DirtyOnes(found), x) <==> exists i :: 0 <= i < |found| && found[i].status == 1 && In(found[i], x)
    decreases found
  {
    if found != [] {
      var head, tail := found[0], found[1..];
      DirtyOnesCover(tail, x);
      if head.status == 1 {
        DirtySplit(Extent(head.offset, head.length), DirtyOnes(tail), x);
      }
      if i :| 0 <= i < |tail| && tail[i].status == 1 && In(tail[i], x) {
        assert found[i + 1] == tail[i];
      }
      if i :| 0 <= i < |found| && found[i].status == 1 && In(found[i], x) {
        assert i > 0 ==> tail[i - 1] == found[i];
      }
    }
  }

  lemma DirtySplit(e: Extent, es: seq<Extent>, x: int)
    ensures Dirty([e] + es, x) <==> Covers(e, x) || Dirty(es, x)
  {
    if Covers(e, x) {
      assert e in [e] + es;
    }
    if Dirty(es, x) {
      var f :| f in es && Covers(f, x);
      assert f in [e] + es;
    }
  }

  /** From accurate replies the client gets the dirty bytes they reach, and nothing else of the export. */
  lemma ReachedDirtyBytes(found: seq<Status>, dirty: iset<int>, size: nat, x: int)
    requires Accurate(found, dirty, size) && x < size
    ensures Dirty(DirtyOnes(found), x) <==> x in dirty && Reached(found, x)
  {
    DirtyOnesCover(found, x);
  }

  ghost predicate Exact(extents: seq<Extent>, dirty: iset<int>, size: nat) {
    forall x :: 0 <= x < size ==> (Dirty(extents, x) <==> x in dirty)
  }

  /** The walk goes on where its request ended, not where the reply did; so its outcome is exact if and
      only if no dirty byte is left out by all the replies. */
  lemma ExactIff(found: seq<Status>, dirty: iset<int>, size: nat)
    requires Accurate(found, dirty, size)
    ensures Exact(DirtyOnes(found), dirty, size) <==> forall x :: 0 <= x < size && x in dirty ==> Reached(found, x)
  {
    forall x | 0 <= x < size ensures Dirty(DirtyOnes(found), x) <==> x in dirty && Reached(found, x) {
      ReachedDirtyBytes(found, dirty, size, x);
    }
  }

  // ----- replies that cover their requests -----

  /** The requests of a walk tile what is left of the export: in order, without gap or overlap. */
  lemma {:induction false} RequestsTile(size: nat, chunkSize: nat, handle: nat, offset: nat)
    requires chunkSize > 0 && offset <= size
    ensures var rs := Requests(size, chunkSize, handle, offset);
            && (rs == [] <==> offset == size)
            && (rs != [] ==> rs[0].offset == offset && rs[|rs| - 1].offset + rs[|rs| - 1].length == size)
            && (forall i :: 0 <= i < |rs| ==> rs[i].handle == handle + i && 1 <= rs[i].length <= chunkSize)
            && (forall i, j :: 0 <= i && j == i + 1 < |rs| ==> rs[j].offset == rs[i].offset + rs[i].length)
    decreases size - offset
  {
    if offset < size {
      var next := offset + Min(chunkSize, size - offset);
      RequestsTile(size, chunkSize, handle + 1, next);
      var rs, tail := Requests(size, chunkSize, handle, offset), Requests(size, chunkSize, handle + 1, next);
      assert rs[1..] == tail;
      assert forall i :: 0 < i < |rs| ==> rs[i] == tail[i - 1];
    }
  }

  ghost predicate CoversRequests(script: seq<Reply>, rs: seq<Request>, id: nat)
    requires Answers(script, rs, id)
  {
    forall i :: 0 <= i < |rs| ==>
        Answer(script[i], rs[i], id) && Total(DescriptorsOf(script[i], id).value) >= rs[i].length
  }

  lemma {:induction false} PlaceReaches(ds: seq<Descriptor>, cur: nat, x: int)
    requires cur <= x < cur + Total(ds)
    ensures Reached(Place(ds, cur), x)
    decreases ds
  {
    if x < cur + ds[0].length {
      assert In(Place(ds, cur)[0], x);
    } else {
      PlaceReaches(ds[1..], cur + ds[0].length, x);
      var tail := Place(ds[1..], cur + ds[0].length);
      var i :| 0 <= i < |tail| && In(tail[i], x);
      assert Place(ds, cur)[i + 1] == tail[i];
    }
  }

  lemma ReachedConcat(a: seq<Status>, b: seq<Status>, x: int)
    requires Reached(a, x) || Reached(b, x)
    ensures Reached(a + b, x)
  {
    if Reached(a, x) {
      var i :| 0 <= i < |a| && In(a[i], x);
      assert (a + b)[i] == a[i];
    } else {
      var i :| 0 <= i < |b| && In(b[i], x);
      assert (a + b)[|a| + i] == b[i];
    }
  }

  lemma {:induction false} CoveringReachesAll(script: seq<Reply>, id: nat, size: nat, chunkSize: nat, handle: nat,
                                              offset: nat, x: int)
    requires chunkSize > 0 && offset <= x < size
    requires Answers(script, Requests(size, chunkSize, handle, offset), id)
    requires CoversRequests(script, Requests(size, chunkSize, handle, offset), id)
    ensures Reached(Placed(script, Requests(size, chunkSize, handle, offset), id), x)
    decreases script
  {
    var rs := Requests(size, chunkSize, handle, offset);
    var next := offset + Min(chunkSize, size - offset);
    AnswersRest(script, rs, id);
    assert rs[1..] == Requests(size, chunkSize, handle + 1, next);
    var ds := DescriptorsOf(script[0], id).value;
    if x < next {
      PlaceReaches(ds, offset, x);
    } else {
      assert CoversRequests(script[1..], rs[1..], id) by {
        forall i | 0 <= i < |rs| - 1
          ensures Answer(script[1..][i], rs[1..][i], id)
                  && Total(DescriptorsOf(script[1..][i], id).value) >= rs[1..][i].length {
          assert Answer(script[i + 1], rs[i + 1], id) && script[1..][i] == script[i + 1] && rs[1..][i] == rs[i + 1];
        }
      }
      CoveringReachesAll(script[1..], id, size, chunkSize, handle + 1, next, x);
    }
    ReachedConcat(Place(ds, offset), Placed(script[1..], rs[1..], id), x);
  }
}
