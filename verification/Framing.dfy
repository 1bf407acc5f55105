/** Stream framing: the preamble, the record header, and what a decoder accepts in which order. */
module Framing {
  import opened Base
  import opened Isa
  import opened WireBytes
  import opened WireFormat
  import opened CodecRoundTrip
  import opened Codec

  const MAGIC: Bytes := [0x50, 0x47, 0x52, 0x53]
  const SUPPORTED_VERSION := 0x0003
  const STREAM_HEADER_LENGTH := 32
  const RECORD_HEADER_LENGTH := 48
  const PROFILE_OPCODE := 0x0100

  datatype Header = Header(opcode: nat, flags: nat, length: nat, tenant: nat, session: nat, partition: nat, epoch: nat, seqNo: nat)

  datatype Preamble = Preamble(abiVersion: nat, flags: nat, featureFlags: nat, path: nat, session: nat)

  datatype RecordContext = RecordContext(tenant: nat, session: nat, partition: nat, epoch: nat, seqNo: nat, flags: nat)

  datatype RecordAction =
    | RouteReady(header: Header)
    | SkipPayload(header: Header, skipBytes: nat)
    | ReadProfile(header: Header, payloadLength: nat)

  datatype IngressError =
    | PreambleRequired
    | BadMagic(magic: Bytes)
    | UnsupportedVersion(version: nat)
    | InvalidLength(length: nat)
    | InvalidOpcode
    | SessionIdMismatch(preamble: nat, header: nat)
    | StreamSeqGap(session: nat, lastSeen: nat, got: nat)
    | EpochRegression(session: nat, lastEpoch: nat, got: nat)

  // ---- printing ---------------------------------------------------------------------------

  /** The identities, the epoch and the sequence number. */
  function PutRoute(h: Header, rest: Bytes): Bytes {
    PutU64(h.tenant, PutU64(h.session, PutU64(h.partition, PutU64(h.epoch, PutU64(h.seqNo, rest)))))
  }

  function PutHeader(h: Header, rest: Bytes): Bytes { PutU16(h.opcode, PutU16(h.flags, PutU32(h.length, PutRoute(h, rest)))) }

  function HeaderFor(op: IsaOp, ctx: RecordContext): Header {
    Header(OpcodeFor(op), ctx.flags, RECORD_HEADER_LENGTH + |Payload(op)|, ctx.tenant, ctx.session, ctx.partition, ctx.epoch, ctx.seqNo)
  }

  /** `encode_record` */
  function EncodeRecord(op: IsaOp, ctx: RecordContext): Bytes { PutHeader(HeaderFor(op, ctx), Payload(op)) }

  /** `encode_stream_preamble` */
  function EncodePreamble(path: nat, session: nat, featureFlags: nat, flags: nat): Bytes {
    MAGIC + PutU16(SUPPORTED_VERSION, PutU16(flags, PutU64(featureFlags, PutU64(path, PutU64(session, [])))))
  }

  // ---- the fields at their offsets -----------------------------------------------------------

  function HeaderOf(buf: Bytes): Header
    requires |buf| == RECORD_HEADER_LENGTH
  {
    Header(FromLE(buf[0..2]), FromLE(buf[2..4]), FromLE(buf[4..8]), FromLE(buf[8..16]), FromLE(buf[16..24]),
           FromLE(buf[24..32]), FromLE(buf[32..40]), FromLE(buf[40..48]))
  }

  function PreambleOf(buf: Bytes): Preamble
    requires |buf| == STREAM_HEADER_LENGTH
  {
    Preamble(FromLE(buf[4..6]), FromLE(buf[6..8]), FromLE(buf[8..16]), FromLE(buf[16..24]), FromLE(buf[24..32]))
  }

  /** The fields have the widths of the header. */
  predicate HeaderFits(h: Header) {
    && h.opcode < U16 && h.flags < U16 && h.length < U32
    && h.tenant < U64 && h.session < U64 && h.partition < U64 && h.epoch < U64 && h.seqNo < U64
  }

  /** The field after a prefix of a byte string, and what is left after the field. */
  lemma FieldAt(b: Bytes, before: Bytes, n: nat, x: nat, rest: Bytes)
    requires x < Pow256(n) && b == before + (LE(n, x) + rest)
    ensures FromLE(b[|before|..|before| + n]) == x && b == (before + LE(n, x)) + rest
  {
    assert b[|before|..|before| + n] == LE(n, x);
    ReadBack(n, x);
    SmallMod(x, Pow256(n));
  }

  lemma SmallMod(x: nat, m: nat)
    requires x < m
    ensures x % m == x
  {}

  /** A printed header is 48 bytes and its fields are at their offsets. */
  lemma HeaderBack(h: Header, rest: Bytes)
    requires HeaderFits(h)
    ensures var b := PutHeader(h, rest);
      |b| == RECORD_HEADER_LENGTH + |rest| && HeaderOf(b[..RECORD_HEADER_LENGTH]) == h && b[RECORD_HEADER_LENGTH..] == rest
  {
    Widths();
    var b := PutHeader(h, rest);
    var r7 := LE(8, h.seqNo) + rest;
    var r6 := LE(8, h.epoch) + r7;
    var r5 := LE(8, h.partition) + r6;
    var r4 := LE(8, h.session) + r5;
    var r3 := LE(8, h.tenant) + r4;
    var r2 := LE(4, h.length) + r3;
    var r1 := LE(2, h.flags) + r2;
    assert b == [] + (LE(2, h.opcode) + r1);
    hide *;
    FieldAt(b, [], 2, h.opcode, r1);
    var p1 := [] + LE(2, h.opcode);
    FieldAt(b, p1, 2, h.flags, r2);
    var p2 := p1 + LE(2, h.flags);
    FieldAt(b, p2, 4, h.length, r3);
    var p3 := p2 + LE(4, h.length);
    FieldAt(b, p3, 8, h.tenant, r4);
    var p4 := p3 + LE(8, h.tenant);
    FieldAt(b, p4, 8, h.session, r5);
    var p5 := p4 + LE(8, h.session);
    FieldAt(b, p5, 8, h.partition, r6);
    var p6 := p5 + LE(8, h.partition);
    FieldAt(b, p6, 8, h.epoch, r7);
    var p7 := p6 + LE(8, h.epoch);
    FieldAt(b, p7, 8, h.seqNo, rest);
    assert b[48..] == rest;
    FieldsAre(b, h);
  }

  lemma FieldsAre(b: Bytes, h: Header)
    requires |b| >= 48
    requires FromLE(b[0..2]) == h.opcode && FromLE(b[2..4]) == h.flags && FromLE(b[4..8]) == h.length && FromLE(b[8..16]) == h.tenant
    requires FromLE(b[16..24]) == h.session && FromLE(b[24..32]) == h.partition && FromLE(b[32..40]) == h.epoch && FromLE(b[40..48]) == h.seqNo
    ensures HeaderOf(b[..48]) == h
  {
    hide FromLE;
    var c := b[..48];
    assert c[0..2] == b[0..2] && c[2..4] == b[2..4] && c[4..8] == b[4..8] && c[8..16] == b[8..16];
    assert c[16..24] == b[16..24] && c[24..32] == b[24..32] && c[32..40] == b[32..40] && c[40..48] == b[40..48];
  }

  /** A printed preamble is 32 bytes, starts with the magic and has its fields at their offsets. */
  lemma PreambleBack(path: nat, session: nat, featureFlags: nat, flags: nat)
    requires path < U64 && session < U64 && featureFlags < U64 && flags < U16
    ensures var b := EncodePreamble(path, session, featureFlags, flags);
      |b| == STREAM_HEADER_LENGTH && b[..4] == MAGIC && PreambleOf(b) == Preamble(SUPPORTED_VERSION, flags, featureFlags, path, session)
  {
    Widths();
    var b := EncodePreamble(path, session, featureFlags, flags);
    var r4 := LE(8, session) + [];
    var r3 := LE(8, path) + r4;
    var r2 := LE(8, featureFlags) + r3;
    var r1 := LE(2, flags) + r2;
    assert b == MAGIC + (LE(2, SUPPORTED_VERSION) + r1);
    hide LE, FromLE, EncodePreamble;
    FieldAt(b, MAGIC, 2, SUPPORTED_VERSION, r1);
    var p1 := MAGIC + LE(2, SUPPORTED_VERSION);
    FieldAt(b, p1, 2, flags, r2);
    var p2 := p1 + LE(2, flags);
    FieldAt(b, p2, 8, featureFlags, r3);
    var p3 := p2 + LE(8, featureFlags);
    FieldAt(b, p3, 8, path, r4);
    FieldAt(b, p3 + LE(8, path), 8, session, []);
  }

  // ---- the decoder's state -----------------------------------------------------------------------

  /** The preamble, and per session the last sequence number and the last epoch seen. */
  datatype Decoder = Decoder(preamble: Option<Preamble>, seqTrace: map<nat, nat>, epochTrace: map<nat, nat>,
                             gapCount: nat, regressionCount: nat)

  const FRESH_DECODER := Decoder(None, map[], map[], 0, 0)

  /** `decode_preamble` */
  function PreambleDecoded(d: Decoder, buf: Bytes): (Decoder, Result<Preamble, IngressError>)
    requires |buf| == STREAM_HEADER_LENGTH
  {
    var p := PreambleOf(buf);
    if buf[..4] != MAGIC then (d, Err(BadMagic(buf[..4])))
    else if p.abiVersion != SUPPORTED_VERSION then (d, Err(UnsupportedVersion(p.abiVersion)))
    else (d.(preamble := Some(p)), Ok(p))
  }

  /** Opcodes the session manager classifies; others are skipped. */
  predicate KnownOpcode(opcode: nat) { 0x0001 <= opcode <= 0x0012 || opcode == PROFILE_OPCODE }

  function Route(h: Header): RecordAction
    requires h.length >= RECORD_HEADER_LENGTH
  {
    if h.opcode == PROFILE_OPCODE then ReadProfile(h, h.length - RECORD_HEADER_LENGTH)
    else if !KnownOpcode(h.opcode) then SkipPayload(h, h.length - RECORD_HEADER_LENGTH)
    else RouteReady(h)
  }

  /** `decode_record`: a record refused for its sequence number leaves the traces; one refused for
      its epoch has already moved the sequence trace. */
  function DecodeHeader(d: Decoder, h: Header): (Decoder, Result<RecordAction, IngressError>) {
    if d.preamble.None? then (d, Err(PreambleRequired))
    else if h.length < RECORD_HEADER_LENGTH then (d, Err(InvalidLength(h.length)))
    else if h.opcode == 0 then (d, Err(InvalidOpcode))
    else if h.session != d.preamble.value.session then (d, Err(SessionIdMismatch(d.preamble.value.session, h.session)))
    else if h.session in d.seqTrace && h.seqNo <= d.seqTrace[h.session] then
      (d.(gapCount := d.gapCount + 1), Err(StreamSeqGap(h.session, d.seqTrace[h.session], h.seqNo)))
    else
      var d1 := d.(seqTrace := d.seqTrace[h.session := h.seqNo]);
      if h.session in d.epochTrace && h.epoch < d.epochTrace[h.session] then
        (d1.(regressionCount := d.regressionCount + 1), Err(EpochRegression(h.session, d.epochTrace[h.session], h.epoch)))
      else (d1.(epochTrace := d.epochTrace[h.session := h.epoch]), Ok(Route(h)))
  }

  function RecordDecoded(d: Decoder, buf: Bytes): (Decoder, Result<RecordAction, IngressError>)
    requires |buf| == RECORD_HEADER_LENGTH
  {
    DecodeHeader(d, HeaderOf(buf))
  }

  // ---- what is accepted is ordered -----------------------------------------------------------------

  /** What a decoder is fed: any preamble and any record header, in any order. */
  datatype Input = PreambleInput(preamble: Bytes) | RecordInput(header: Bytes)

  predicate Framed(inputs: seq<Input>) {
    forall i :: 0 <= i < |inputs| ==>
      match inputs[i]
      case PreambleInput(b) => |b| == STREAM_HEADER_LENGTH
      case RecordInput(b) => |b| == RECORD_HEADER_LENGTH
  }

  function Fed(inputs: seq<Input>): Decoder
    requires Framed(inputs)
  {
    if inputs == [] then FRESH_DECODER
    else
      var d := Fed(inputs[..|inputs| - 1]);
      match inputs[|inputs| - 1]
      case PreambleInput(b) => PreambleDecoded(d, b).0
      case RecordInput(b) => RecordDecoded(d, b).0
  }

  /** The last input is an accepted record. */
  predicate LastAccepted(inputs: seq<Input>)
    requires Framed(inputs) && inputs != []
  {
    var last := inputs[|inputs| - 1];
    last.RecordInput? && RecordDecoded(Fed(inputs[..|inputs| - 1]), last.header).1.Ok?
  }

  /** The headers of the accepted records, in order. */
  function Accepted(inputs: seq<Input>): seq<Header>
    requires Framed(inputs)
  {
    if inputs == [] then []
    else
      Accepted(inputs[..|inputs| - 1]) + (if LastAccepted(inputs) then [HeaderOf(inputs[|inputs| - 1].header)] else [])
  }

  /** Within a session, sequence numbers rise strictly and epochs never fall. */
  predicate Ordered(headers: seq<Header>) {
    forall i, j :: 0 <= i < j < |headers| && headers[i].session == headers[j].session ==>
      headers[i].seqNo < headers[j].seqNo && headers[i].epoch <= headers[j].epoch
  }

  /** The traces are not behind any accepted record. */
  predicate Traced(d: Decoder, headers: seq<Header>) {
    forall i :: 0 <= i < |headers| ==>
      && headers[i].session in d.seqTrace && headers[i].seqNo <= d.seqTrace[headers[i].session]
      && headers[i].session in d.epochTrace && headers[i].epoch <= d.epochTrace[headers[i].session]
  }

  lemma HeaderTraced(d: Decoder, h: Header, headers: seq<Header>)
    requires Traced(d, headers) && Ordered(headers)
    ensures var (d', r) := DecodeHeader(d, h); Traced(d', if r.Ok? then headers + [h] else headers)
    ensures DecodeHeader(d, h).1.Ok? ==> Ordered(headers + [h])
  {}

  /** Over arbitrary input, malformed, repeated or out of order, and over any change of preamble,
      the accepted records are ordered within each session. */
  lemma {:induction false} AcceptedOrdered(inputs: seq<Input>)
    requires Framed(inputs)
    ensures Ordered(Accepted(inputs)) && Traced(Fed(inputs), Accepted(inputs))
    decreases |inputs|
  {
    if inputs != [] {
      var front, last := inputs[..|inputs| - 1], inputs[|inputs| - 1];
      AcceptedOrdered(front);
      var d, headers := Fed(front), Accepted(front);
      assert headers + [] == headers;
      match last {
        case PreambleInput(b) =>
        case RecordInput(b) => HeaderTraced(d, HeaderOf(b), headers);
      }
    }
  }

  /** A record refused only for its epoch still consumes its sequence number: the same record with a
      valid epoch is refused afterwards. */
  lemma RefusedEpochConsumes(d: Decoder, h: Header, epoch: nat)
    requires DecodeHeader(d, h).1.Err? && DecodeHeader(d, h).1.error.EpochRegression?
    ensures var d' := DecodeHeader(d, h).0;
      DecodeHeader(d', h.(epoch := epoch)).1 == Err(StreamSeqGap(h.session, h.seqNo, h.seqNo)) && d'.epochTrace == d.epochTrace
  {}

  /** Exactly when a header is accepted. */
  lemma AcceptsExactly(d: Decoder, h: Header)
    ensures DecodeHeader(d, h).1.Ok? <==>
      && d.preamble.Some? && h.session == d.preamble.value.session
      && h.length >= RECORD_HEADER_LENGTH && h.opcode != 0
      && (h.session in d.seqTrace ==> h.seqNo > d.seqTrace[h.session])
      && (h.session in d.epochTrace ==> h.epoch >= d.epochTrace[h.session])
    ensures DecodeHeader(d, h).1.Ok? ==> DecodeHeader(d, h).1.value.header == h
  {}

  /** Where an accepted record goes: opcode 0x0100 carries a profile, opcodes 0x0001 to 0x0012 are routed, and the
      payload of any other is skipped, to its last byte. */
  lemma AcceptedGoes(d: Decoder, h: Header)
    requires DecodeHeader(d, h).1.Ok?
    ensures var action := DecodeHeader(d, h).1.value;
      && action.header == h && (action.ReadProfile? <==> h.opcode == 256) && (action.RouteReady? <==> 1 <= h.opcode <= 18)
      && (action.ReadProfile? ==> 48 + action.payloadLength == h.length) && (action.SkipPayload? ==> 48 + action.skipBytes == h.length)
  {}

  /** What is not routed could not be dispatched, and whatever can be dispatched is routed. */
  lemma RoutedIsDispatched(d: Decoder, h: Header, payload: Bytes)
    requires DecodeHeader(d, h).1.Ok?
    ensures !DecodeHeader(d, h).1.value.RouteReady? ==> ParsePayload(h.opcode, payload) == Err(UnknownOpcode(h.opcode))
    ensures ParsePayload(h.opcode, payload).Ok? ==> DecodeHeader(d, h).1.value.RouteReady?
  {
    AcceptedGoes(d, h);
    if !(1 <= h.opcode <= 18) { UnknownElsewhere(h.opcode, payload); }
    hide DecodeHeader, ParsePayload;
  }

  lemma UnknownElsewhere(opcode: nat, payload: Bytes)
    requires !(1 <= opcode <= 18)
    ensures ParsePayload(opcode, payload) == Err(UnknownOpcode(opcode))
  {}

  // ---- whole streams ----------------------------------------------------------------------------------

  datatype StreamError = Ingress(e: IngressError) | Dispatch(d: DispatchError) | CutShort

  /** A record of a stream: its header and, when it is routed, its operation. */
  datatype StreamRecord = StreamRecord(header: Header, op: Option<IsaOp>)

  /** The records of a byte stream as its reader frames them: a 48-byte header, then as many payload
      bytes as its length field says, until the bytes run out. */
  function DecodeRecords(d: Decoder, b: Bytes): Result<seq<StreamRecord>, StreamError>
    decreases |b|
  {
    if b == [] then Ok([])
    else if |b| < RECORD_HEADER_LENGTH then Err(CutShort)
    else
      var (d', action) := RecordDecoded(d, b[..RECORD_HEADER_LENGTH]);
      if action.Err? then Err(Ingress(action.error))
      else
        AcceptsExactly(d, HeaderOf(b[..RECORD_HEADER_LENGTH]));
        var h := action.value.header;
        if |b| < h.length then Err(CutShort)
        else
          var record :- RouteRecord(action.value, b[RECORD_HEADER_LENGTH..h.length]);
          var rest :- DecodeRecords(d', b[h.length..]);
          Ok([record] + rest)
  }

  function RouteRecord(action: RecordAction, payload: Bytes): Result<StreamRecord, StreamError> {
    match action
    case RouteReady(h) =>
      (match ParsePayload(h.opcode, payload)
       case Ok(op) => Ok(StreamRecord(h, Some(op)))
       case Err(e) => Err(Dispatch(e)))
    case SkipPayload(h, _) => Ok(StreamRecord(h, None))
    case ReadProfile(h, _) => Ok(StreamRecord(h, None))
  }

  function DecodeStream(b: Bytes): Result<(Preamble, seq<StreamRecord>), StreamError> {
    if |b| < STREAM_HEADER_LENGTH then Err(CutShort)
    else
      var (d, p) := PreambleDecoded(FRESH_DECODER, b[..STREAM_HEADER_LENGTH]);
      if p.Err? then Err(Ingress(p.error))
      else
        var records :- DecodeRecords(d, b[STREAM_HEADER_LENGTH..]);
        Ok((p.value, records))
  }

  /** An operation with the context it is sent in. */
  datatype Sent = Sent(op: IsaOp, ctx: RecordContext)

  function EncodeAll(sent: seq<Sent>): Bytes {
    if sent == [] then [] else EncodeRecord(sent[0].op, sent[0].ctx) + EncodeAll(sent[1..])
  }

  /** The context has the header's widths and the record its length field. */
  predicate SentFits(s: Sent) { Fits(s.op) && HeaderFits(HeaderFor(s.op, s.ctx)) }

  /** All records are of the session, with strictly rising sequence numbers and epochs that never
      fall, starting after what the decoder has seen. */
  predicate InOrder(d: Decoder, sent: seq<Sent>) {
    && d.preamble.Some?
    && (forall i :: 0 <= i < |sent| ==> sent[i].ctx.session == d.preamble.value.session)
    && (forall i, j :: 0 <= i < j < |sent| ==> sent[i].ctx.seqNo < sent[j].ctx.seqNo && sent[i].ctx.epoch <= sent[j].ctx.epoch)
    && (d.preamble.value.session in d.seqTrace ==> forall i :: 0 <= i < |sent| ==> sent[i].ctx.seqNo > d.seqTrace[d.preamble.value.session])
    && (d.preamble.value.session in d.epochTrace ==> forall i :: 0 <= i < |sent| ==> sent[i].ctx.epoch >= d.epochTrace[d.preamble.value.session])
  }

  function Received(sent: seq<Sent>): seq<StreamRecord> {
    seq(|sent|, i requires 0 <= i < |sent| => StreamRecord(HeaderFor(sent[i].op, sent[i].ctx), Some(NormalForm(sent[i].op))))
  }

  lemma OrderNext(d: Decoder, sent: seq<Sent>, h: Header)
    requires sent != [] && InOrder(d, sent) && h == HeaderFor(sent[0].op, sent[0].ctx)
    ensures var (d', r) := DecodeHeader(d, h); r == Ok(RouteReady(h)) && InOrder(d', sent[1..])
  {
    hide Payload;
  }

  /** One record at the front of a stream. */
  lemma RecordBack(d: Decoder, s: Sent, rest: Bytes, d': Decoder)
    requires SentFits(s)
    requires DecodeHeader(d, HeaderFor(s.op, s.ctx)) == (d', Ok(RouteReady(HeaderFor(s.op, s.ctx))))
    ensures DecodeRecords(d, EncodeRecord(s.op, s.ctx) + rest) ==
      match DecodeRecords(d', rest)
      case Ok(records) => Ok([StreamRecord(HeaderFor(s.op, s.ctx), Some(NormalForm(s.op)))] + records)
      case Err(e) => Err(e)
  {
    var h, payload := HeaderFor(s.op, s.ctx), Payload(s.op);
    var r := EncodeRecord(s.op, s.ctx);
    var b := r + rest;
    HeaderBack(h, payload);
    RoundTrip(s.op);
    assert |r| == h.length && b[..48] == r[..48];
    assert b[48..h.length] == payload by { assert b[48..h.length] == r[48..]; }
    assert b[h.length..] == rest;
    hide PutHeader, HeaderOf, Payload, ParsePayload, NormalForm, Fits, DecodeHeader, OpcodeFor;
  }

  lemma {:induction false} RecordsBack(d: Decoder, sent: seq<Sent>)
    requires InOrder(d, sent) && forall s :: s in sent ==> SentFits(s)
    ensures DecodeRecords(d, EncodeAll(sent)) == Ok(Received(sent))
    decreases |sent|
  {
    if sent == [] {
      assert Received(sent) == [];
    } else {
      var h := HeaderFor(sent[0].op, sent[0].ctx);
      var d' := DecodeHeader(d, h).0;
      var b := EncodeRecord(sent[0].op, sent[0].ctx) + EncodeAll(sent[1..]);
      assert EncodeAll(sent) == b;
      hide *;
      OrderNext(d, sent, h);
      assert sent[0] in sent && forall s :: s in sent[1..] ==> s in sent;
      RecordBack(d, sent[0], EncodeAll(sent[1..]), d');
      RecordsBack(d', sent[1..]);
      ReceivedNext(sent);
    }
  }

  lemma ReceivedNext(sent: seq<Sent>)
    requires sent != []
    ensures Received(sent) == [StreamRecord(HeaderFor(sent[0].op, sent[0].ctx), Some(NormalForm(sent[0].op)))] + Received(sent[1..])
  {
    hide NormalForm, HeaderFor, Payload;
  }

  /** A preamble followed by records in order decodes to exactly the preamble, the headers and the
      operations in normal form. */
  lemma StreamBack(path: nat, session: nat, featureFlags: nat, flags: nat, sent: seq<Sent>)
    requires path < U64 && session < U64 && featureFlags < U64 && flags < U16
    requires forall s :: s in sent ==> SentFits(s) && s.ctx.session == session
    requires forall i, j :: 0 <= i < j < |sent| ==> sent[i].ctx.seqNo < sent[j].ctx.seqNo && sent[i].ctx.epoch <= sent[j].ctx.epoch
    ensures DecodeStream(EncodePreamble(path, session, featureFlags, flags) + EncodeAll(sent))
         == Ok((Preamble(SUPPORTED_VERSION, flags, featureFlags, path, session), Received(sent)))
  {
    var p, records := EncodePreamble(path, session, featureFlags, flags), EncodeAll(sent);
    var d := FRESH_DECODER.(preamble := Some(Preamble(SUPPORTED_VERSION, flags, featureFlags, path, session)));
    hide *;
    PreambleBack(path, session, featureFlags, flags);
    StartsInOrder(d, sent);
    RecordsBack(d, sent);
    PreambleFront(p, records, d.preamble.value, Received(sent));
  }

  lemma PreambleFront(p: Bytes, rest: Bytes, preamble: Preamble, records: seq<StreamRecord>)
    requires |p| == STREAM_HEADER_LENGTH && p[..4] == MAGIC && PreambleOf(p) == preamble && preamble.abiVersion == SUPPORTED_VERSION
    requires DecodeRecords(FRESH_DECODER.(preamble := Some(preamble)), rest) == Ok(records)
    ensures DecodeStream(p + rest) == Ok((preamble, records))
  {
    assert (p + rest)[..32] == p && (p + rest)[32..] == rest;
    hide PreambleOf, DecodeRecords;
  }

  lemma StartsInOrder(d: Decoder, sent: seq<Sent>)
    requires d.preamble.Some? && d.seqTrace == map[] && d.epochTrace == map[]
    requires forall s :: s in sent ==> s.ctx.session == d.preamble.value.session
    requires forall i, j :: 0 <= i < j < |sent| ==> sent[i].ctx.seqNo < sent[j].ctx.seqNo && sent[i].ctx.epoch <= sent[j].ctx.epoch
    ensures InOrder(d, sent)
  {}

  // ---- the encoder in place ---------------------------------------------------------------------------

  method WriteRoute(h: Header, out: ByteBuffer)
    modifies out
    ensures Appended(old(out.bytes), out.bytes, rest => PutRoute(h, rest))
  {
    hide PutU64;
    out.PushU64(h.tenant);
    out.PushU64(h.session);
    out.PushU64(h.partition);
    out.PushU64(h.epoch);
    out.PushU64(h.seqNo);
  }

  method WriteHeader(h: Header, out: ByteBuffer)
    modifies out
    ensures Appended(old(out.bytes), out.bytes, rest => PutHeader(h, rest))
  {
    hide PutU16, PutU32, PutRoute;
    out.PushU16(h.opcode);
    out.PushU16(h.flags);
    out.PushU32(h.length);
    WriteRoute(h, out);
  }

  /** `encode_record`: payload first, then the header with its length, then the payload. */
  method WriteRecord(op: IsaOp, ctx: RecordContext) returns (record: Bytes)
    ensures record == EncodeRecord(op, ctx)
  {
    hide PutHeader, PutPayload;
    var payload := new ByteBuffer();
    WritePayload(op, payload);
    assert payload.bytes == [] + Payload(op) == Payload(op);
    var out := new ByteBuffer();
    WriteHeader(Header(OpcodeFor(op), ctx.flags, RECORD_HEADER_LENGTH + |payload.bytes|, ctx.tenant, ctx.session, ctx.partition,
                       ctx.epoch, ctx.seqNo), out);
    ghost var header := out.bytes;
    out.Extend(payload.bytes);
    record := out.bytes;
    assert header + payload.bytes == [] + PutHeader(HeaderFor(op, ctx), payload.bytes) == PutHeader(HeaderFor(op, ctx), payload.bytes);
  }

  // ---- the decoder in place ---------------------------------------------------------------------------

  class StreamDecoder {
    var preamble: Option<Preamble>
    var seqTrace: map<nat, nat>
    var epochTrace: map<nat, nat>
    var gapCount: nat
    var regressionCount: nat

    function View(): Decoder
      reads this
    {
      Decoder(preamble, seqTrace, epochTrace, gapCount, regressionCount)
    }

    constructor ()
      ensures View() == FRESH_DECODER
    {
      preamble, seqTrace, epochTrace, gapCount, regressionCount := None, map[], map[], 0, 0;
    }

    method DecodePreamble(buf: array<Byte>) returns (result: Result<Preamble, IngressError>)
      requires buf.Length == STREAM_HEADER_LENGTH
      modifies this
      ensures (View(), result) == PreambleDecoded(old(View()), buf[..])
    {
      var magic := buf[0..4];
      assert magic == buf[..][..4];
      if magic != MAGIC { return Err(BadMagic(magic)); }
      assert buf[4..6] == buf[..][4..6] && buf[6..8] == buf[..][6..8] && buf[8..16] == buf[..][8..16];
      assert buf[16..24] == buf[..][16..24] && buf[24..32] == buf[..][24..32];
      var abiVersion := FromLE(buf[4..6]);
      if abiVersion != SUPPORTED_VERSION { return Err(UnsupportedVersion(abiVersion)); }
      var p := Preamble(abiVersion, FromLE(buf[6..8]), FromLE(buf[8..16]), FromLE(buf[16..24]), FromLE(buf[24..32]));
      preamble := Some(p);
      return Ok(p);
    }

    static method ParseHeader(buf: array<Byte>) returns (h: Header)
      requires buf.Length == RECORD_HEADER_LENGTH
      ensures h == HeaderOf(buf[..])
    {
      assert buf[0..2] == buf[..][0..2] && buf[2..4] == buf[..][2..4] && buf[4..8] == buf[..][4..8] && buf[8..16] == buf[..][8..16];
      assert buf[16..24] == buf[..][16..24] && buf[24..32] == buf[..][24..32] && buf[32..40] == buf[..][32..40] && buf[40..48] == buf[..][40..48];
      h := Header(FromLE(buf[0..2]), FromLE(buf[2..4]), FromLE(buf[4..8]), FromLE(buf[8..16]), FromLE(buf[16..24]),
                  FromLE(buf[24..32]), FromLE(buf[32..40]), FromLE(buf[40..48]));
    }

    method DecodeRecord(buf: array<Byte>) returns (result: Result<RecordAction, IngressError>)
      requires buf.Length == RECORD_HEADER_LENGTH
      modifies this
      ensures (View(), result) == RecordDecoded(old(View()), buf[..])
    {
      if preamble.None? { return Err(PreambleRequired); }
      var h := ParseHeader(buf);
      if h.length < RECORD_HEADER_LENGTH { return Err(InvalidLength(h.length)); }
      if h.opcode == 0 { return Err(InvalidOpcode); }
      if h.session != preamble.value.session { return Err(SessionIdMismatch(preamble.value.session, h.session)); }
      if h.session in seqTrace {
        var last := seqTrace[h.session];
        if h.seqNo <= last {
          gapCount := gapCount + 1;
          return Err(StreamSeqGap(h.session, last, h.seqNo));
        }
      }
      seqTrace := seqTrace[h.session := h.seqNo];
      if h.session in epochTrace {
        var lastEpoch := epochTrace[h.session];
        if h.epoch < lastEpoch {
          regressionCount := regressionCount + 1;
          return Err(EpochRegression(h.session, lastEpoch, h.epoch));
        }
      }
      epochTrace := epochTrace[h.session := h.epoch];
      var payloadBytes := h.length - RECORD_HEADER_LENGTH;
      if h.opcode == PROFILE_OPCODE { return Ok(ReadProfile(h, payloadBytes)); }
      if !KnownOpcode(h.opcode) { return Ok(SkipPayload(h, payloadBytes)); }
      return Ok(RouteReady(h));
    }
  }
}
