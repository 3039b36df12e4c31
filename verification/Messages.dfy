/**
 The realtime message schemas: their values, their canonical encoding (fields in number
 order, scalar defaults omitted) and their decoder (fields applied one by one to a default
 value: scalars are replaced, sub-messages merged, a oneof switched to its last member).

 Strings are byte sequences no longer than a Rust allocation can be, so that every length
 on the wire fits in 64 bits; UTF-8 validity is not checked.
 */
module Messages {
  import opened Base
  import opened Wire

  type i64 = n: int | -0x8000_0000_0000_0000 <= n < 0x8000_0000_0000_0000
  type i32 = n: int | -0x8000_0000 <= n < 0x8000_0000

  const MAX_LEN: int := 0x7fff_ffff_ffff_ffff
  type Text = s: Bytes | |s| <= MAX_LEN witness []

  // ----------------------------------------------------------------- values

  datatype Header = Header(requestId: u32, responseId: u32)
  datatype HandshakeRequest = HandshakeRequest(ticket: Text)
  datatype HandshakeResponse = HandshakeResponse(success: bool)
  datatype Timestamp = Timestamp(seconds: i64, nanos: i32)
  datatype ServerTimeRequest = ServerTimeRequest
  datatype ServerTimeResponse = ServerTimeResponse(serverTime: Option<Timestamp>)
  datatype PlaceHolder = PlaceHolder(text: Text)

  datatype ConnectionPayload = HandshakeReq(req: HandshakeRequest) | HandshakeRes(res: HandshakeResponse)
  datatype CorePayload = ServerTimeReq(req: ServerTimeRequest) | ServerTimeRes(res: ServerTimeResponse)

  datatype ConnectionMessage = ConnectionMessage(payload: Option<ConnectionPayload>)
  datatype CoreMessage = CoreMessage(payload: Option<CorePayload>)
  /** The presence, activity and model packages declare the same message. */
  datatype TextMessage = TextMessage(payload: Option<PlaceHolder>)

  datatype Body =
    | ConnectionMsg(connection: ConnectionMessage)
    | CoreMsg(core: CoreMessage)
    | PresenceMsg(text: TextMessage)
    | ActivityMsg(text: TextMessage)
    | ModelMsg(text: TextMessage)

  datatype RealtimeMessage = RealtimeMessage(header: Option<Header>, body: Option<Body>)

  const HEADER0 := Header(0, 0)
  const REQUEST0 := HandshakeRequest([])
  const RESPONSE0 := HandshakeResponse(false)
  const TIME0 := Timestamp(0, 0)
  const TIME_RES0 := ServerTimeResponse(None)
  const PLACE0 := PlaceHolder([])
  const CONNECTION0 := ConnectionMessage(None)
  const CORE0 := CoreMessage(None)
  const TEXT0 := TextMessage(None)
  const REALTIME0 := RealtimeMessage(None, None)

  // ---------------------------------------------------------------- scalars

  /** Two's complement on 64 bits; 32-bit values are sign extended first. */
  function ToU64(n: i64): (u: u64)
    ensures AsI64(u) == n
    ensures u == 0 <==> n == 0
  {
    if n < 0 then n + U64 else n
  }

  function AsI64(u: u64): i64 {
    if u < U64 / 2 then u else u - U64
  }

  /** Keeps the low 32 bits, as the cast in the decoder does. */
  function AsI32(u: u64): i32 {
    var low := u % U32;
    if low < U32 / 2 then low else low - U32
  }

  lemma I32RoundTrip(n: i32)
    ensures AsI32(ToU64(n)) == n
  {
    if n < 0 {
      assert ToU64(n) == 0xffff_ffff * U32 + (n + U32);
    }
  }

  function UintField(number: nat, n: u64): seq<Field> {
    if n == 0 then [] else [Field(number, Varint(n))]
  }

  function TextField(number: nat, s: Text): seq<Field> {
    if s == [] then [] else [Field(number, Len(s))]
  }

  // ---------------------------------------------------------------- decoder

  /** Applies fields in order; the first one that does not fit its schema is an error. */
  function Fold<T>(step: (T, Field) -> Option<T>, acc: T, fs: seq<Field>): Option<T> {
    if fs == [] then Some(acc)
    else
      match step(acc, fs[0])
      case None => None
      case Some(next) => Fold(step, next, fs[1..])
  }

  function MergeBytes<T>(step: (T, Field) -> Option<T>, acc: T, bs: Bytes): Option<T> {
    match ParseFields(bs)
    case None => None
    case Some(fs) => Fold(step, acc, fs)
  }

  function MergeNested<T>(step: (T, Field) -> Option<T>, acc: T, v: WireValue): Option<T> {
    if v.Len? then MergeBytes(step, acc, v.bytes) else None
  }

  function Or<T>(o: Option<T>, default: T): T {
    if o.Some? then o.value else default
  }

  function StepHeader(m: Header, f: Field): Option<Header> {
    match f.number
    case 1 => if f.value.Varint? then Some(m.(requestId := f.value.n % U32)) else None
    case 2 => if f.value.Varint? then Some(m.(responseId := f.value.n % U32)) else None
    case _ => Some(m)
  }

  function StepRequest(m: HandshakeRequest, f: Field): Option<HandshakeRequest> {
    if f.number != 1 then Some(m)
    else if f.value.Len? && |f.value.bytes| <= MAX_LEN then Some(HandshakeRequest(f.value.bytes))
    else None
  }

  function StepResponse(m: HandshakeResponse, f: Field): Option<HandshakeResponse> {
    if f.number != 1 then Some(m)
    else if f.value.Varint? then Some(HandshakeResponse(f.value.n != 0))
    else None
  }

  function StepTime(m: Timestamp, f: Field): Option<Timestamp> {
    match f.number
    case 1 => if f.value.Varint? then Some(m.(seconds := AsI64(f.value.n))) else None
    case 2 => if f.value.Varint? then Some(m.(nanos := AsI32(f.value.n))) else None
    case _ => Some(m)
  }

  function StepTimeReq(m: ServerTimeRequest, f: Field): Option<ServerTimeRequest> {
    Some(m)
  }

  function StepTimeRes(m: ServerTimeResponse, f: Field): Option<ServerTimeResponse> {
    if f.number != 1 then Some(m)
    else
      match MergeNested(StepTime, Or(m.serverTime, TIME0), f.value)
      case None => None
      case Some(t) => Some(ServerTimeResponse(Some(t)))
  }

  function StepPlace(m: PlaceHolder, f: Field): Option<PlaceHolder> {
    if f.number != 1 then Some(m)
    else if f.value.Len? && |f.value.bytes| <= MAX_LEN then Some(PlaceHolder(f.value.bytes))
    else None
  }

  /** What a oneof's new member is merged into: its current value if it is already set, else its default. */
  function RequestOf(m: ConnectionMessage): HandshakeRequest {
    if m.payload.Some? && m.payload.value.HandshakeReq? then m.payload.value.req else REQUEST0
  }

  function ResponseOf(m: ConnectionMessage): HandshakeResponse {
    if m.payload.Some? && m.payload.value.HandshakeRes? then m.payload.value.res else RESPONSE0
  }

  function StepConnection(m: ConnectionMessage, f: Field): Option<ConnectionMessage> {
    match f.number
    case 11 =>
      (match MergeNested(StepRequest, RequestOf(m), f.value)
       case None => None
       case Some(r) => Some(ConnectionMessage(Some(HandshakeReq(r)))))
    case 12 =>
      (match MergeNested(StepResponse, ResponseOf(m), f.value)
       case None => None
       case Some(r) => Some(ConnectionMessage(Some(HandshakeRes(r)))))
    case _ => Some(m)
  }

  function TimeReqOf(m: CoreMessage): ServerTimeRequest {
    if m.payload.Some? && m.payload.value.ServerTimeReq? then m.payload.value.req else ServerTimeRequest
  }

  function TimeResOf(m: CoreMessage): ServerTimeResponse {
    if m.payload.Some? && m.payload.value.ServerTimeRes? then m.payload.value.res else TIME_RES0
  }

  function StepCore(m: CoreMessage, f: Field): Option<CoreMessage> {
    match f.number
    case 1 =>
      (match MergeNested(StepTimeReq, TimeReqOf(m), f.value)
       case None => None
       case Some(r) => Some(CoreMessage(Some(ServerTimeReq(r)))))
    case 2 =>
      (match MergeNested(StepTimeRes, TimeResOf(m), f.value)
       case None => None
       case Some(r) => Some(CoreMessage(Some(ServerTimeRes(r)))))
    case _ => Some(m)
  }

  function StepText(m: TextMessage, f: Field): Option<TextMessage> {
    if f.number != 1 then Some(m)
    else
      match MergeNested(StepPlace, Or(m.payload, PLACE0), f.value)
      case None => None
      case Some(p) => Some(TextMessage(Some(p)))
  }

  function ConnectionOf(m: RealtimeMessage): ConnectionMessage {
    if m.body.Some? && m.body.value.ConnectionMsg? then m.body.value.connection else CONNECTION0
  }

  function CoreOf(m: RealtimeMessage): CoreMessage {
    if m.body.Some? && m.body.value.CoreMsg? then m.body.value.core else CORE0
  }

  function PresenceOf(m: RealtimeMessage): TextMessage {
    if m.body.Some? && m.body.value.PresenceMsg? then m.body.value.text else TEXT0
  }

  function ActivityOf(m: RealtimeMessage): TextMessage {
    if m.body.Some? && m.body.value.ActivityMsg? then m.body.value.text else TEXT0
  }

  function ModelOf(m: RealtimeMessage): TextMessage {
    if m.body.Some? && m.body.value.ModelMsg? then m.body.value.text else TEXT0
  }

  function StepRealtime(m: RealtimeMessage, f: Field): Option<RealtimeMessage> {
    match f.number
    case 1 =>
      (match MergeNested(StepHeader, Or(m.header, HEADER0), f.value)
       case None => None
       case Some(h) => Some(m.(header := Some(h))))
    case 2 =>
      (match MergeNested(StepConnection, ConnectionOf(m), f.value)
       case None => None
       case Some(b) => Some(m.(body := Some(ConnectionMsg(b)))))
    case 3 =>
      (match MergeNested(StepCore, CoreOf(m), f.value)
       case None => None
       case Some(b) => Some(m.(body := Some(CoreMsg(b)))))
    case 4 =>
      (match MergeNested(StepText, PresenceOf(m), f.value)
       case None => None
       case Some(b) => Some(m.(body := Some(PresenceMsg(b)))))
    case 5 =>
      (match MergeNested(StepText, ActivityOf(m), f.value)
       case None => None
       case Some(b) => Some(m.(body := Some(ActivityMsg(b)))))
    case 6 =>
      (match MergeNested(StepText, ModelOf(m), f.value)
       case None => None
       case Some(b) => Some(m.(body := Some(ModelMsg(b)))))
    case _ => Some(m)
  }

  function DecodeConnection(bs: Bytes): Option<ConnectionMessage> { MergeBytes(StepConnection, CONNECTION0, bs) }
  function DecodeCore(bs: Bytes): Option<CoreMessage> { MergeBytes(StepCore, CORE0, bs) }
  function DecodeText(bs: Bytes): Option<TextMessage> { MergeBytes(StepText, TEXT0, bs) }
  function DecodeRealtime(bs: Bytes): Option<RealtimeMessage> { MergeBytes(StepRealtime, REALTIME0, bs) }

  // ---------------------------------------------------------------- encoder

  function EncodeHeader(m: Header): Bytes {
    EmitFields(UintField(1, m.requestId) + UintField(2, m.responseId))
  }

  function EncodeRequest(m: HandshakeRequest): Bytes { EmitFields(TextField(1, m.ticket)) }

  function EncodeResponse(m: HandshakeResponse): Bytes {
    EmitFields(UintField(1, if m.success then 1 else 0))
  }

  function EncodeTime(m: Timestamp): Bytes {
    EmitFields(UintField(1, ToU64(m.seconds)) + UintField(2, ToU64(m.nanos)))
  }

  function EncodeTimeRes(m: ServerTimeResponse): Bytes {
    EmitFields(if m.serverTime.None? then [] else [Field(1, Len(EncodeTime(m.serverTime.value)))])
  }

  function EncodePlace(m: PlaceHolder): Bytes { EmitFields(TextField(1, m.text)) }

  function ConnectionFields(m: ConnectionMessage): seq<Field> {
    match m.payload
    case None => []
    case Some(HandshakeReq(r)) => [Field(11, Len(EncodeRequest(r)))]
    case Some(HandshakeRes(r)) => [Field(12, Len(EncodeResponse(r)))]
  }

  function CoreFields(m: CoreMessage): seq<Field> {
    match m.payload
    case None => []
    case Some(ServerTimeReq(_)) => [Field(1, Len([]))]
    case Some(ServerTimeRes(r)) => [Field(2, Len(EncodeTimeRes(r)))]
  }

  function TextFields(m: TextMessage): seq<Field> {
    if m.payload.None? then [] else [Field(1, Len(EncodePlace(m.payload.value)))]
  }

  function EncodeConnection(m: ConnectionMessage): Bytes { EmitFields(ConnectionFields(m)) }
  function EncodeCore(m: CoreMessage): Bytes { EmitFields(CoreFields(m)) }
  function EncodeText(m: TextMessage): Bytes { EmitFields(TextFields(m)) }

  function BodyField(b: Body): Field {
    match b
    case ConnectionMsg(m) => Field(2, Len(EncodeConnection(m)))
    case CoreMsg(m) => Field(3, Len(EncodeCore(m)))
    case PresenceMsg(m) => Field(4, Len(EncodeText(m)))
    case ActivityMsg(m) => Field(5, Len(EncodeText(m)))
    case ModelMsg(m) => Field(6, Len(EncodeText(m)))
  }

  function HeaderFields(h: Option<Header>): seq<Field> {
    if h.None? then [] else [Field(1, Len(EncodeHeader(h.value)))]
  }

  function BodyFields(b: Option<Body>): seq<Field> {
    if b.None? then [] else [BodyField(b.value)]
  }

  function RealtimeFields(m: RealtimeMessage): seq<Field> {
    HeaderFields(m.header) + BodyFields(m.body)
  }

  function EncodeRealtime(m: RealtimeMessage): Bytes { EmitFields(RealtimeFields(m)) }

  // ------------------------------------------------------------------ merge

  function MergeHeader(x: Header, y: Header): Header {
    Header(if y.requestId != 0 then y.requestId else x.requestId,
           if y.responseId != 0 then y.responseId else x.responseId)
  }

  function MergeText(x: Text, y: Text): Text { if y != [] then y else x }

  function MergeTime(x: Timestamp, y: Timestamp): Timestamp {
    Timestamp(if y.seconds != 0 then y.seconds else x.seconds, if y.nanos != 0 then y.nanos else x.nanos)
  }

  function MergeTimeRes(x: ServerTimeResponse, y: ServerTimeResponse): ServerTimeResponse {
    if y.serverTime.None? then x
    else ServerTimeResponse(Some(MergeTime(Or(x.serverTime, TIME0), y.serverTime.value)))
  }

  function MergeConnection(x: ConnectionMessage, y: ConnectionMessage): ConnectionMessage {
    match y.payload
    case None => x
    case Some(HandshakeReq(r)) =>
      ConnectionMessage(Some(HandshakeReq(HandshakeRequest(MergeText(RequestOf(x).ticket, r.ticket)))))
    case Some(HandshakeRes(r)) =>
      ConnectionMessage(Some(HandshakeRes(HandshakeResponse(r.success || ResponseOf(x).success))))
  }

  function MergeCore(x: CoreMessage, y: CoreMessage): CoreMessage {
    match y.payload
    case None => x
    case Some(ServerTimeReq(_)) => y
    case Some(ServerTimeRes(r)) => CoreMessage(Some(ServerTimeRes(MergeTimeRes(TimeResOf(x), r))))
  }

  function MergeTextMessage(x: TextMessage, y: TextMessage): TextMessage {
    if y.payload.None? then x
    else TextMessage(Some(PlaceHolder(MergeText(Or(x.payload, PLACE0).text, y.payload.value.text))))
  }

  function MergeBody(x: RealtimeMessage, y: Body): Body {
    match y
    case ConnectionMsg(m) => ConnectionMsg(MergeConnection(ConnectionOf(x), m))
    case CoreMsg(m) => CoreMsg(MergeCore(CoreOf(x), m))
    case PresenceMsg(m) => PresenceMsg(MergeTextMessage(PresenceOf(x), m))
    case ActivityMsg(m) => ActivityMsg(MergeTextMessage(ActivityOf(x), m))
    case ModelMsg(m) => ModelMsg(MergeTextMessage(ModelOf(x), m))
  }

  /** The merge the Encoding guide prescribes: later scalars win unless they are the default, sub-messages merge. */
  function Merge(x: RealtimeMessage, y: RealtimeMessage): RealtimeMessage {
    MergeOnlyBody(MergeOnlyHeader(x, y.header), y.body)
  }

  function MergeOnlyHeader(x: RealtimeMessage, h: Option<Header>): RealtimeMessage {
    if h.None? then x else x.(header := Some(MergeHeader(Or(x.header, HEADER0), h.value)))
  }

  function MergeOnlyBody(x: RealtimeMessage, b: Option<Body>): RealtimeMessage {
    if b.None? then x else x.(body := Some(MergeBody(x, b.value)))
  }

  // ----------------------------------------------------------------- proofs

  /** Emitted fields, applied to any value, are just applied: the bytes in between do not matter. */
  lemma MergeEmitted<T>(step: (T, Field) -> Option<T>, acc: T, fs: seq<Field>)
    requires ValidFields(fs)
    ensures MergeBytes(step, acc, EmitFields(fs)) == Fold(step, acc, fs)
  {
    ParseEmitted(fs);
  }

  lemma FoldOne<T>(step: (T, Field) -> Option<T>, acc: T, f: Field)
    ensures Fold(step, acc, [f]) == step(acc, f)
  {
    assert [f][1..] == [];
  }

  lemma {:induction false} FoldAppend<T>(step: (T, Field) -> Option<T>, acc: T, fs: seq<Field>, gs: seq<Field>)
    ensures Fold(step, acc, fs + gs) ==
            match Fold(step, acc, fs) case None => None case Some(mid) => Fold(step, mid, gs)
  {
    if fs == [] {
      assert fs + gs == gs;
    } else {
      assert (fs + gs)[0] == fs[0] && (fs + gs)[1..] == fs[1..] + gs;
      match step(acc, fs[0])
      case None =>
      case Some(next) => FoldAppend(step, next, fs[1..], gs);
    }
  }

  lemma EmittedLength(fs: seq<Field>)
    requires |fs| <= 1 && ValidFields(fs) && (fs != [] ==> fs[0].value.Len? || fs[0].value.Varint?)
    ensures |EmitFields(fs)| <= 20 + if fs != [] && fs[0].value.Len? then |fs[0].value.bytes| else 0
  {
    if fs != [] {
      var f := fs[0];
      VarintRoundTrip64(f.number * 8 + WireType(f.value), []);
      VarintRoundTrip64(if f.value.Len? then |f.value.bytes| else f.value.n, []);
      assert fs[1..] == [];
    }
  }

  lemma EmittedTwo(fs: seq<Field>, gs: seq<Field>)
    requires |fs| <= 1
    ensures EmitFields(fs + gs) == EmitFields(fs) + EmitFields(gs)
  {
    if fs == [] {
      assert fs + gs == gs;
    } else {
      assert fs[1..] == [] && (fs + gs)[1..] == gs;
      assert EmitFields(fs) == EmitField(fs[0]);
    }
  }

  /** The only unbounded parts are strings, so a whole encoding is at most a constant longer than one. */
  lemma ConnectionLength(m: ConnectionMessage)
    ensures |EncodeConnection(m)| <= MAX_LEN + 40
    ensures ValidFields(ConnectionFields(m))
  {
    match m.payload
    case None =>
    case Some(HandshakeReq(r)) =>
      EmittedLength(TextField(1, r.ticket));
      EmittedLength(ConnectionFields(m));
    case Some(HandshakeRes(r)) =>
      EmittedLength(UintField(1, if r.success then 1 else 0));
      EmittedLength(ConnectionFields(m));
  }

  lemma TextLength(m: TextMessage)
    ensures |EncodeText(m)| <= MAX_LEN + 40
    ensures ValidFields(TextFields(m))
  {
    if m.payload.Some? {
      EmittedLength(TextField(1, m.payload.value.text));
      EmittedLength(TextFields(m));
    }
  }

  lemma TimeLength(m: Timestamp)
    ensures |EncodeTime(m)| <= 40
  {
    var fs, gs := UintField(1, ToU64(m.seconds)), UintField(2, ToU64(m.nanos));
    EmittedTwo(fs, gs);
    EmittedLength(fs);
    EmittedLength(gs);
  }

  lemma HeaderLength(m: Header)
    ensures |EncodeHeader(m)| <= 40
  {
    var fs, gs := UintField(1, m.requestId), UintField(2, m.responseId);
    EmittedTwo(fs, gs);
    EmittedLength(fs);
    EmittedLength(gs);
  }

  lemma TimeResLength(m: ServerTimeResponse)
    ensures |EncodeTimeRes(m)| <= 60
  {
    if m.serverTime.Some? {
      TimeLength(m.serverTime.value);
      EmittedLength([Field(1, Len(EncodeTime(m.serverTime.value)))]);
    }
  }

  lemma CoreLength(m: CoreMessage)
    ensures |EncodeCore(m)| <= 80
    ensures ValidFields(CoreFields(m))
  {
    if m.payload.Some? && m.payload.value.ServerTimeRes? {
      TimeResLength(m.payload.value.res);
    }
    EmittedLength(CoreFields(m));
  }

  lemma RealtimeLength(m: RealtimeMessage)
    ensures ValidFields(RealtimeFields(m))
  {
    if m.header.Some? { HeaderLength(m.header.value); }
    if m.body.Some? {
      match m.body.value
      case ConnectionMsg(b) => ConnectionLength(b);
      case CoreMsg(b) => CoreLength(b);
      case PresenceMsg(b) => TextLength(b);
      case ActivityMsg(b) => TextLength(b);
      case ModelMsg(b) => TextLength(b);
    }
  }

  lemma AppendHeader(x: Header, y: Header)
    ensures MergeBytes(StepHeader, x, EncodeHeader(y)) == Some(MergeHeader(x, y))
  {
    hide MergeBytes, EmitFields;
    var fs, gs := UintField(1, y.requestId), UintField(2, y.responseId);
    MergeEmitted(StepHeader, x, fs + gs);
    FoldAppend(StepHeader, x, fs, gs);
  }

  lemma AppendTime(x: Timestamp, y: Timestamp)
    ensures MergeBytes(StepTime, x, EncodeTime(y)) == Some(MergeTime(x, y))
  {
    hide MergeBytes, EmitFields;
    var fs, gs := UintField(1, ToU64(y.seconds)), UintField(2, ToU64(y.nanos));
    MergeEmitted(StepTime, x, fs + gs);
    FoldAppend(StepTime, x, fs, gs);
    I32RoundTrip(y.nanos);
  }

  lemma AppendRequest(x: HandshakeRequest, y: HandshakeRequest)
    ensures MergeBytes(StepRequest, x, EncodeRequest(y)) ==
            Some(HandshakeRequest(MergeText(x.ticket, y.ticket)))
  {
    MergeEmitted(StepRequest, x, TextField(1, y.ticket));
  }

  lemma AppendResponse(x: HandshakeResponse, y: HandshakeResponse)
    ensures MergeBytes(StepResponse, x, EncodeResponse(y)) ==
            Some(HandshakeResponse(y.success || x.success))
  {
    MergeEmitted(StepResponse, x, UintField(1, if y.success then 1 else 0));
  }

  lemma AppendPlace(x: PlaceHolder, y: PlaceHolder)
    ensures MergeBytes(StepPlace, x, EncodePlace(y)) == Some(PlaceHolder(MergeText(x.text, y.text)))
  {
    MergeEmitted(StepPlace, x, TextField(1, y.text));
  }

  lemma AppendTimeRes(x: ServerTimeResponse, y: ServerTimeResponse)
    ensures MergeBytes(StepTimeRes, x, EncodeTimeRes(y)) == Some(MergeTimeRes(x, y))
  {
    if y.serverTime.Some? {
      TimeLength(y.serverTime.value);
      var f := Field(1, Len(EncodeTime(y.serverTime.value)));
      MergeEmitted(StepTimeRes, x, [f]);
      FoldOne(StepTimeRes, x, f);
      AppendTime(Or(x.serverTime, TIME0), y.serverTime.value);
    } else {
      MergeEmitted(StepTimeRes, x, []);
    }
  }

  lemma AppendConnection(x: ConnectionMessage, y: ConnectionMessage)
    ensures MergeBytes(StepConnection, x, EncodeConnection(y)) == Some(MergeConnection(x, y))
  {
    ConnectionLength(y);
    MergeEmitted(StepConnection, x, ConnectionFields(y));
    match y.payload
    case None =>
    case Some(HandshakeReq(r)) =>
      AppendRequest(RequestOf(x), r);
      FoldOne(StepConnection, x, ConnectionFields(y)[0]);
    case Some(HandshakeRes(r)) =>
      AppendResponse(ResponseOf(x), r);
      FoldOne(StepConnection, x, ConnectionFields(y)[0]);
  }

  lemma AppendCore(x: CoreMessage, y: CoreMessage)
    ensures MergeBytes(StepCore, x, EncodeCore(y)) == Some(MergeCore(x, y))
  {
    CoreLength(y);
    MergeEmitted(StepCore, x, CoreFields(y));
    match y.payload
    case None =>
    case Some(ServerTimeReq(r)) =>
      assert MergeBytes(StepTimeReq, TimeReqOf(x), []) == Some(TimeReqOf(x)) && TimeReqOf(x) == r == ServerTimeRequest;
      FoldOne(StepCore, x, CoreFields(y)[0]);
    case Some(ServerTimeRes(r)) =>
      AppendTimeRes(TimeResOf(x), r);
      FoldOne(StepCore, x, CoreFields(y)[0]);
  }

  lemma AppendText(x: TextMessage, y: TextMessage)
    ensures MergeBytes(StepText, x, EncodeText(y)) == Some(MergeTextMessage(x, y))
  {
    TextLength(y);
    MergeEmitted(StepText, x, TextFields(y));
    if y.payload.Some? {
      AppendPlace(Or(x.payload, PLACE0), y.payload.value);
      FoldOne(StepText, x, TextFields(y)[0]);
    }
  }

  lemma AppendBody(x: RealtimeMessage, b: Body)
    ensures StepRealtime(x, BodyField(b)) == Some(x.(body := Some(MergeBody(x, b))))
  {
    match b
    case ConnectionMsg(m) => AppendConnection(ConnectionOf(x), m);
    case CoreMsg(m) => AppendCore(CoreOf(x), m);
    case PresenceMsg(m) => AppendText(PresenceOf(x), m);
    case ActivityMsg(m) => AppendText(ActivityOf(x), m);
    case ModelMsg(m) => AppendText(ModelOf(x), m);
  }

  lemma AppendHeaderField(x: RealtimeMessage, h: Option<Header>)
    ensures Fold(StepRealtime, x, HeaderFields(h)) == Some(MergeOnlyHeader(x, h))
  {
    if h.Some? {
      AppendHeader(Or(x.header, HEADER0), h.value);
      FoldOne(StepRealtime, x, HeaderFields(h)[0]);
    }
  }

  lemma AppendBodyField(x: RealtimeMessage, b: Option<Body>)
    ensures Fold(StepRealtime, x, BodyFields(b)) == Some(MergeOnlyBody(x, b))
  {
    if b.Some? {
      AppendBody(x, b.value);
      FoldOne(StepRealtime, x, BodyFields(b)[0]);
    }
  }

  lemma AppendRealtime(x: RealtimeMessage, y: RealtimeMessage)
    ensures MergeBytes(StepRealtime, x, EncodeRealtime(y)) == Some(Merge(x, y))
  {
    RealtimeLength(y);
    MergeEmitted(StepRealtime, x, RealtimeFields(y));
    FoldAppend(StepRealtime, x, HeaderFields(y.header), BodyFields(y.body));
    AppendHeaderField(x, y.header);
    AppendBodyField(MergeOnlyHeader(x, y.header), y.body);
  }

  lemma MergeCoreFromDefault(y: CoreMessage)
    ensures MergeCore(CORE0, y) == y
  {
    if y.payload.Some? && y.payload.value.ServerTimeRes? {
      var r := y.payload.value.res;
      assert MergeTimeRes(TIME_RES0, r) == r;
    }
  }

  lemma MergeBodyFromDefault(x: RealtimeMessage, y: Body)
    requires x.body.None?
    ensures MergeBody(x, y) == y
  {
    match y
    case ConnectionMsg(m) =>
    case CoreMsg(m) => MergeCoreFromDefault(m);
    case PresenceMsg(m) =>
    case ActivityMsg(m) =>
    case ModelMsg(m) =>
  }

  /** Decoding the encoding gives the message back, for every message of every schema. */
  lemma RealtimeRoundTrip(m: RealtimeMessage)
    ensures DecodeRealtime(EncodeRealtime(m)) == Some(m)
  {
    hide MergeBytes, EncodeRealtime, MergeBody;
    AppendRealtime(REALTIME0, m);
    if m.body.Some? { MergeBodyFromDefault(MergeOnlyHeader(REALTIME0, m.header), m.body.value); }
  }

  lemma ConnectionRoundTrip(m: ConnectionMessage)
    ensures DecodeConnection(EncodeConnection(m)) == Some(m)
  {
    hide MergeBytes, EncodeConnection;
    AppendConnection(CONNECTION0, m);
  }

  lemma CoreRoundTrip(m: CoreMessage)
    ensures DecodeCore(EncodeCore(m)) == Some(m)
  {
    AppendCore(CORE0, m);
    MergeCoreFromDefault(m);
  }

  lemma TextRoundTrip(m: TextMessage)
    ensures DecodeText(EncodeText(m)) == Some(m)
  {
    AppendText(TEXT0, m);
  }

  // --------------------------------------------------------- bytes of the schemas

  /** A record with a one-byte key. */
  function VarintRecord(key: byte, n: u64): Bytes { [key] + EncodeVarint(n) }
  function LenRecord(key: byte, b: Bytes): Bytes { [key] + EncodeVarint(|b|) + b }

  lemma OneRecord(number: nat, v: WireValue)
    requires 1 <= number < 16 && (v.Varint? || v.Len?)
    ensures EmitFields([Field(number, v)]) ==
            if v.Varint? then VarintRecord(number * 8, v.n) else LenRecord(number * 8 + 2, v.bytes)
  {
    var f := Field(number, v);
    assert [f][1..] == [];
    assert EncodeVarint(number * 8 + WireType(v)) == [number * 8 + WireType(v)];
    assert EmitFields([f]) == EmitField(f) + [];
    if v.Len? {
      assert [number * 8 + 2] + (EncodeVarint(|v.bytes|) + v.bytes) == LenRecord(number * 8 + 2, v.bytes);
    }
  }

  function Unless(skip: bool, b: Bytes): Bytes { if skip then [] else b }

  lemma UintBytes(number: nat, n: u64)
    requires 1 <= number < 15
    ensures EmitFields(UintField(number, n)) == Unless(n == 0, VarintRecord(number * 8, n))
  {
    if n != 0 { OneRecord(number, Varint(n)); }
  }

  lemma StringBytes(number: nat, s: Text)
    requires 1 <= number < 15
    ensures EmitFields(TextField(number, s)) == Unless(s == [], LenRecord(number * 8 + 2, s))
  {
    if s != [] { OneRecord(number, Len(s)); }
  }

  /** The bytes of the innermost messages, by field number; negative times are 64-bit two's complement. */
  lemma ScalarBytes(h: Header, q: HandshakeRequest, r: HandshakeResponse, t: Timestamp, p: PlaceHolder)
    ensures EncodeHeader(h) ==
            Unless(h.requestId == 0, VarintRecord(0x08, h.requestId)) + Unless(h.responseId == 0, VarintRecord(0x10, h.responseId))
    ensures EncodeRequest(q) == Unless(q.ticket == [], LenRecord(0x0a, q.ticket))
    ensures EncodeResponse(r) == Unless(!r.success, [0x08, 0x01])
    ensures EncodeTime(t) ==
            Unless(t.seconds == 0, VarintRecord(0x08, if t.seconds < 0 then t.seconds + U64 else t.seconds))
            + Unless(t.nanos == 0, VarintRecord(0x10, if t.nanos < 0 then t.nanos + U64 else t.nanos))
    ensures EncodePlace(p) == Unless(p.text == [], LenRecord(0x0a, p.text))
  {
    hide EmitFields, UintField, TextField, VarintRecord, LenRecord;
    UintBytes(1, h.requestId);
    UintBytes(2, h.responseId);
    SmallEmitted(h.requestId, h.responseId);
    StringBytes(1, q.ticket);
    UintBytes(1, if r.success then 1 else 0);
    TrueBytes();
    UintBytes(1, ToU64(t.seconds));
    UintBytes(2, ToU64(t.nanos));
    SmallEmitted(ToU64(t.seconds), ToU64(t.nanos));
    StringBytes(1, p.text);
  }

  lemma SmallEmitted(m: u64, n: u64)
    ensures EmitFields(UintField(1, m) + UintField(2, n)) == EmitFields(UintField(1, m)) + EmitFields(UintField(2, n))
  {
    EmittedTwo(UintField(1, m), UintField(2, n));
  }

  lemma TrueBytes()
    ensures VarintRecord(0x08, 1) == [0x08, 0x01]
  {
  }

  /** The bytes of the whole message, and (below) of the messages in between. */
  lemma RealtimeBytes(m: RealtimeMessage)
    ensures EncodeRealtime(m) ==
            (if m.header.None? then [] else LenRecord(0x0a, EncodeHeader(m.header.value)))
            + match m.body
              case None => []
              case Some(ConnectionMsg(x)) => LenRecord(0x12, EncodeConnection(x))
              case Some(CoreMsg(x)) => LenRecord(0x1a, EncodeCore(x))
              case Some(PresenceMsg(x)) => LenRecord(0x22, EncodeText(x))
              case Some(ActivityMsg(x)) => LenRecord(0x2a, EncodeText(x))
              case Some(ModelMsg(x)) => LenRecord(0x32, EncodeText(x))
  {
    hide LenRecord, EncodeHeader, EncodeConnection, EncodeCore, EncodeText, EmitFields;
    EmittedTwo(HeaderFields(m.header), BodyFields(m.body));
    EmptyEmitted();
    if m.header.Some? { OneRecord(1, Len(EncodeHeader(m.header.value))); }
    if m.body.Some? { OneRecord(BodyField(m.body.value).number, BodyField(m.body.value).value); }
  }

  lemma NestedBytes(r: ServerTimeResponse, t: TextMessage)
    ensures EncodeTimeRes(r) == if r.serverTime.None? then [] else LenRecord(0x0a, EncodeTime(r.serverTime.value))
    ensures EncodeText(t) == if t.payload.None? then [] else LenRecord(0x0a, EncodePlace(t.payload.value))
  {
    hide LenRecord, EncodeTime, EncodePlace;
    if r.serverTime.Some? { OneRecord(1, Len(EncodeTime(r.serverTime.value))); }
    if t.payload.Some? { OneRecord(1, Len(EncodePlace(t.payload.value))); }
  }

  lemma EmptyEmitted()
    ensures EmitFields([]) == []
  {
  }

  lemma ConnectionBytes(c: ConnectionMessage)
    ensures EncodeConnection(c) ==
            match c.payload
            case None => []
            case Some(HandshakeReq(q)) => LenRecord(0x5a, EncodeRequest(q))
            case Some(HandshakeRes(a)) => LenRecord(0x62, EncodeResponse(a))
  {
    hide LenRecord, EncodeRequest, EncodeResponse;
    match c.payload
    case None =>
    case Some(HandshakeReq(q)) => OneRecord(11, Len(EncodeRequest(q)));
    case Some(HandshakeRes(a)) => OneRecord(12, Len(EncodeResponse(a)));
  }

  lemma CoreBytes(d: CoreMessage)
    ensures EncodeCore(d) ==
            match d.payload
            case None => []
            case Some(ServerTimeReq(_)) => [0x0a, 0x00]
            case Some(ServerTimeRes(a)) => LenRecord(0x12, EncodeTimeRes(a))
  {
    hide EncodeTimeRes;
    match d.payload
    case None =>
    case Some(ServerTimeReq(_)) => OneRecord(1, Len([]));
    case Some(ServerTimeRes(a)) => OneRecord(2, Len(EncodeTimeRes(a)));
  }

  /**
   What single scalar records do to any message they are read into, canonical or not: numbers
   are cut to their width, any nonzero bool is true, and a later record wins.
   */
  lemma RecordsMean(h: Header, t: Timestamp, r: HandshakeResponse, n: u64)
    ensures MergeBytes(StepHeader, h, VarintRecord(0x08, n)) == Some(h.(requestId := n % 0x1_0000_0000))
    ensures MergeBytes(StepHeader, h, VarintRecord(0x10, n)) == Some(h.(responseId := n % 0x1_0000_0000))
    ensures MergeBytes(StepResponse, r, VarintRecord(0x08, n)) == Some(HandshakeResponse(n > 0))
    ensures MergeBytes(StepTime, t, VarintRecord(0x08, n)) == Some(t.(seconds := AsI64(n)))
    ensures MergeBytes(StepTime, t, VarintRecord(0x10, n)) == Some(t.(nanos := AsI32(n)))
    ensures (n - AsI64(n)) % U64 == 0 && (n - AsI32(n)) % U32 == 0
  {
    hide MergeBytes, VarintRecord, Fold;
    var f, g := Field(1, Varint(n)), Field(2, Varint(n));
    OneRecord(1, Varint(n));
    OneRecord(2, Varint(n));
    MergeEmitted(StepHeader, h, [f]);
    MergeEmitted(StepHeader, h, [g]);
    MergeEmitted(StepResponse, r, [f]);
    MergeEmitted(StepTime, t, [f]);
    MergeEmitted(StepTime, t, [g]);
    FoldOne(StepHeader, h, f);
    FoldOne(StepHeader, h, g);
    FoldOne(StepResponse, r, f);
    FoldOne(StepTime, t, f);
    FoldOne(StepTime, t, g);
    assert n == n / U32 * U32 + n % U32;
  }

  /** The tag byte that announces each part: field number times eight plus wire type 2. */
  lemma TagBytes(h: Header, b: Body)
    ensures var bs := EncodeRealtime(RealtimeMessage(Some(h), None)); |bs| > 0 && bs[0] == 0x0a
    ensures var bs := EncodeRealtime(RealtimeMessage(None, Some(b)));
            |bs| > 0 && bs[0] == match b
                                 case ConnectionMsg(_) => 0x12
                                 case CoreMsg(_) => 0x1a
                                 case PresenceMsg(_) => 0x22
                                 case ActivityMsg(_) => 0x2a
                                 case ModelMsg(_) => 0x32
    ensures b.ConnectionMsg? && b.connection.payload.Some? ==>
              var bs := EncodeConnection(b.connection);
              |bs| > 0 && bs[0] == if b.connection.payload.value.HandshakeReq? then 0x5a else 0x62
    ensures b.CoreMsg? && b.core.payload.Some? ==>
              var bs := EncodeCore(b.core);
              |bs| > 0 && bs[0] == if b.core.payload.value.ServerTimeReq? then 0x0a else 0x12
  {
    assert RealtimeFields(RealtimeMessage(Some(h), None)) == HeaderFields(Some(h));
    assert RealtimeFields(RealtimeMessage(None, Some(b))) == [BodyField(b)];
  }

  /** Decoding a concatenation continues from the first part's message with the second part's fields. */
  lemma DecodeConcat(a: Bytes, b: Bytes)
    requires DecodeRealtime(a).Some?
    ensures DecodeRealtime(a + b) == MergeBytes(StepRealtime, DecodeRealtime(a).value, b)
  {
    ParseAppend(a, b);
    if ParseFields(b).Some? {
      FoldAppend(StepRealtime, REALTIME0, ParseFields(a).value, ParseFields(b).value);
    }
  }

  /**
   Fields of other numbers are skipped, wherever they stand and whatever they hold, so messages
   of later schemas can be read; a known field that is not a record is an error.
   */
  lemma UnknownIsSkipped(a: Bytes, f: Field, b: Bytes)
    requires DecodeRealtime(a).Some? && ValidField(f)
    ensures f.number > 6 ==> DecodeRealtime(a + EmitFields([f]) + b) == DecodeRealtime(a + b)
    ensures f.number <= 6 && !f.value.Len? ==> DecodeRealtime(a + EmitFields([f]) + b) == None
  {
    hide EmitFields;
    var x := DecodeRealtime(a).value;
    DecodeConcat(a, EmitFields([f]));
    MergeEmitted(StepRealtime, x, [f]);
    FoldOne(StepRealtime, x, f);
    if f.number > 6 {
      DecodeConcat(a + EmitFields([f]), b);
      DecodeConcat(a, b);
    } else if !f.value.Len? {
      BadFieldStays(a, f, b);
    }
  }

  lemma BadFieldStays(a: Bytes, f: Field, b: Bytes)
    requires DecodeRealtime(a).Some? && ValidField(f) && f.number <= 6 && !f.value.Len?
    ensures DecodeRealtime(a + EmitFields([f]) + b) == None
  {
    hide EmitFields, StepRealtime;
    var bs := EmitFields([f]) + b;
    assert a + EmitFields([f]) + b == a + bs;
    DecodeConcat(a, bs);
    ParseEmitted([f]);
    ParseAppend(EmitFields([f]), b);
    if ParseFields(b).Some? {
      var x := DecodeRealtime(a).value;
      FoldAppend(StepRealtime, x, [f], ParseFields(b).value);
      FoldOne(StepRealtime, x, f);
      assert StepRealtime(x, f) == None by { KnownIsRecord(x, f); }
    }
  }

  lemma KnownIsRecord(x: RealtimeMessage, f: Field)
    requires 1 <= f.number <= 6 && !f.value.Len?
    ensures StepRealtime(x, f) == None
  {
  }

  /** The same inside the messages of the schema. */
  lemma UnknownInside(f: Field, h: Header, q: HandshakeRequest, r: HandshakeResponse, t: Timestamp, p: PlaceHolder,
                      c: ConnectionMessage, d: CoreMessage, s: ServerTimeResponse, x: TextMessage)
    ensures f.number > 2 ==> StepHeader(h, f) == Some(h) && StepTime(t, f) == Some(t) && StepCore(d, f) == Some(d)
    ensures f.number > 1 ==>
              && StepRequest(q, f) == Some(q) && StepResponse(r, f) == Some(r) && StepPlace(p, f) == Some(p)
              && StepTimeRes(s, f) == Some(s) && StepText(x, f) == Some(x)
    ensures f.number != 11 && f.number != 12 ==> StepConnection(c, f) == Some(c)
    ensures f.number in {1, 2} && !f.value.Varint? ==> StepHeader(h, f) == None && StepTime(t, f) == None
    ensures f.number == 1 && !f.value.Len? ==> StepRequest(q, f) == None && StepPlace(p, f) == None
    ensures f.number == 1 && !f.value.Varint? ==> StepResponse(r, f) == None
  {
  }

  /** An encoded message appended to any decodable bytes is merged into what they hold. */
  lemma AppendMerges(a: Bytes, y: RealtimeMessage)
    requires DecodeRealtime(a).Some?
    ensures DecodeRealtime(a + EncodeRealtime(y)) == Some(Merge(DecodeRealtime(a).value, y))
  {
    DecodeConcat(a, EncodeRealtime(y));
    AppendRealtime(DecodeRealtime(a).value, y);
  }
}
