/**
 When does decoding a concatenation merge the two decoded messages? Always, if the second
 part is canonical (Messages.AppendMerges). For arbitrary bytes the exact condition is proved
 here. What bytes do to a message they are appended to is a patch: which scalars they spell
 out, and whether they switched a oneof away from what was there. Decoding the bytes on their
 own forgets both, and that is the only way in which merging the two messages can go wrong.
 */
module Merging {
  import opened Base
  import opened Wire
  import opened Messages

  // ---------------------------------------------------------------- patches

  /** A scalar is None if the bytes do not mention it. */
  datatype HeaderPatch = HeaderPatch(requestId: Option<u32>, responseId: Option<u32>)
  datatype TimePatch = TimePatch(seconds: Option<i64>, nanos: Option<i32>)

  /** The member of a oneof that the bytes leave set; `switched` if they set another one before it. */
  datatype ConnectionPatch =
    | NoConnection
    | ReqPatch(switched: bool, ticket: Option<Text>)
    | ResPatch(switched: bool, success: Option<bool>)

  datatype CorePatch =
    | NoCore
    | TimeReqPatch
    | TimeResPatch(switched: bool, time: Option<TimePatch>)

  /** The outer option says whether the sub-message is mentioned, the inner one its text. */
  type TextPatch = Option<Option<Text>>

  datatype BodyPatch =
    | NoBody
    | ConnectionBody(switched: bool, connection: ConnectionPatch)
    | CoreBody(switched: bool, core: CorePatch)
    | PresenceBody(switched: bool, text: TextPatch)
    | ActivityBody(switched: bool, text: TextPatch)
    | ModelBody(switched: bool, text: TextPatch)

  datatype Patch = Patch(header: Option<HeaderPatch>, body: BodyPatch)

  const NO_HEADER := HeaderPatch(None, None)
  const NO_TIME := TimePatch(None, None)
  const NO_PATCH := Patch(None, NoBody)

  // --------------------------------------------------------------- applying

  function ApplyHeader(p: HeaderPatch, x: Header): Header {
    Header(Or(p.requestId, x.requestId), Or(p.responseId, x.responseId))
  }

  function ApplyTime(p: TimePatch, x: Timestamp): Timestamp {
    Timestamp(Or(p.seconds, x.seconds), Or(p.nanos, x.nanos))
  }

  function ApplyTimeRes(p: Option<TimePatch>, x: ServerTimeResponse): ServerTimeResponse {
    if p.None? then x else ServerTimeResponse(Some(ApplyTime(p.value, Or(x.serverTime, TIME0))))
  }

  /** What a oneof's member is patched onto. */
  function Under<T>(switched: bool, default: T, x: T): T { if switched then default else x }

  function ApplyConnection(p: ConnectionPatch, x: ConnectionMessage): ConnectionMessage {
    match p
    case NoConnection => x
    case ReqPatch(switched, t) =>
      ConnectionMessage(Some(HandshakeReq(HandshakeRequest(Or(t, Under(switched, REQUEST0, RequestOf(x)).ticket)))))
    case ResPatch(switched, b) =>
      ConnectionMessage(Some(HandshakeRes(HandshakeResponse(Or(b, Under(switched, RESPONSE0, ResponseOf(x)).success)))))
  }

  function ApplyCore(p: CorePatch, x: CoreMessage): CoreMessage {
    match p
    case NoCore => x
    case TimeReqPatch => CoreMessage(Some(ServerTimeReq(ServerTimeRequest)))
    case TimeResPatch(switched, t) =>
      CoreMessage(Some(ServerTimeRes(ApplyTimeRes(t, Under(switched, TIME_RES0, TimeResOf(x))))))
  }

  function ApplyText(p: TextPatch, x: TextMessage): TextMessage {
    if p.None? then x else TextMessage(Some(PlaceHolder(Or(p.value, Or(x.payload, PLACE0).text))))
  }

  function ApplyBody(p: BodyPatch, x: RealtimeMessage): Option<Body> {
    match p
    case NoBody => x.body
    case ConnectionBody(switched, q) => Some(ConnectionMsg(ApplyConnection(q, Under(switched, CONNECTION0, ConnectionOf(x)))))
    case CoreBody(switched, q) => Some(CoreMsg(ApplyCore(q, Under(switched, CORE0, CoreOf(x)))))
    case PresenceBody(switched, q) => Some(PresenceMsg(ApplyText(q, Under(switched, TEXT0, PresenceOf(x)))))
    case ActivityBody(switched, q) => Some(ActivityMsg(ApplyText(q, Under(switched, TEXT0, ActivityOf(x)))))
    case ModelBody(switched, q) => Some(ModelMsg(ApplyText(q, Under(switched, TEXT0, ModelOf(x)))))
  }

  function Apply(p: Patch, x: RealtimeMessage): RealtimeMessage {
    RealtimeMessage(if p.header.None? then x.header else Some(ApplyHeader(p.header.value, Or(x.header, HEADER0))),
                    ApplyBody(p.body, x))
  }

  // ---------------------------------------------------------------- reading

  function PatchHeader(p: HeaderPatch, f: Field): Option<HeaderPatch> {
    match f.number
    case 1 => if f.value.Varint? then Some(p.(requestId := Some(f.value.n % U32))) else None
    case 2 => if f.value.Varint? then Some(p.(responseId := Some(f.value.n % U32))) else None
    case _ => Some(p)
  }

  /** Both messages that hold nothing but a string. */
  function PatchText(p: Option<Text>, f: Field): Option<Option<Text>> {
    if f.number != 1 then Some(p)
    else if f.value.Len? && |f.value.bytes| <= MAX_LEN then Some(Some(f.value.bytes))
    else None
  }

  function PatchResponse(p: Option<bool>, f: Field): Option<Option<bool>> {
    if f.number != 1 then Some(p)
    else if f.value.Varint? then Some(Some(f.value.n != 0))
    else None
  }

  function PatchTime(p: TimePatch, f: Field): Option<TimePatch> {
    match f.number
    case 1 => if f.value.Varint? then Some(p.(seconds := Some(AsI64(f.value.n)))) else None
    case 2 => if f.value.Varint? then Some(p.(nanos := Some(AsI32(f.value.n)))) else None
    case _ => Some(p)
  }

  function PatchTimeRes(p: Option<TimePatch>, f: Field): Option<Option<TimePatch>> {
    if f.number != 1 then Some(p)
    else
      match MergeNested(PatchTime, Or(p, NO_TIME), f.value)
      case None => None
      case Some(t) => Some(Some(t))
  }

  function PatchConnection(p: ConnectionPatch, f: Field): Option<ConnectionPatch> {
    match f.number
    case 11 =>
      (match MergeNested(PatchText, if p.ReqPatch? then p.ticket else None, f.value)
       case None => None
       case Some(t) => Some(ReqPatch(if p.ReqPatch? then p.switched else !p.NoConnection?, t)))
    case 12 =>
      (match MergeNested(PatchResponse, if p.ResPatch? then p.success else None, f.value)
       case None => None
       case Some(b) => Some(ResPatch(if p.ResPatch? then p.switched else !p.NoConnection?, b)))
    case _ => Some(p)
  }

  function PatchCore(p: CorePatch, f: Field): Option<CorePatch> {
    match f.number
    case 1 => if MergeNested(StepTimeReq, ServerTimeRequest, f.value).None? then None else Some(TimeReqPatch)
    case 2 =>
      (match MergeNested(PatchTimeRes, if p.TimeResPatch? then p.time else None, f.value)
       case None => None
       case Some(t) => Some(TimeResPatch(if p.TimeResPatch? then p.switched else !p.NoCore?, t)))
    case _ => Some(p)
  }

  function PatchTextMessage(p: TextPatch, f: Field): Option<TextPatch> {
    if f.number != 1 then Some(p)
    else
      match MergeNested(PatchText, Or(p, None), f.value)
      case None => None
      case Some(t) => Some(Some(t))
  }

  function PatchRealtime(p: Patch, f: Field): Option<Patch> {
    var b := p.body;
    match f.number
    case 1 =>
      (match MergeNested(PatchHeader, Or(p.header, NO_HEADER), f.value)
       case None => None
       case Some(h) => Some(p.(header := Some(h))))
    case 2 =>
      (match MergeNested(PatchConnection, if b.ConnectionBody? then b.connection else NoConnection, f.value)
       case None => None
       case Some(q) => Some(p.(body := ConnectionBody(if b.ConnectionBody? then b.switched else !b.NoBody?, q))))
    case 3 =>
      (match MergeNested(PatchCore, if b.CoreBody? then b.core else NoCore, f.value)
       case None => None
       case Some(q) => Some(p.(body := CoreBody(if b.CoreBody? then b.switched else !b.NoBody?, q))))
    case 4 =>
      (match MergeNested(PatchTextMessage, if b.PresenceBody? then b.text else None, f.value)
       case None => None
       case Some(q) => Some(p.(body := PresenceBody(if b.PresenceBody? then b.switched else !b.NoBody?, q))))
    case 5 =>
      (match MergeNested(PatchTextMessage, if b.ActivityBody? then b.text else None, f.value)
       case None => None
       case Some(q) => Some(p.(body := ActivityBody(if b.ActivityBody? then b.switched else !b.NoBody?, q))))
    case 6 =>
      (match MergeNested(PatchTextMessage, if b.ModelBody? then b.text else None, f.value)
       case None => None
       case Some(q) => Some(p.(body := ModelBody(if b.ModelBody? then b.switched else !b.NoBody?, q))))
    case _ => Some(p)
  }

  /** What the bytes do to a message they are appended to. */
  function ReadPatch(bs: Bytes): Option<Patch> { MergeBytes(PatchRealtime, NO_PATCH, bs) }

  // ----------------------------------------- decoding is applying the patch

  function Map<P, T>(apply: P -> T, p: Option<P>): Option<T> {
    if p.None? then None else Some(apply(p.value))
  }

  /** Reading one field into a patch has the effect of decoding it. */
  ghost predicate Follows<P(!new), T>(step: (T, Field) -> Option<T>, patch: (P, Field) -> Option<P>, apply: P -> T) {
    forall p: P, f: Field :: step(apply(p), f) == Map(apply, patch(p, f))
  }

  lemma {:induction false} FoldFollows<P(!new), T>(
      step: (T, Field) -> Option<T>, patch: (P, Field) -> Option<P>, apply: P -> T, p: P, fs: seq<Field>)
    requires Follows(step, patch, apply)
    ensures Fold(step, apply(p), fs) == Map(apply, Fold(patch, p, fs))
  {
    if fs != [] {
      assert step(apply(p), fs[0]) == Map(apply, patch(p, fs[0]));
      match patch(p, fs[0])
      case None =>
      case Some(q) => FoldFollows(step, patch, apply, q, fs[1..]);
    }
  }

  lemma NestedFollows<P(!new), T>(
      step: (T, Field) -> Option<T>, patch: (P, Field) -> Option<P>, apply: P -> T, p: P, v: WireValue)
    requires Follows(step, patch, apply)
    ensures MergeNested(step, apply(p), v) == Map(apply, MergeNested(patch, p, v))
  {
    if v.Len? && ParseFields(v.bytes).Some? {
      FoldFollows(step, patch, apply, p, ParseFields(v.bytes).value);
    }
  }

  function OntoHeader(x: Header): HeaderPatch -> Header { p => ApplyHeader(p, x) }
  function OntoRequest(x: HandshakeRequest): Option<Text> -> HandshakeRequest { p => HandshakeRequest(Or(p, x.ticket)) }
  function OntoResponse(x: HandshakeResponse): Option<bool> -> HandshakeResponse { p => HandshakeResponse(Or(p, x.success)) }
  function OntoPlace(x: PlaceHolder): Option<Text> -> PlaceHolder { p => PlaceHolder(Or(p, x.text)) }
  function OntoTime(x: Timestamp): TimePatch -> Timestamp { p => ApplyTime(p, x) }
  function OntoTimeRes(x: ServerTimeResponse): Option<TimePatch> -> ServerTimeResponse { p => ApplyTimeRes(p, x) }
  function OntoConnection(x: ConnectionMessage): ConnectionPatch -> ConnectionMessage { p => ApplyConnection(p, x) }
  function OntoCore(x: CoreMessage): CorePatch -> CoreMessage { p => ApplyCore(p, x) }
  function OntoText(x: TextMessage): TextPatch -> TextMessage { p => ApplyText(p, x) }
  function Onto(x: RealtimeMessage): Patch -> RealtimeMessage { p => Apply(p, x) }

  lemma ScalarsFollow()
    ensures forall x :: Follows(StepHeader, PatchHeader, OntoHeader(x))
    ensures forall x :: Follows(StepRequest, PatchText, OntoRequest(x))
    ensures forall x :: Follows(StepResponse, PatchResponse, OntoResponse(x))
    ensures forall x :: Follows(StepPlace, PatchText, OntoPlace(x))
    ensures forall x :: Follows(StepTime, PatchTime, OntoTime(x))
  {
  }

  lemma TimeResFollows(x: ServerTimeResponse)
    ensures Follows(StepTimeRes, PatchTimeRes, OntoTimeRes(x))
  {
    hide MergeNested, StepTime, PatchTime;
    ScalarsFollow();
    forall p: Option<TimePatch>, f: Field
      ensures StepTimeRes(OntoTimeRes(x)(p), f) == Map(OntoTimeRes(x), PatchTimeRes(p, f))
    {
      NestedFollows(StepTime, PatchTime, OntoTime(Or(x.serverTime, TIME0)), Or(p, NO_TIME), f.value);
    }
  }

  lemma ConnectionFollows(x: ConnectionMessage)
    ensures Follows(StepConnection, PatchConnection, OntoConnection(x))
  {
    hide MergeNested, StepRequest, PatchText, StepResponse, PatchResponse;
    ScalarsFollow();
    forall p: ConnectionPatch, f: Field
      ensures StepConnection(OntoConnection(x)(p), f) == Map(OntoConnection(x), PatchConnection(p, f))
    {
      var req := Under(p.ResPatch? || (p.ReqPatch? && p.switched), REQUEST0, RequestOf(x));
      var res := Under(p.ReqPatch? || (p.ResPatch? && p.switched), RESPONSE0, ResponseOf(x));
      NestedFollows(StepRequest, PatchText, OntoRequest(req), if p.ReqPatch? then p.ticket else None, f.value);
      NestedFollows(StepResponse, PatchResponse, OntoResponse(res), if p.ResPatch? then p.success else None, f.value);
    }
  }

  lemma CoreFollows(x: CoreMessage)
    ensures Follows(StepCore, PatchCore, OntoCore(x))
  {
    hide MergeNested, StepTimeRes, PatchTimeRes;
    forall p: CorePatch, f: Field
      ensures StepCore(OntoCore(x)(p), f) == Map(OntoCore(x), PatchCore(p, f))
    {
      var res := Under(p.TimeReqPatch? || (p.TimeResPatch? && p.switched), TIME_RES0, TimeResOf(x));
      TimeResFollows(res);
      var (m, acc) := (OntoCore(x)(p), MergeNested(StepTimeReq, ServerTimeRequest, f.value));
      assert TimeReqOf(m) == ServerTimeRequest;
      assert acc.Some? ==> acc.value == ServerTimeRequest;
      NestedFollows(StepTimeRes, PatchTimeRes, OntoTimeRes(res), if p.TimeResPatch? then p.time else None, f.value);
    }
  }

  lemma TextFollows(x: TextMessage)
    ensures Follows(StepText, PatchTextMessage, OntoText(x))
  {
    hide MergeNested, StepPlace, PatchText;
    ScalarsFollow();
    forall p: TextPatch, f: Field ensures StepText(OntoText(x)(p), f) == Map(OntoText(x), PatchTextMessage(p, f)) {
      NestedFollows(StepPlace, PatchText, OntoPlace(Or(x.payload, PLACE0)), Or(p, None), f.value);
    }
  }

  lemma TextBodyFollows(x: TextMessage, q: TextPatch, v: WireValue)
    ensures MergeNested(StepText, ApplyText(q, x), v) == Map(OntoText(x), MergeNested(PatchTextMessage, q, v))
  {
    hide MergeNested, StepText, PatchTextMessage;
    TextFollows(x);
    NestedFollows(StepText, PatchTextMessage, OntoText(x), q, v);
  }

  lemma FieldFollows(x: RealtimeMessage, p: Patch, f: Field)
    ensures StepRealtime(Apply(p, x), f) == Map(Onto(x), PatchRealtime(p, f))
  {
    hide MergeNested, StepConnection, PatchConnection, StepCore, PatchCore, StepHeader, PatchHeader,
      StepText, PatchTextMessage, ApplyConnection, ApplyCore, ApplyText, ApplyHeader;
    var b, m := p.body, Apply(p, x);
    match f.number
    case 1 =>
      ScalarsFollow();
      var h := Or(x.header, HEADER0);
      NestedFollows(StepHeader, PatchHeader, OntoHeader(h), Or(p.header, NO_HEADER), f.value);
      EmptyPatches(h, CONNECTION0, CORE0, TEXT0);
    case 2 =>
      var y := Under(!b.NoBody? && (b.ConnectionBody? ==> b.switched), CONNECTION0, ConnectionOf(x));
      ConnectionFollows(y);
      NestedFollows(StepConnection, PatchConnection, OntoConnection(y), if b.ConnectionBody? then b.connection else NoConnection, f.value);
      EmptyPatches(HEADER0, y, CORE0, TEXT0);
    case 3 =>
      var y := Under(!b.NoBody? && (b.CoreBody? ==> b.switched), CORE0, CoreOf(x));
      CoreFollows(y);
      NestedFollows(StepCore, PatchCore, OntoCore(y), if b.CoreBody? then b.core else NoCore, f.value);
      EmptyPatches(HEADER0, CONNECTION0, y, TEXT0);
    case 4 =>
      var y := Under(!b.NoBody? && (b.PresenceBody? ==> b.switched), TEXT0, PresenceOf(x));
      TextBodyFollows(y, if b.PresenceBody? then b.text else None, f.value);
      EmptyPatches(HEADER0, CONNECTION0, CORE0, y);
    case 5 =>
      var y := Under(!b.NoBody? && (b.ActivityBody? ==> b.switched), TEXT0, ActivityOf(x));
      TextBodyFollows(y, if b.ActivityBody? then b.text else None, f.value);
      EmptyPatches(HEADER0, CONNECTION0, CORE0, y);
    case 6 =>
      var y := Under(!b.NoBody? && (b.ModelBody? ==> b.switched), TEXT0, ModelOf(x));
      TextBodyFollows(y, if b.ModelBody? then b.text else None, f.value);
      EmptyPatches(HEADER0, CONNECTION0, CORE0, y);
    case _ =>
  }

  lemma EmptyPatches(h: Header, c: ConnectionMessage, d: CoreMessage, t: TextMessage)
    ensures ApplyHeader(NO_HEADER, h) == h && ApplyConnection(NoConnection, c) == c
    ensures ApplyCore(NoCore, d) == d && ApplyText(None, t) == t
  {
  }

  /** Decoding bytes onto any message is applying their patch to it. */
  lemma DecodingPatches(x: RealtimeMessage, bs: Bytes)
    ensures MergeBytes(StepRealtime, x, bs) == Map(Onto(x), ReadPatch(bs))
  {
    hide StepRealtime, PatchRealtime, ParseFields, Apply;
    assert Follows(StepRealtime, PatchRealtime, Onto(x)) by {
      forall p: Patch, f: Field ensures StepRealtime(Onto(x)(p), f) == Map(Onto(x), PatchRealtime(p, f)) {
        FieldFollows(x, p, f);
      }
    }
    NoPatch(x);
    if ParseFields(bs).Some? {
      FoldFollows(StepRealtime, PatchRealtime, Onto(x), NO_PATCH, ParseFields(bs).value);
    }
  }

  lemma NoPatch(x: RealtimeMessage)
    ensures Apply(NO_PATCH, x) == x
  {
  }

  // -------------------------------------------------------- when merging fails

  /** A scalar set in the first part comes out at its default: spelled out so, or after a switch. */
  predicate Erased<T(==)>(switched: bool, p: Option<T>, default: T, x: T) {
    x != default && Or(p, default) == default && (switched || p.Some?)
  }

  predicate ErasesHeader(p: HeaderPatch, x: Header) {
    Erased(false, p.requestId, 0, x.requestId) || Erased(false, p.responseId, 0, x.responseId)
  }

  predicate ErasesTimeRes(switched: bool, p: Option<TimePatch>, x: ServerTimeResponse) {
    if p.None? then switched && x.serverTime.Some?
    else
      var t := Or(x.serverTime, TIME0);
      Erased(switched, p.value.seconds, 0, t.seconds) || Erased(switched, p.value.nanos, 0, t.nanos)
  }

  predicate ErasesConnection(switched: bool, p: ConnectionPatch, x: ConnectionMessage) {
    match p
    case NoConnection => switched && x.payload.Some?
    case ReqPatch(again, t) => Erased(switched || again, t, [], RequestOf(x).ticket)
    case ResPatch(again, b) => Erased(switched || again, b, false, ResponseOf(x).success)
  }

  predicate ErasesCore(switched: bool, p: CorePatch, x: CoreMessage) {
    match p
    case NoCore => switched && x.payload.Some?
    case TimeReqPatch => false
    case TimeResPatch(again, t) => ErasesTimeRes(switched || again, t, TimeResOf(x))
  }

  predicate ErasesText(switched: bool, p: TextPatch, x: TextMessage) {
    if p.None? then switched && x.payload.Some?
    else Erased(switched, p.value, [], Or(x.payload, PLACE0).text)
  }

  predicate ErasesBody(p: BodyPatch, x: RealtimeMessage) {
    match p
    case NoBody => false
    case ConnectionBody(switched, q) => ErasesConnection(switched, q, ConnectionOf(x))
    case CoreBody(switched, q) => ErasesCore(switched, q, CoreOf(x))
    case PresenceBody(switched, q) => ErasesText(switched, q, PresenceOf(x))
    case ActivityBody(switched, q) => ErasesText(switched, q, ActivityOf(x))
    case ModelBody(switched, q) => ErasesText(switched, q, ModelOf(x))
  }

  /** The second part resets to its default something that the first part has set. */
  predicate Erases(p: Patch, x: RealtimeMessage) {
    (p.header.Some? && ErasesHeader(p.header.value, Or(x.header, HEADER0))) || ErasesBody(p.body, x)
  }

  lemma ConnectionMerges(switched: bool, p: ConnectionPatch, x: ConnectionMessage)
    ensures ApplyConnection(p, Under(switched, CONNECTION0, x)) == MergeConnection(x, ApplyConnection(p, CONNECTION0))
            <==> !ErasesConnection(switched, p, x)
  {
  }

  lemma CoreMerges(switched: bool, p: CorePatch, x: CoreMessage)
    ensures ApplyCore(p, Under(switched, CORE0, x)) == MergeCore(x, ApplyCore(p, CORE0))
            <==> !ErasesCore(switched, p, x)
  {
  }

  lemma TextMerges(switched: bool, p: TextPatch, x: TextMessage)
    ensures ApplyText(p, Under(switched, TEXT0, x)) == MergeTextMessage(x, ApplyText(p, TEXT0))
            <==> !ErasesText(switched, p, x)
  {
  }

  lemma BodyMerges(p: BodyPatch, x: RealtimeMessage)
    requires !p.NoBody?
    ensures ApplyBody(p, REALTIME0).Some?
    ensures ApplyBody(p, x) == Some(MergeBody(x, ApplyBody(p, REALTIME0).value)) <==> !ErasesBody(p, x)
  {
    hide ApplyConnection, ApplyCore, ApplyText, MergeConnection, MergeCore, MergeTextMessage,
      ErasesConnection, ErasesCore, ErasesText;
    match p
    case ConnectionBody(switched, q) => ConnectionMerges(switched, q, ConnectionOf(x));
    case CoreBody(switched, q) => CoreMerges(switched, q, CoreOf(x));
    case PresenceBody(switched, q) => TextMerges(switched, q, PresenceOf(x));
    case ActivityBody(switched, q) => TextMerges(switched, q, ActivityOf(x));
    case ModelBody(switched, q) => TextMerges(switched, q, ModelOf(x));
  }

  lemma MergeBodyIgnoresHeader(x: RealtimeMessage, h: Option<Header>, b: Body)
    ensures MergeBody(x.(header := h), b) == MergeBody(x, b)
  {
  }

  lemma NoBodyErasesNothing(x: RealtimeMessage)
    ensures !ErasesBody(NoBody, x)
  {
  }

  lemma PatchMerges(p: Patch, x: RealtimeMessage)
    ensures Apply(p, x) == Merge(x, Apply(p, REALTIME0)) <==> !Erases(p, x)
  {
    hide MergeBody, ErasesBody;
    var y := Apply(p, REALTIME0);
    if p.body.NoBody? {
      NoBodyErasesNothing(x);
    } else {
      BodyMerges(p.body, x);
      MergeBodyIgnoresHeader(x, MergeOnlyHeader(x, y.header).header, y.body.value);
      hide ApplyBody;
    }
  }

  /**
   Decoding the concatenation of any two decodable byte strings always succeeds, and merges the
   two decoded messages exactly when the second does not erase anything from the first.
   */
  lemma AppendMergesExactly(a: Bytes, b: Bytes)
    requires DecodeRealtime(a).Some? && DecodeRealtime(b).Some?
    ensures ReadPatch(b).Some? && DecodeRealtime(a + b).Some?
    ensures var x, y := DecodeRealtime(a).value, DecodeRealtime(b).value;
            DecodeRealtime(a + b) == Some(Merge(x, y)) <==> !Erases(ReadPatch(b).value, x)
  {
    var x := DecodeRealtime(a).value;
    DecodeConcat(a, b);
    DecodingPatches(x, b);
    DecodingPatches(REALTIME0, b);
    PatchMerges(ReadPatch(b).value, x);
    hide ReadPatch, MergeBytes, Merge, Apply, Erases;
  }

  /** Canonical bytes erase nothing, whatever they are appended to. */
  lemma CanonicalNeverErases(x: RealtimeMessage, y: RealtimeMessage)
    ensures ReadPatch(EncodeRealtime(y)).Some? && !Erases(ReadPatch(EncodeRealtime(y)).value, x)
  {
    hide EncodeRealtime, DecodeRealtime, ReadPatch, Erases, Merge;
    RealtimeRoundTrip(x);
    RealtimeRoundTrip(y);
    AppendMerges(EncodeRealtime(x), y);
    AppendMergesExactly(EncodeRealtime(x), EncodeRealtime(y));
  }

  /** So the law fails for bytes that are not canonical: here an explicit zero erases request id 5. */
  lemma ExplicitZeroErases()
    ensures var a := EncodeRealtime(RealtimeMessage(Some(Header(5, 0)), None));
            var b: Bytes := [0x0a, 0x02, 0x08, 0x00];
            var x, y := RealtimeMessage(Some(Header(5, 0)), None), RealtimeMessage(Some(HEADER0), None);
            && DecodeRealtime(a) == Some(x) && DecodeRealtime(b) == Some(y)
            && DecodeRealtime(a + b) == Some(y)
            && Merge(x, y) == x && x != y
  {
    ZeroRecord();
    var x := RealtimeMessage(Some(Header(5, 0)), None);
    hide ParseFields, EncodeRealtime, StepHeader;
    RealtimeRoundTrip(x);
    DecodeConcat(EncodeRealtime(x), [0x0a, 0x02, 0x08, 0x00]);
    var outer := Field(1, Len([0x08, 0x00]));
    FoldOne(StepRealtime, REALTIME0, outer);
    FoldOne(StepRealtime, x, outer);
  }

  lemma ZeroRecord()
    ensures ParseFields([0x0a, 0x02, 0x08, 0x00]) == Some([Field(1, Len([0x08, 0x00]))])
    ensures MergeBytes(StepHeader, HEADER0, [0x08, 0x00]) == Some(HEADER0)
    ensures MergeBytes(StepHeader, Header(5, 0), [0x08, 0x00]) == Some(HEADER0)
  {
    var inner, outer := Field(1, Varint(0)), Field(1, Len([0x08, 0x00]));
    assert EmitFields([inner]) == [0x08, 0x00] by { assert [inner][1..] == []; }
    assert EmitFields([outer]) == [0x0a, 0x02, 0x08, 0x00] by { assert [outer][1..] == []; }
    ParseEmitted([inner]);
    ParseEmitted([outer]);
    FoldOne(StepHeader, HEADER0, inner);
    FoldOne(StepHeader, Header(5, 0), inner);
  }

  /** And for a second part that switches the body away and back: the first part's body is lost. */
  lemma SwitchedBodyIsLost(ticket: Text)
    requires ticket != []
    ensures var x := RealtimeMessage(None, Some(ConnectionMsg(ConnectionMessage(Some(HandshakeReq(HandshakeRequest(ticket)))))));
            var away := RealtimeMessage(None, Some(CoreMsg(CORE0)));
            var back := RealtimeMessage(None, Some(ConnectionMsg(ConnectionMessage(Some(HandshakeReq(REQUEST0))))));
            var b := EncodeRealtime(away) + EncodeRealtime(back);
            && DecodeRealtime(b) == Some(back)
            && DecodeRealtime(EncodeRealtime(x) + b) == Some(back)
            && Merge(x, back) == x && x != back
  {
    hide EncodeRealtime, DecodeRealtime;
    var x := RealtimeMessage(None, Some(ConnectionMsg(ConnectionMessage(Some(HandshakeReq(HandshakeRequest(ticket)))))));
    var away := RealtimeMessage(None, Some(CoreMsg(CORE0)));
    var back := RealtimeMessage(None, Some(ConnectionMsg(ConnectionMessage(Some(HandshakeReq(REQUEST0))))));
    RealtimeRoundTrip(x);
    RealtimeRoundTrip(away);
    AppendMerges(EncodeRealtime(away), back);
    AppendMerges(EncodeRealtime(x), away);
    AppendMerges(EncodeRealtime(x) + EncodeRealtime(away), back);
    assert EncodeRealtime(x) + (EncodeRealtime(away) + EncodeRealtime(back))
        == (EncodeRealtime(x) + EncodeRealtime(away)) + EncodeRealtime(back);
  }
}
