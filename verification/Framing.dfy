/**
 Framing of service payloads on the socket: a payload is decoded, put in the body of a
 RealtimeMessage with the request or response id in its header, and encoded again; received
 bytes are classified by their header. Both peers use the same functions.
 */
module Framing {
  import opened Base
  import opened Wire
  import opened Messages

  datatype RealtimeService = Undefined | Connection | Core | Presence | Activity | Model

  datatype ProtoMessage =
    | NoMessage
    | Tell(service: RealtimeService, bytes: Bytes)
    | Request(id: u32, service: RealtimeService, bytes: Bytes)
    | Response(id: u32, service: RealtimeService, bytes: Bytes)

  // -------------------------------------------------------------- functions

  function ServiceOf(b: Body): RealtimeService {
    match b
    case ConnectionMsg(_) => Connection
    case CoreMsg(_) => Core
    case PresenceMsg(_) => Presence
    case ActivityMsg(_) => Activity
    case ModelMsg(_) => Model
  }

  /** The service payload on its own, without header or body field. */
  function EncodeService(b: Body): Bytes {
    match b
    case ConnectionMsg(m) => EncodeConnection(m)
    case CoreMsg(m) => EncodeCore(m)
    case PresenceMsg(m) => EncodeText(m)
    case ActivityMsg(m) => EncodeText(m)
    case ModelMsg(m) => EncodeText(m)
  }

  /** Only the connection and core services can be framed. */
  function BodyFor(service: RealtimeService, payload: Bytes): Option<Body> {
    match service
    case Connection =>
      (match DecodeConnection(payload) case None => None case Some(m) => Some(ConnectionMsg(m)))
    case Core =>
      (match DecodeCore(payload) case None => None case Some(m) => Some(CoreMsg(m)))
    case _ => None
  }

  function Frame(header: Option<Header>, service: RealtimeService, payload: Bytes): Option<Bytes> {
    match BodyFor(service, payload)
    case None => None
    case Some(b) => Some(EncodeRealtime(RealtimeMessage(header, Some(b))))
  }

  function CreateTell(service: RealtimeService, payload: Bytes): Option<Bytes> {
    Frame(None, service, payload)
  }

  function CreateRequest(id: u32, service: RealtimeService, payload: Bytes): Option<Bytes> {
    Frame(Some(Header(id, 0)), service, payload)
  }

  function CreateResponse(id: u32, service: RealtimeService, payload: Bytes): Option<Bytes> {
    Frame(Some(Header(0, id)), service, payload)
  }

  function ProcessHeader(m: RealtimeMessage): ProtoMessage {
    if m.header.None? || m.body.None? then NoMessage
    else
      var h, b := m.header.value, m.body.value;
      if h.requestId != 0 && h.responseId != 0 then NoMessage
      else if h.requestId != 0 then Request(h.requestId, ServiceOf(b), EncodeService(b))
      else if h.responseId != 0 then Response(h.responseId, ServiceOf(b), EncodeService(b))
      else Tell(ServiceOf(b), EncodeService(b))
  }

  function Process(bs: Bytes): ProtoMessage {
    match DecodeRealtime(bs)
    case None => NoMessage
    case Some(m) => ProcessHeader(m)
  }

  /** A payload as its receiver sees it: decoded and encoded again on the way. */
  function Canon(service: RealtimeService, payload: Bytes): Bytes {
    match BodyFor(service, payload)
    case None => payload
    case Some(b) => EncodeService(b)
  }

  /** Receiving bytes and framing what they carry once more, as a relay would. */
  function Hop(bs: Bytes): Option<Bytes> {
    match Process(bs)
    case NoMessage => None
    case Tell(service, payload) => CreateTell(service, payload)
    case Request(id, service, payload) => CreateRequest(id, service, payload)
    case Response(id, service, payload) => CreateResponse(id, service, payload)
  }

  function Hops(n: nat, bs: Bytes): Option<Bytes> {
    if n == 0 then Some(bs)
    else match Hop(bs) case None => None case Some(next) => Hops(n - 1, next)
  }

  // ------------------------------------------------------------- round trip

  /** A framed payload arrives as the message its header announces; id 0 announces a tell. */
  lemma ProcessFramed(header: Option<Header>, service: RealtimeService, payload: Bytes)
    requires Frame(header, service, payload).Some?
    ensures var got := Process(Frame(header, service, payload).value);
            var c := Canon(service, payload);
            got == match header
                   case None => NoMessage
                   case Some(Header(req, res)) =>
                     if req != 0 && res != 0 then NoMessage
                     else if req != 0 then Request(req, service, c)
                     else if res != 0 then Response(res, service, c)
                     else Tell(service, c)
  {
    RealtimeRoundTrip(RealtimeMessage(header, Some(BodyFor(service, payload).value)));
  }

  /** Requests: exact on every id, service and payload, including those that cannot be framed. */
  lemma RequestRoundTrip(id: u32, service: RealtimeService, payload: Bytes)
    ensures CreateRequest(id, service, payload).Some? <==>
              || (service == Connection && DecodeConnection(payload).Some?)
              || (service == Core && DecodeCore(payload).Some?)
    ensures CreateRequest(id, service, payload).Some? ==>
              Process(CreateRequest(id, service, payload).value) ==
              if id == 0 then Tell(service, Canon(service, payload)) else Request(id, service, Canon(service, payload))
  {
    if CreateRequest(id, service, payload).Some? {
      ProcessFramed(Some(Header(id, 0)), service, payload);
    }
  }

  lemma ResponseRoundTrip(id: u32, service: RealtimeService, payload: Bytes)
    ensures CreateResponse(id, service, payload).Some? <==>
              || (service == Connection && DecodeConnection(payload).Some?)
              || (service == Core && DecodeCore(payload).Some?)
    ensures CreateResponse(id, service, payload).Some? ==>
              Process(CreateResponse(id, service, payload).value) ==
              if id == 0 then Tell(service, Canon(service, payload)) else Response(id, service, Canon(service, payload))
  {
    if CreateResponse(id, service, payload).Some? {
      ProcessFramed(Some(Header(0, id)), service, payload);
    }
  }

  /** A request with a body of any of the five schemas arrives at its own service, which decodes the same message. */
  lemma AnyBodyArrives(id: u32, b: Body)
    requires id != 0
    ensures var got := Process(EncodeRealtime(RealtimeMessage(Some(Header(id, 0)), Some(b))));
            && got.Request? && got.id == id
            && match b
               case ConnectionMsg(m) => got.service == Connection && DecodeConnection(got.bytes) == Some(m)
               case CoreMsg(m) => got.service == Core && DecodeCore(got.bytes) == Some(m)
               case PresenceMsg(m) => got.service == Presence && DecodeText(got.bytes) == Some(m)
               case ActivityMsg(m) => got.service == Activity && DecodeText(got.bytes) == Some(m)
               case ModelMsg(m) => got.service == Model && DecodeText(got.bytes) == Some(m)
  {
    hide EncodeRealtime, DecodeRealtime, MergeBytes;
    RealtimeRoundTrip(RealtimeMessage(Some(Header(id, 0)), Some(b)));
    match b
    case ConnectionMsg(m) => ConnectionRoundTrip(m);
    case CoreMsg(m) => CoreRoundTrip(m);
    case PresenceMsg(m) => TextRoundTrip(m);
    case ActivityMsg(m) => TextRoundTrip(m);
    case ModelMsg(m) => TextRoundTrip(m);
  }

  /** A tell can be created for the same payloads as a request; it carries no header, so its receiver discards it. */
  lemma TellIsDiscarded(service: RealtimeService, payload: Bytes)
    ensures CreateTell(service, payload).Some? <==>
              || (service == Connection && DecodeConnection(payload).Some?)
              || (service == Core && DecodeCore(payload).Some?)
    ensures CreateTell(service, payload).Some? ==> Process(CreateTell(service, payload).value) == NoMessage
  {
    if CreateTell(service, payload).Some? {
      ProcessFramed(None, service, payload);
    }
  }

  /** No bytes whatsoever are classified as a request or response with id 0. */
  lemma IdsAreNonzero(bs: Bytes)
    ensures Process(bs).Request? || Process(bs).Response? ==> Process(bs).id != 0
  {
  }

  lemma BodyForEncoded(b: Body)
    requires ServiceOf(b) == Connection || ServiceOf(b) == Core
    ensures BodyFor(ServiceOf(b), EncodeService(b)) == Some(b)
  {
    match b
    case ConnectionMsg(m) => ConnectionRoundTrip(m);
    case CoreMsg(m) => CoreRoundTrip(m);
  }

  /** The receiver's view of a payload is a fixed point, and frames to the same bytes. */
  lemma CanonIsStable(id: u32, service: RealtimeService, payload: Bytes)
    ensures Canon(service, Canon(service, payload)) == Canon(service, payload)
    ensures CreateRequest(id, service, Canon(service, payload)) == CreateRequest(id, service, payload)
    ensures CreateResponse(id, service, Canon(service, payload)) == CreateResponse(id, service, payload)
  {
    hide EncodeRealtime, DecodeConnection, DecodeCore, EncodeService;
    if BodyFor(service, payload).Some? {
      BodyForEncoded(BodyFor(service, payload).value);
    }
  }

  /** Whatever bytes arrive, forwarding them once normalises them and forwarding again changes nothing. */
  lemma HopIsIdempotent(bs: Bytes)
    requires Hop(bs).Some? && !Process(bs).Tell?
    ensures Hop(Hop(bs).value) == Hop(bs)
    ensures Process(Hop(bs).value) == Process(bs)
  {
    BodyForEncoded(DecodeRealtime(bs).value.body.value);
    hide DecodeRealtime, EncodeRealtime, DecodeConnection, DecodeCore, EncodeService;
    match Process(bs)
    case Request(id, service, payload) => RequestRoundTrip(id, service, payload);
    case Response(id, service, payload) => ResponseRoundTrip(id, service, payload);
  }

  /** A created request or response with a nonzero id passes any number of hops byte for byte. */
  lemma {:induction false} HopsKeepBytes(n: nat, bs: Bytes, id: u32, service: RealtimeService, payload: Bytes)
    requires id != 0
    requires CreateRequest(id, service, payload) == Some(bs) || CreateResponse(id, service, payload) == Some(bs)
    ensures Hops(n, bs) == Some(bs)
  {
    hide Process, Canon, CreateRequest, CreateResponse, CreateTell;
    if n > 0 {
      RequestRoundTrip(id, service, payload);
      ResponseRoundTrip(id, service, payload);
      CanonIsStable(id, service, payload);
      HopsKeepBytes(n - 1, bs, id, service, payload);
    }
  }

  /** Appending an encoded header to a created tell makes it the request the header announces. */
  lemma AppendedHeaderFrames(id: u32, service: RealtimeService, payload: Bytes)
    requires id != 0 && CreateTell(service, payload).Some?
    ensures var header := EncodeRealtime(RealtimeMessage(Some(Header(id, 0)), None));
            Process(CreateTell(service, payload).value + header) == Request(id, service, Canon(service, payload))
  {
    var b := BodyFor(service, payload).value;
    RealtimeRoundTrip(RealtimeMessage(None, Some(b)));
    AppendMerges(CreateTell(service, payload).value, RealtimeMessage(Some(Header(id, 0)), None));
  }

  // ---------------------------------------------------------- no cross-talk

  /** The fields of a service payload, sent without a frame. */
  function ServiceFields(b: Body): seq<Field> {
    match b
    case ConnectionMsg(m) => ConnectionFields(m)
    case CoreMsg(m) => CoreFields(m)
    case PresenceMsg(m) => TextFields(m)
    case ActivityMsg(m) => TextFields(m)
    case ModelMsg(m) => TextFields(m)
  }

  lemma ServiceFieldsAreFew(b: Body)
    ensures ValidFields(ServiceFields(b)) && |ServiceFields(b)| <= 1
    ensures EncodeService(b) == EmitFields(ServiceFields(b))
  {
    match b
    case ConnectionMsg(m) => ConnectionLength(m);
    case CoreMsg(m) => CoreLength(m);
    case PresenceMsg(m) => TextLength(m);
    case ActivityMsg(m) => TextLength(m);
    case ModelMsg(m) => TextLength(m);
  }

  lemma OneFieldSetsOnePart(f: Field)
    ensures StepRealtime(REALTIME0, f).Some? ==>
              var m := StepRealtime(REALTIME0, f).value;
              m.header.None? || m.body.None?
  {
  }

  /** The canonical bytes of any message of the five service schemas, sent unframed, are discarded. */
  lemma NoCrossTalk(b: Body)
    ensures Process(EncodeService(b)) == NoMessage
  {
    var fs := ServiceFields(b);
    ServiceFieldsAreFew(b);
    MergeEmitted(StepRealtime, REALTIME0, fs);
    if fs != [] {
      assert fs == [fs[0]];
      FoldOne(StepRealtime, REALTIME0, fs[0]);
      OneFieldSetsOnePart(fs[0]);
    }
  }

  /** Some field has a number in the range. */
  predicate Mentions(fs: seq<Field>, low: nat, high: nat) {
    exists i :: 0 <= i < |fs| && low <= fs[i].number <= high
  }

  lemma MentionsStep(fs: seq<Field>, low: nat, high: nat)
    requires fs != []
    ensures Mentions(fs, low, high) <==> low <= fs[0].number <= high || Mentions(fs[1..], low, high)
  {
    if Mentions(fs, low, high) && !(low <= fs[0].number <= high) {
      var i :| 0 <= i < |fs| && low <= fs[i].number <= high;
      assert fs[1..][i - 1] == fs[i];
    }
    if Mentions(fs[1..], low, high) {
      var i :| 0 <= i < |fs[1..]| && low <= fs[1..][i].number <= high;
      assert fs[i + 1] == fs[1..][i];
    }
  }

  /** A part of the message is present exactly if some field mentions it; none is ever removed. */
  lemma {:induction false} PartsPresent(m: RealtimeMessage, fs: seq<Field>)
    requires Fold(StepRealtime, m, fs).Some?
    ensures var r := Fold(StepRealtime, m, fs).value;
            && (r.header.Some? <==> m.header.Some? || Mentions(fs, 1, 1))
            && (r.body.Some? <==> m.body.Some? || Mentions(fs, 2, 6))
    decreases |fs|
  {
    if fs != [] {
      var next := StepRealtime(m, fs[0]).value;
      assert (next.header.Some? <==> m.header.Some? || fs[0].number == 1)
          && (next.body.Some? <==> m.body.Some? || 2 <= fs[0].number <= 6);
      hide StepRealtime;
      MentionsStep(fs, 1, 1);
      MentionsStep(fs, 2, 6);
      PartsPresent(next, fs[1..]);
    }
  }

  /**
   What any bytes are taken for, framed or not. They are taken for a message of the protocol
   exactly if they decode, some top-level field is a header and some is a body, and the header
   does not have both ids; the ids then say which kind of message.
   */
  lemma ClassifiedExactly(bs: Bytes)
    ensures DecodeRealtime(bs).None? ==> Process(bs) == NoMessage
    ensures DecodeRealtime(bs).Some? ==>
              var fs, h := ParseFields(bs).value, Or(DecodeRealtime(bs).value.header, HEADER0);
              var framed := Mentions(fs, 1, 1) && Mentions(fs, 2, 6);
              && (Process(bs).NoMessage? <==> !framed || (h.requestId != 0 && h.responseId != 0))
              && (Process(bs).Request? <==> framed && h.requestId != 0 && h.responseId == 0)
              && (Process(bs).Response? <==> framed && h.requestId == 0 && h.responseId != 0)
              && (Process(bs).Tell? <==> framed && h.requestId == 0 && h.responseId == 0)
  {
    hide ParseFields, StepRealtime, EncodeService, Mentions;
    if DecodeRealtime(bs).Some? { PartsPresent(REALTIME0, ParseFields(bs).value); }
  }

  /** Bytes that are not canonical can do more: these decode as a core message and yet start request 5. */
  lemma CrossTalkOfNonCanonicalBytes()
    ensures var bs: Bytes := [0x0a, 0x02, 0x08, 0x05, 0x12, 0x00];
            && DecodeCore(bs) == Some(CoreMessage(Some(ServerTimeRes(TIME_RES0))))
            && Process(bs) == Request(5, Connection, [])
  {
    var inner := [Field(1, Varint(5))];
    var fs := [Field(1, Len([0x08, 0x05])), Field(2, Len([]))];
    assert EmitFields(inner) == [0x08, 0x05] by { assert inner[1..] == []; }
    assert EmitFields(fs) == [0x0a, 0x02, 0x08, 0x05, 0x12, 0x00] by {
      assert fs[1..] == [Field(2, Len([]))];
      assert fs[1..][1..] == [];
      assert EmitField(fs[0]) == [0x0a, 0x02, 0x08, 0x05];
      assert EmitField(fs[1]) == [0x12, 0x00];
    }
    ParseEmitted(inner);
    ParseEmitted(fs);
    assert fs == [fs[0]] + [fs[1]];
    FoldAppend(StepCore, CORE0, [fs[0]], [fs[1]]);
    FoldAppend(StepRealtime, REALTIME0, [fs[0]], [fs[1]]);
    FoldOne(StepHeader, HEADER0, inner[0]);
    FoldOne(StepTimeReq, ServerTimeRequest, inner[0]);
    FoldOne(StepCore, CORE0, fs[0]);
    FoldOne(StepRealtime, REALTIME0, fs[0]);
    FoldOne(StepCore, CoreMessage(Some(ServerTimeReq(ServerTimeRequest))), fs[1]);
    FoldOne(StepRealtime, RealtimeMessage(Some(Header(5, 0)), None), fs[1]);
  }
}
