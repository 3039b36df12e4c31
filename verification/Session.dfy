/**
 One connected client: the server's connection actor and the client's broker, the queue in
 each direction, and every interleaving of their steps. The client's broker keeps its counter
 borrowed while a call waits for its response, so a second call before the first has returned
 panics; calls are not cancelled. The connection service answers a ticket handshake with the
 verdict its ticket check gives at that moment; other services answer as they like.
 */
module Session {
  import opened Base
  import opened Wire
  import opened Messages
  import opened Framing
  import opened Peers

  datatype Side = Server | Client

  datatype Judgement = Judgement(ticket: Text, valid: bool)

  datatype State = State(
    server: Peer,
    client: Peer,
    awaiting: Option<nat>,              // the client call holding the counter's borrow
    returned: map<nat, Option<Bytes>>,  // what each finished client call returned
    panicked: bool,
    judged: map<nat, Judgement>)        // the connection service's ticket check for each client call

  const INIT := State(NewPeer(0), NewPeer(1), None, map[], false, map[])

  datatype Step =
    | AskSend(side: Side, service: RealtimeService, payload: Bytes, ok: bool)
    | AskInsert(side: Side)
    | Deliver(side: Side)
    | Answer(side: Side, task: nat, answer: Option<Bytes>)
    | Judge(task: nat, valid: bool)
    | TellUnframed(bytes: Bytes)
    | TellFramed(service: RealtimeService, payload: Bytes)
    | SendText(side: Side, text: Bytes)
    | Return

  // -------------------------------------------------------------- handshake

  function HandshakePayload(ticket: Text): Bytes {
    EncodeConnection(ConnectionMessage(Some(HandshakeReq(HandshakeRequest(ticket)))))
  }

  function HandshakeReply(valid: bool): Bytes {
    EncodeConnection(ConnectionMessage(Some(HandshakeRes(HandshakeResponse(valid)))))
  }

  /** The ticket in a payload given to the connection service, if it is a handshake request. */
  function TicketIn(bytes: Bytes): Option<Text> {
    match DecodeConnection(bytes)
    case Some(ConnectionMessage(Some(HandshakeReq(r)))) => Some(r.ticket)
    case _ => None
  }

  /** What the client's handshake call makes of the response to its request. */
  function HandshakeOutcome(response: Option<Bytes>): bool {
    if response.None? then false
    else
      match DecodeConnection(response.value)
      case Some(ConnectionMessage(Some(HandshakeRes(r)))) => r.success
      case _ => false
  }

  // ------------------------------------------------------------------ steps

  function PeerOf(s: State, side: Side): Peer { if side.Server? then s.server else s.client }
  function Other(side: Side): Side { if side.Server? then Client else Server }

  function WithPeer(s: State, side: Side, p: Peer): State {
    if side.Server? then s.(server := p) else s.(client := p)
  }

  /** A peer in the middle of an ask handles nothing else; a panicked client does nothing. */
  predicate Ready(s: State, side: Side) {
    PeerOf(s, side).asking.inserting.None? && (side.Client? ==> !s.panicked)
  }

  predicate Enabled(s: State, l: Step) {
    match l
    case AskSend(side, _, _, _) => Ready(s, side)
    case AskInsert(side) => PeerOf(s, side).asking.inserting.Some?
    case Deliver(side) => Ready(s, side) && PeerOf(s, Other(side)).out != []
    case Answer(side, i, _) =>
      && i < |PeerOf(s, side).answering.tasks|
      && (side.Client? ==> Ready(s, side))
      && (side.Server? ==> s.server.answering.tasks[i].service != Connection)
    case Judge(i, _) => i < |s.server.answering.tasks| && s.server.answering.tasks[i].service == Connection
    case TellUnframed(bytes) => Ready(s, Server) && !IsRequest(Binary(bytes)) && !IsResponse(Binary(bytes))
    case TellFramed(_, _) => Ready(s, Client)
    case SendText(side, _) => Ready(s, side)
    case Return => Ready(s, Client) && s.awaiting.Some? && s.awaiting.value in s.client.asking.results
  }

  /** A message that belongs to no ask. */
  function Push(p: Peer, m: SocketMessage): Peer { p.(out := p.out + [Packet(m, 0)]) }

  function DoAsk(p: Peer, service: RealtimeService, payload: Bytes, ok: bool): Peer {
    var (a, ms) := Send(p.asking, service, payload, ok);
    Peer(a, p.answering, p.out + ms)
  }

  function DoAnswer(p: Peer, i: nat, answer: Option<Bytes>): Peer
    requires i < |p.answering.tasks|
  {
    var (b, ms) := Finish(p.answering, i, answer);
    Peer(p.asking, b, p.out + ms)
  }

  /** A client call either waits with the borrow held, or returns nothing at once. */
  function ClientAsk(s: State, service: RealtimeService, payload: Bytes, ok: bool): State {
    if s.awaiting.Some? then s.(panicked := true)
    else
      var p := DoAsk(s.client, service, payload, ok);
      var call := |s.client.asking.asks|;
      if p.asking.inserting.Some? then s.(client := p, awaiting := Some(call))
      else s.(client := p, returned := s.returned[call := None])
  }

  function JudgeTask(s: State, i: nat, valid: bool): State
    requires i < |s.server.answering.tasks|
  {
    var t := s.server.answering.tasks[i];
    match TicketIn(t.bytes)
    case None => s.(server := DoAnswer(s.server, i, None))
    case Some(ticket) =>
      s.(server := DoAnswer(s.server, i, Some(HandshakeReply(valid))),
         judged := s.judged[t.ask := Judgement(ticket, valid)])
  }

  function Next(s: State, l: Step): State {
    if !Enabled(s, l) then s
    else
      match l
      case AskSend(Server, service, payload, ok) => s.(server := DoAsk(s.server, service, payload, ok))
      case AskSend(Client, service, payload, ok) => ClientAsk(s, service, payload, ok)
      case AskInsert(side) =>
        var p := PeerOf(s, side);
        WithPeer(s, side, p.(asking := Insert(p.asking)))
      case Deliver(side) =>
        var q := PeerOf(s, Other(side));
        WithPeer(WithPeer(s, side, Receive(PeerOf(s, side), q.out[0])), Other(side), q.(out := q.out[1..]))
      case Answer(side, i, answer) => WithPeer(s, side, DoAnswer(PeerOf(s, side), i, answer))
      case Judge(i, valid) => JudgeTask(s, i, valid)
      case TellUnframed(bytes) => s.(server := Push(s.server, Binary(bytes)))
      case TellFramed(service, payload) =>
        (match CreateTell(service, payload)
         case None => s
         case Some(bs) => s.(client := Push(s.client, Binary(bs))))
      case SendText(side, text) => WithPeer(s, side, Push(PeerOf(s, side), Text(text)))
      case Return =>
        var call := s.awaiting.value;
        s.(awaiting := None, returned := s.returned[call := Some(s.client.asking.results[call].bytes)])
  }

  function Run(s: State, ls: seq<Step>): State
    decreases ls
  {
    if ls == [] then s else Run(Next(s, ls[0]), ls[1..])
  }

  // ------------------------------------------------------------- invariants

  ghost predicate Facing(p: Peer, q: Peer) {
    OneWay(p.asking, p.out, q.answering, q.out)
  }

  /** Every call but the one that waits has returned: with its result if its request was sent, else with nothing. */
  predicate CallHeld(a: Asking, awaiting: Option<nat>, returned: map<nat, Option<Bytes>>, call: nat) {
    && (call in a.results ==> call < |a.asks|)
    && (call in returned <==> call < |a.asks| && awaiting != Some(call))
    && (call in returned ==>
          if a.asks[call].sent then call in a.results && returned[call] == Some(a.results[call].bytes)
          else returned[call] == None)
  }

  /** The call that waits is the latest ask, and every pending promise belongs to it. So none is ever replaced. */
  ghost predicate Borrowed(a: Asking, awaiting: Option<nat>, returned: map<nat, Option<Bytes>>) {
    && (forall id :: id in a.promises ==> awaiting == Some(a.promises[id]) && a.promises[id] !in a.results)
    && (a.inserting.Some? ==> awaiting == a.inserting && a.inserting.value !in a.results && a.promises == map[])
    && (awaiting.Some? ==> awaiting.value == |a.asks| - 1 && a.asks[awaiting.value].sent)
    && !a.replaced
    && (forall call: nat :: CallHeld(a, awaiting, returned, call))
  }

  ghost predicate BorrowHeld(s: State) { Borrowed(s.client.asking, s.awaiting, s.returned) }

  ghost predicate Inv(s: State) {
    && Numbered(s.server.asking) && Numbered(s.client.asking)
    && s.server.asking.first == 0 && s.client.asking.first == 1
    && Facing(s.server, s.client) && Facing(s.client, s.server)
    && BorrowHeld(s)
  }

  // ------------------------------------------------ preservation, peer by peer

  lemma AskFacing(p: Peer, q: Peer, service: RealtimeService, payload: Bytes, ok: bool)
    requires Facing(p, q) && Facing(q, p) && Numbered(p.asking) && p.asking.inserting.None?
    ensures var p' := DoAsk(p, service, payload, ok);
            Facing(p', q) && Facing(q, p') && Numbered(p'.asking)
  {
    hide Process, Canon, CreateRequest, OneWay;
    SendNumbers(p.asking, service, payload, ok);
    SendKeeps(p.asking, p.out, q.answering, q.out, service, payload, ok);
    var (a, ms) := Send(p.asking, service, payload, ok);
    if ms == [] {
      assert p.out + ms == p.out;
    } else {
      SentRequest((p.asking.first + p.asking.counter) % U32, service, payload);
      PushBesideResponses(q.asking, q.out, p.answering, p.out, ms[0]);
    }
  }

  lemma InsertFacing(p: Peer, q: Peer)
    requires Facing(p, q) && Facing(q, p) && Numbered(p.asking)
    ensures var p' := p.(asking := Insert(p.asking));
            Facing(p', q) && Facing(q, p') && Numbered(p'.asking)
  {
    hide OneWay, Numbered;
    InsertNumbers(p.asking);
    InsertKeeps(p.asking, p.out, q.answering, q.out);
  }

  lemma ReceiveFacing(p: Peer, q: Peer)
    requires Facing(p, q) && Facing(q, p) && Numbered(p.asking) && p.asking.inserting.None? && q.out != []
    ensures var p' := Receive(p, q.out[0]); var q' := q.(out := q.out[1..]);
            Facing(p', q') && Facing(q', p') && Numbered(p'.asking)
  {
    hide Process, OneWay;
    TakeResponseKeeps(p.asking, p.out, q.answering, q.out);
    TakeRequestKeeps(q.asking, q.out, p.answering, p.out);
  }

  lemma AnswerFacing(p: Peer, q: Peer, i: nat, answer: Option<Bytes>)
    requires Facing(p, q) && Facing(q, p) && i < |p.answering.tasks|
    ensures var p' := DoAnswer(p, i, answer); Facing(p', q) && Facing(q, p')
  {
    hide Process, Canon, CreateResponse, OneWay;
    var (b, ms) := Finish(p.answering, i, answer);
    FinishKeeps(q.asking, q.out, p.answering, p.out, i, answer);
    if ms == [] {
      assert p.out + ms == p.out;
    } else {
      ResponseRoundTrip(p.answering.tasks[i].id, p.answering.tasks[i].service, answer.value);
      PushBesideRequests(p.asking, p.out, q.answering, q.out, ms[0]);
    }
  }

  lemma PushFacing(p: Peer, q: Peer, m: SocketMessage)
    requires Facing(p, q) && Facing(q, p) && !IsRequest(m) && !IsResponse(m)
    ensures Facing(Push(p, m), q) && Facing(q, Push(p, m))
  {
    hide Process, OneWay;
    PushBesideRequests(p.asking, p.out, q.answering, q.out, Packet(m, 0));
    PushBesideResponses(q.asking, q.out, p.answering, p.out, Packet(m, 0));
  }

  // ------------------------------------------------- preservation, step by step

  lemma StepAskSend(s: State, side: Side, service: RealtimeService, payload: Bytes, ok: bool)
    requires Inv(s) && Ready(s, side)
    ensures Inv(Next(s, AskSend(side, service, payload, ok)))
  {
    hide Process, CreateRequest, Facing, Numbered, BorrowHeld;
    AskKeepsBorrow(s, side, service, payload, ok);
    if side.Server? {
      AskFacing(s.server, s.client, service, payload, ok);
    } else if s.awaiting.None? {
      AskFacing(s.client, s.server, service, payload, ok);
    }
  }

  lemma AskKeepsBorrow(s: State, side: Side, service: RealtimeService, payload: Bytes, ok: bool)
    requires BorrowHeld(s) && Numbered(s.client.asking) && Ready(s, side)
    ensures BorrowHeld(Next(s, AskSend(side, service, payload, ok)))
  {
    hide Process, CreateRequest, Numbered, Send;
    if side.Client? && s.awaiting.None? {
      var a, s' := s.client.asking, Next(s, AskSend(side, service, payload, ok));
      SendExtends(a, service, payload, ok);
      assert a.promises == map[];
      assert CallHeld(a, s.awaiting, s.returned, |a.asks|);
      forall call: nat ensures CallHeld(s'.client.asking, s'.awaiting, s'.returned, call) {
        assert CallHeld(a, s.awaiting, s.returned, call);
      }
    }
  }

  lemma StepAskInsert(s: State, side: Side)
    requires Inv(s) && Enabled(s, AskInsert(side))
    ensures Inv(Next(s, AskInsert(side)))
  {
    hide Facing, Numbered, BorrowHeld;
    InsertFacing(PeerOf(s, side), PeerOf(s, Other(side)));
    InsertKeepsBorrow(s, side);
  }

  lemma InsertKeepsBorrow(s: State, side: Side)
    requires BorrowHeld(s) && Enabled(s, AskInsert(side))
    ensures BorrowHeld(Next(s, AskInsert(side)))
  {
    if side.Client? {
      var s' := Next(s, AskInsert(side));
      forall call: nat ensures CallHeld(s'.client.asking, s'.awaiting, s'.returned, call) {
        assert CallHeld(s.client.asking, s.awaiting, s.returned, call);
      }
    }
  }

  lemma StepDeliver(s: State, side: Side)
    requires Inv(s) && Enabled(s, Deliver(side))
    ensures Inv(Next(s, Deliver(side)))
  {
    hide Process, Facing, Numbered, BorrowHeld;
    ReceiveFacing(PeerOf(s, side), PeerOf(s, Other(side)));
    DeliverKeepsBorrow(s, side);
  }

  lemma DeliverKeepsBorrow(s: State, side: Side)
    requires BorrowHeld(s) && Numbered(s.client.asking) && Enabled(s, Deliver(side))
    ensures BorrowHeld(Next(s, Deliver(side)))
  {
    hide Process;
    if side.Client? {
      var s' := Next(s, Deliver(side));
      forall call: nat ensures CallHeld(s'.client.asking, s'.awaiting, s'.returned, call) {
        assert CallHeld(s.client.asking, s.awaiting, s.returned, call);
      }
    }
  }

  lemma StepAnswer(s: State, side: Side, i: nat, answer: Option<Bytes>)
    requires Inv(s) && Enabled(s, Answer(side, i, answer))
    ensures Inv(Next(s, Answer(side, i, answer)))
  {
    hide Process, CreateResponse, TicketIn, HandshakeReply, Facing;
    AnswerFacing(PeerOf(s, side), PeerOf(s, Other(side)), i, answer);
  }

  lemma StepJudge(s: State, i: nat, valid: bool)
    requires Inv(s) && Enabled(s, Judge(i, valid))
    ensures Inv(Next(s, Judge(i, valid)))
  {
    hide Process, CreateResponse, TicketIn, HandshakeReply, Facing;
    var t := s.server.answering.tasks[i];
    AnswerFacing(s.server, s.client, i, if TicketIn(t.bytes).None? then None else Some(HandshakeReply(valid)));
  }

  lemma StepPush(s: State, side: Side, m: SocketMessage)
    requires Inv(s) && !IsRequest(m) && !IsResponse(m)
    ensures Inv(WithPeer(s, side, Push(PeerOf(s, side), m)))
  {
    hide Process, TicketIn, HandshakeReply, Facing;
    PushFacing(PeerOf(s, side), PeerOf(s, Other(side)), m);
  }

  lemma StepReturn(s: State)
    requires Inv(s) && Enabled(s, Return)
    ensures Inv(Next(s, Return))
  {
    hide Process, TicketIn, HandshakeReply, Facing;
    ReturnReleases(s);
  }

  /** When a call returns its promise is gone, so releasing the borrow leaves none behind. */
  lemma ReturnReleases(s: State)
    requires Inv(s) && Enabled(s, Return)
    ensures BorrowHeld(Next(s, Return))
  {
    hide Process, TicketIn, HandshakeReply, Facing;
    var s' := Next(s, Return);
    forall call: nat ensures CallHeld(s'.client.asking, s'.awaiting, s'.returned, call) {
      assert CallHeld(s.client.asking, s.awaiting, s.returned, call);
    }
  }

  lemma StepTells(s: State, l: Step)
    requires Inv(s) && Enabled(s, l) && (l.TellUnframed? || l.TellFramed? || l.SendText?)
    ensures Inv(Next(s, l))
  {
    hide Process, CreateTell, Inv;
    match l
    case TellUnframed(bytes) =>
      StepPush(s, Server, Binary(bytes));
    case TellFramed(service, payload) =>
      if CreateTell(service, payload).Some? {
        TellIsDiscarded(service, payload);
        StepPush(s, Client, Binary(CreateTell(service, payload).value));
      }
    case SendText(side, text) =>
      StepPush(s, side, Text(text));
  }

  lemma NextKeepsInv(s: State, l: Step)
    requires Inv(s)
    ensures Inv(Next(s, l))
  {
    hide Inv;
    if Enabled(s, l) {
      match l
      case AskSend(side, service, payload, ok) => StepAskSend(s, side, service, payload, ok);
      case AskInsert(side) => StepAskInsert(s, side);
      case Deliver(side) => StepDeliver(s, side);
      case Answer(side, i, answer) => StepAnswer(s, side, i, answer);
      case Judge(i, valid) => StepJudge(s, i, valid);
      case Return => StepReturn(s);
      case _ => StepTells(s, l);
    }
  }

  lemma {:induction false} RunKeepsInv(s: State, ls: seq<Step>)
    requires Inv(s)
    ensures Inv(Run(s, ls))
    decreases ls
  {
    hide Inv, Next;
    if ls != [] {
      NextKeepsInv(s, ls[0]);
      RunKeepsInv(Next(s, ls[0]), ls[1..]);
    }
  }

  lemma InitInv()
    ensures Inv(INIT)
  {
    hide Process, Canon;
  }
}
