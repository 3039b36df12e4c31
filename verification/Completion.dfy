/**
 Which answers can still arrive, and where. An ask of the server can be completed unless its
 request was declined, went out under id 0 or lost its promise. After ids have wrapped around
 an ask can be completed with the answer to an older one that has the same id: exactly when
 that one is still pending and was not declined.
 */
module Completion {
  import opened Base
  import opened Wire
  import opened Messages
  import opened Framing
  import opened Counting
  import opened Peers
  import opened Session
  import opened SessionTheorems

  /** How far an ask has got: 3 request on the wire, 2 being answered, 1 response on the wire. */
  ghost function Stage(s: State, side: Side, ask: nat): nat {
    if Count(PeerOf(s, side).out, RequestFor(ask)) > 0 then 3
    else if Count(PeerOf(s, Other(side)).answering.tasks, TaskFor(ask)) > 0 then 2
    else 1
  }

  /** The connection service answers nothing but handshakes; everyone else may answer anything. */
  predicate Willing(a: Asking, side: Side, ask: nat) {
    ask < |a.asks| &&
    (side.Client? && a.asks[ask].service == Connection ==> TicketIn(Canon(Connection, a.asks[ask].payload)).Some?)
  }

  /** The response to `ask` has not arrived, and can. */
  ghost predicate Answerable(s: State, side: Side, ask: nat) {
    && Inv(s) && !s.panicked
    && Live(PeerOf(s, side).asking, ask) && Willing(PeerOf(s, side).asking, side, ask)
    && ask !in PeerOf(s, Other(side)).answering.declined && ask !in PeerOf(s, side).asking.arrived
  }

  /** The promise under the id of `ask` is, or is about to be, the one of `target`. */
  predicate Holds(a: Asking, ask: nat, target: nat) {
    var id := IdOf(a, ask);
    if a.inserting.Some? && IdOf(a, a.inserting.value) == id then a.inserting.value == target
    else id in a.promises && a.promises[id] == target
  }

  predicate SameId(a: Asking, b: Answering, ask: nat, other: nat) {
    other in b.answers && other !in a.arrived && IdOf(a, other) == IdOf(a, ask)
  }

  /** No other response with the id of `ask` is on the wire. */
  ghost predicate Sole(a: Asking, b: Answering, ask: nat) {
    forall other: nat :: SameId(a, b, ask, other) ==> other == ask
  }

  ghost predicate Aimed(s: State, side: Side, ask: nat, target: nat) {
    && Answerable(s, side, ask)
    && Holds(PeerOf(s, side).asking, ask, target)
    && Sole(PeerOf(s, side).asking, PeerOf(s, Other(side)).answering, ask)
  }

  predicate Got(s: State, side: Side, ask: nat, target: nat) {
    target in PeerOf(s, side).asking.results && PeerOf(s, side).asking.results[target].ask == ask
  }

  function Inserting(s: State): nat {
    One(s.server.asking.inserting.Some?) + One(s.client.asking.inserting.Some?)
  }

  function Queued(s: State): nat { |s.server.out| + |s.client.out| }

  // ----------------------------------------------------------------- progress

  lemma SoleStays(a: Asking, a': Asking, b: Answering, ask: nat)
    requires Sole(a, b, ask) && a'.first == a.first && a.arrived <= a'.arrived
    ensures Sole(a', b, ask)
  {
    forall other: nat ensures SameId(a', b, ask, other) ==> other == ask {
      assert SameId(a, b, ask, other) ==> other == ask;
    }
  }

  lemma InsertOwn(s: State, side: Side, ask: nat, target: nat)
    requires Aimed(s, side, ask, target) && PeerOf(s, side).asking.inserting.Some?
    ensures var s' := Next(s, AskInsert(side));
            && Aimed(s', side, ask, target) && Inserting(s') < Inserting(s)
            && Stage(s', side, ask) == Stage(s, side, ask) && s'.judged == s.judged
  {
    hide Process, Canon, TicketIn, Inv, Count, Sole;
    NextKeepsInv(s, AskInsert(side));
    var s' := Next(s, AskInsert(side));
    SoleStays(PeerOf(s, side).asking, PeerOf(s', side).asking, PeerOf(s, Other(side)).answering, ask);
  }

  lemma InsertOther(s: State, side: Side, ask: nat, target: nat)
    requires Aimed(s, side, ask, target) && PeerOf(s, Other(side)).asking.inserting.Some?
    ensures var s' := Next(s, AskInsert(Other(side)));
            && Aimed(s', side, ask, target) && Inserting(s') < Inserting(s)
            && Stage(s', side, ask) == Stage(s, side, ask) && s'.judged == s.judged
  {
    hide Process, Canon, TicketIn, Inv, Count, Sole, Holds;
    NextKeepsInv(s, AskInsert(Other(side)));
  }

  lemma DeliverOther(s: State, side: Side, ask: nat, target: nat)
    requires Aimed(s, side, ask, target) && Enabled(s, Deliver(Other(side))) && Stage(s, side, ask) == 3
    ensures var s' := Next(s, Deliver(Other(side)));
            && Aimed(s', side, ask, target) && Inserting(s') == Inserting(s) && Stage(s', side, ask) <= 3
            && Queued(s') < Queued(s) && s'.judged == s.judged
  {
    hide Process, Canon, TicketIn, Inv, Count, Holds, Sole;
    NextKeepsInv(s, Deliver(Other(side)));
    var b, b' := PeerOf(s, Other(side)).answering, PeerOf(Next(s, Deliver(Other(side))), Other(side)).answering;
    assert b'.answers == b.answers;
    SameAnswersSole(PeerOf(s, side).asking, b, b', ask);
  }

  lemma SameAnswersSole(a: Asking, b: Answering, b': Answering, ask: nat)
    requires Sole(a, b, ask) && forall k :: k in b'.answers ==> k in b.answers || k == ask
    ensures Sole(a, b', ask)
  {
    forall other: nat ensures SameId(a, b', ask, other) ==> other == ask {
      assert SameId(a, b, ask, other) ==> other == ask;
    }
  }

  lemma EmptyAnswerIsFramed(id: u32, service: RealtimeService)
    requires Frameable(service)
    ensures CreateResponse(id, service, []).Some?
  {
    assert DecodeConnection([]) == Some(CONNECTION0);
    assert DecodeCore([]) == Some(CORE0);
  }

  lemma TaskIsOwn(s: State, side: Side, i: nat)
    requires Inv(s) && i < |PeerOf(s, Other(side)).answering.tasks|
    ensures var p, q := PeerOf(s, side), PeerOf(s, Other(side)); var t := q.answering.tasks[i];
            && Frameable(t.service) && t.ask !in q.answering.answers && t.ask !in q.answering.declined
            && Count(p.out, RequestFor(t.ask)) == 0 && Count(q.answering.tasks, TaskFor(t.ask)) == 1
            && Live(p.asking, t.ask) && t.service == p.asking.asks[t.ask].service
            && t.bytes == Canon(t.service, p.asking.asks[t.ask].payload)
  {
    hide Process, Canon, PromisesMatch, ResponsesMatch, BorrowHeld;
    var p, q := PeerOf(s, side), PeerOf(s, Other(side));
    var t := q.answering.tasks[i];
    TaskIsUnique(p.asking, p.out, q.answering, q.out, i);
    assert RequestFlow(p.asking, p.out, q.answering, t.ask);
    CountRemove(q.answering.tasks, i, TaskFor(t.ask));
  }

  /** An answer to task i of the peer opposite `side`, and what that peer says in it. */
  function AnswerStep(s: State, side: Side, i: nat, valid: bool): (r: (Step, Bytes))
    requires i < |PeerOf(s, Other(side)).answering.tasks|
    ensures !r.0.AskSend? && !r.0.Return?
  {
    if side.Client? && s.server.answering.tasks[i].service == Connection then (Judge(i, valid), HandshakeReply(valid))
    else (Answer(Other(side), i, Some([])), [])
  }

  lemma AnswerShape(s: State, side: Side, ask: nat, i: nat, valid: bool)
    requires Answerable(s, side, ask) && i < |PeerOf(s, Other(side)).answering.tasks|
    requires PeerOf(s, Other(side)).answering.tasks[i].ask == ask && PeerOf(s, Other(side)).asking.inserting.None?
    ensures var (l, bytes) := AnswerStep(s, side, i, valid); var s', q := Next(s, l), PeerOf(s, Other(side));
            var t := q.answering.tasks[i];
            && CreateResponse(t.id, t.service, bytes).Some?
            && PeerOf(s', Other(side)) == DoAnswer(q, i, Some(bytes)) && PeerOf(s', side) == PeerOf(s, side)
            && s'.panicked == s.panicked
            && (ask !in s.judged && ask in s'.judged ==> s'.judged[ask].valid == valid)
            && (ask in s.judged && s.judged[ask].valid == valid ==> ask in s'.judged && s'.judged[ask].valid == valid)
  {
    hide Process, Canon, CreateResponse, Inv, TicketIn, HandshakeReply, DoAnswer, Live;
    TaskIsOwn(s, side, i);
    var t := PeerOf(s, Other(side)).answering.tasks[i];
    EmptyAnswerIsFramed(t.id, t.service);
    VerdictIsFramed(t.id, valid);
  }

  lemma VerdictIsFramed(id: u32, valid: bool)
    ensures CreateResponse(id, Connection, HandshakeReply(valid)).Some?
  {
    ConnectionRoundTrip(ConnectionMessage(Some(HandshakeRes(HandshakeResponse(valid)))));
    hide EncodeRealtime, EncodeConnection, DecodeConnection;
  }

  lemma AnswerOther(s: State, side: Side, ask: nat, target: nat, i: nat, valid: bool)
    requires Aimed(s, side, ask, target) && PeerOf(s, Other(side)).asking.inserting.None? && Stage(s, side, ask) == 2
    requires i < |PeerOf(s, Other(side)).answering.tasks| && PeerOf(s, Other(side)).answering.tasks[i].ask == ask
    ensures var s' := Next(s, AnswerStep(s, side, i, valid).0);
            && Aimed(s', side, ask, target) && Stage(s', side, ask) == 1
            && (ask !in s.judged && ask in s'.judged ==> s'.judged[ask].valid == valid)
            && (ask in s.judged && s.judged[ask].valid == valid ==> ask in s'.judged && s'.judged[ask].valid == valid)
  {
    hide Process, Canon, TicketIn, CreateResponse, Inv, Count, Holds, Sole, Next, AnswerStep, Live;
    var s', b := Next(s, AnswerStep(s, side, i, valid).0), PeerOf(s, Other(side)).answering;
    TaskIsOwn(s, side, i);
    AnswerShape(s, side, ask, i, valid);
    NextKeepsInv(s, AnswerStep(s, side, i, valid).0);
    CountRemove(b.tasks, i, TaskFor(ask));
    SameAnswersSole(PeerOf(s, side).asking, b, PeerOf(s', Other(side)).answering, ask);
  }

  /** The next response is the one to `ask`, which completes the target, or has another id. */
  lemma DeliverOwn(s: State, side: Side, ask: nat, target: nat)
    requires Aimed(s, side, ask, target) && Enabled(s, Deliver(side))
    ensures var s' := Next(s, Deliver(side));
            && s'.judged == s.judged
            && (|| Got(s', side, ask, target)
                || (&& Aimed(s', side, ask, target) && Inserting(s') == Inserting(s)
                    && Stage(s', side, ask) == Stage(s, side, ask) && Queued(s') < Queued(s)))
  {
    hide Process, Canon, TicketIn, Inv, Count;
    NextKeepsInv(s, Deliver(side));
    var p, s' := PeerOf(s, Other(side)).out[0], Next(s, Deliver(side));
    var a, b := PeerOf(s, side).asking, PeerOf(s, Other(side)).answering;
    if IsResponse(p.m) {
      ResponseIsFor(s, side);
      assert p.ask != ask ==> !SameId(a, b, ask, p.ask);
    }
    SoleStays(a, PeerOf(s', side).asking, b, ask);
    hide Sole;
  }

  lemma ResponseIsFor(s: State, side: Side)
    requires Inv(s) && PeerOf(s, Other(side)).out != [] && IsResponse(PeerOf(s, Other(side)).out[0].m)
    ensures var p := PeerOf(s, Other(side)).out[0];
            && p.ask in PeerOf(s, Other(side)).answering.answers && p.ask !in PeerOf(s, side).asking.arrived
            && Process(p.m.bytes).id == IdOf(PeerOf(s, side).asking, p.ask)
  {
    hide Process, Canon, Flow, RequestsMatch, ResponsesMatch, PromisesMatch, BorrowHeld, Numbered;
    ResponseFindsPromise(PeerOf(s, side).asking, PeerOf(s, side).out, PeerOf(s, Other(side)).answering, PeerOf(s, Other(side)).out, 0);
  }

  lemma SomewhereOnItsWay(s: State, side: Side, ask: nat)
    requires Answerable(s, side, ask)
    ensures Stage(s, side, ask) == 3 ==> PeerOf(s, side).out != []
    ensures Stage(s, side, ask) == 2 ==> Count(PeerOf(s, Other(side)).answering.tasks, TaskFor(ask)) > 0
    ensures Stage(s, side, ask) == 1 ==> PeerOf(s, Other(side)).out != []
  {
    hide Process, Canon, TicketIn, RequestsMatch, ResponsesMatch, PromisesMatch, BorrowHeld, Numbered;
    var p, q := PeerOf(s, side), PeerOf(s, Other(side));
    assert RequestFlow(p.asking, p.out, q.answering, ask);
    assert ResponseFlow(p.asking, q.answering, q.out, ask);
  }

  /**
   The answer to `ask` can be brought to the promise under its id: deliver, answer and deliver.
   If it is a handshake that was not judged yet, it can be judged either way.
   */
  lemma {:induction false} Completes(s: State, side: Side, ask: nat, target: nat, valid: bool) returns (ls: seq<Step>)
    requires Aimed(s, side, ask, target)
    ensures Got(Run(s, ls), side, ask, target)
    ensures Inv(Run(s, ls)) && !Run(s, ls).panicked && Run(s, ls).awaiting == s.awaiting
    ensures (ask in s.judged ==> s.judged[ask].valid == valid) && ask in Run(s, ls).judged ==>
              Run(s, ls).judged[ask].valid == valid
    decreases Stage(s, side, ask), Inserting(s), Queued(s)
  {
    hide Process, Inv, Next, Count, Live, Holds, Sole, Got, Willing, AnswerStep;
    SomewhereOnItsWay(s, side, ask);
    var l: Step;
    if PeerOf(s, side).asking.inserting.Some? {
      l := AskInsert(side);
      InsertOwn(s, side, ask, target);
    } else if PeerOf(s, Other(side)).asking.inserting.Some? {
      l := AskInsert(Other(side));
      InsertOther(s, side, ask, target);
    } else if Stage(s, side, ask) == 3 {
      l := Deliver(Other(side));
      DeliverOther(s, side, ask, target);
    } else if Stage(s, side, ask) == 2 {
      var i := CountedElement(PeerOf(s, Other(side)).answering.tasks, TaskFor(ask));
      l := AnswerStep(s, side, i, valid).0;
      AnswerOther(s, side, ask, target, i, valid);
    } else {
      l := Deliver(side);
      DeliverOwn(s, side, ask, target);
    }
    NextKeepsInv(s, l);
    NoCall(s, l);
    var rest := [];
    if !Got(Next(s, l), side, ask, target) {
      rest := Completes(Next(s, l), side, ask, target, valid);
    }
    ls := [l] + rest;
    assert ls[1..] == rest;
  }

  /** Only a call can panic, and only calls and returns change who waits. */
  lemma NoCall(s: State, l: Step)
    requires !l.AskSend? && !l.Return?
    ensures Next(s, l).panicked == s.panicked && Next(s, l).awaiting == s.awaiting
  {
    hide Process, CreateResponse, CreateTell, TicketIn, HandshakeReply;
  }

  // ------------------------------------------------------------------- limits

  lemma DeclinedStays(s: State, l: Step, ask: nat)
    ensures ask in s.client.answering.declined ==> ask in Next(s, l).client.answering.declined
  {
    hide Process, Canon, CreateRequest, CreateResponse, TicketIn, HandshakeReply, CreateTell;
  }

  lemma GotMeansAnswered(s: State, ask: nat, target: nat)
    requires Inv(s) && Got(s, Server, ask, target)
    ensures IdOf(s.server.asking, ask) != 0 && ask !in s.client.answering.declined
  {
    hide Process, Canon, PromisesMatch, BorrowHeld, Numbered;
    var a, b := s.server.asking, s.client.answering;
    assert ResultMatches(a, b, target) && AnswerMatches(a, b, ask);
    assert RequestFlow(a, s.server.out, b, ask);
  }

  /** Nothing is ever completed with the answer to an ask that the client has declined, or that went out under id 0. */
  lemma {:induction false} NeverCompletes(s: State, ls: seq<Step>, ask: nat, target: nat)
    requires Inv(s) && (IdOf(s.server.asking, ask) == 0 || ask in s.client.answering.declined)
    ensures !Got(Run(s, ls), Server, ask, target)
    decreases ls
  {
    hide Next, Got, Facing, Numbered, BorrowHeld;
    if ls == [] {
      if Got(s, Server, ask, target) { GotMeansAnswered(s, ask, target); }
    } else {
      NextKeepsInv(s, ls[0]);
      DeclinedStays(s, ls[0], ask);
      NeverCompletes(Next(s, ls[0]), ls[1..], ask, target);
    }
  }

  /** The ask has no promise, or one that is about to be replaced. */
  predicate Doomed(a: Asking, ask: nat) {
    && ask < |a.asks| && ask !in a.results && a.inserting != Some(ask)
    && forall id :: id in a.promises && a.promises[id] == ask ==>
                      a.inserting.Some? && IdOf(a, a.inserting.value) == id
  }

  lemma DoomedStays(s: State, l: Step, ask: nat)
    requires Doomed(s.server.asking, ask)
    ensures Doomed(Next(s, l).server.asking, ask)
  {
    OnlyServerAsks(s, l);
    hide Next, Process, CreateRequest;
  }

  lemma {:induction false} DoomedForEver(s: State, ls: seq<Step>, ask: nat)
    requires Doomed(s.server.asking, ask)
    ensures ask !in Run(s, ls).server.asking.results
    decreases ls
  {
    hide Next;
    if ls != [] {
      DoomedStays(s, ls[0], ask);
      DoomedForEver(Next(s, ls[0]), ls[1..], ask);
    }
  }

  // ------------------------------------------------------------------ theorems

  /** An answered ask that has not arrived has its promise, or is being registered. */
  lemma AnsweredIsKept(s: State, ask: nat)
    requires Inv(s) && !s.server.asking.replaced && ask in s.client.answering.answers && ask !in s.server.asking.arrived
    ensures Registered(s.server.asking, ask) || s.server.asking.inserting == Some(ask)
  {
    hide Process, Canon, Flow, ResponsesMatch, BorrowHeld, Numbered;
    assert AnswerMatches(s.server.asking, s.client.answering, ask) && Kept(s.server.asking, ask);
  }

  lemma PendingIsAimed(s: State, id: u32)
    requires Inv(s) && !s.panicked && !s.server.asking.replaced && id in s.server.asking.promises && id != 0
    ensures var a := s.server.asking; var ask := a.promises[id];
            && IdOf(a, ask) == id && ask < |a.asks| && ask !in a.results && a.inserting != Some(ask)
            && (ask !in s.client.answering.declined ==> Answerable(s, Server, ask))
            && (a.inserting.None? || IdOf(a, a.inserting.value) != id ==> Sole(a, s.client.answering, ask))
  {
    var a, b := s.server.asking, s.client.answering;
    var ask := a.promises[id];
    assert OwnResult(a, ask);
    forall other: nat | SameId(a, b, ask, other) && (a.inserting.None? || IdOf(a, a.inserting.value) != id)
      ensures other == ask
    {
      AnsweredIsKept(s, other);
    }
    hide Process, Canon, Flow, RequestsMatch, ResponsesMatch, BorrowHeld;
  }

  /**
   Which pending promises of the server can still be completed with the answer to their own
   request, in a session whose client has not panicked and in which no promise was replaced:
   exactly those under a nonzero id whose request was not declined and that are not about to
   be replaced.
   */
  lemma CompletableExactly(ls: seq<Step>, id: u32)
    requires var s := Run(INIT, ls);
             !s.server.asking.replaced && !s.panicked && id in s.server.asking.promises
    ensures var s := Run(INIT, ls); var a := s.server.asking; var ask := a.promises[id];
            (exists more :: Got(Run(s, more), Server, ask, ask))
            <==> id != 0 && ask !in s.client.answering.declined
                 && (a.inserting.None? || IdOf(a, a.inserting.value) != id)
  {
    Reached(ls);
    var s := Run(INIT, ls);
    var a := s.server.asking;
    var ask := a.promises[id];
    assert IdOf(a, ask) == id;
    if id != 0 { PendingIsAimed(s, id); }
    hide Inv, Run, Answerable, Sole;
    if id == 0 || ask in s.client.answering.declined {
      forall more ensures !Got(Run(s, more), Server, ask, ask) { NeverCompletes(s, more, ask, ask); }
    } else if a.inserting.Some? && IdOf(a, a.inserting.value) == id {
      OnlyPromise(s, id);
      forall more ensures !Got(Run(s, more), Server, ask, ask) { DoomedForEver(s, more, ask); }
    } else {
      var more := Completes(s, Server, ask, ask, true);
    }
  }

  lemma OnlyPromise(s: State, id: u32)
    requires Inv(s) && id in s.server.asking.promises
    ensures forall k :: k in s.server.asking.promises && s.server.asking.promises[k] == s.server.asking.promises[id] ==> k == id
  {
    hide Facing, BorrowHeld;
  }

  lemma AskSendShape(s: State, service: RealtimeService, payload: Bytes)
    requires Ready(s, Server)
    ensures var s' := Next(s, AskSend(Server, service, payload, true));
            s'.client == s.client && s'.panicked == s.panicked
            && s'.server.asking == Send(s.server.asking, service, payload, true).0
  {
    hide CreateRequest, Send;
  }

  lemma AskedIsAimed(s: State, service: RealtimeService, payload: Bytes)
    requires Inv(s) && !s.panicked && Ready(s, Server) && !s.server.asking.replaced
    requires var a := s.server.asking; IdOf(a, |a.asks|) != 0 && IdOf(a, |a.asks|) in a.promises
    requires Send(s.server.asking, service, payload, true).1 != []
    requires var a := s.server.asking; a.promises[IdOf(a, |a.asks|)] !in s.client.answering.declined
    ensures var a := s.server.asking;
            Aimed(Next(s, AskSend(Server, service, payload, true)), Server, a.promises[IdOf(a, |a.asks|)], |a.asks|)
  {
    var a, s' := s.server.asking, Next(s, AskSend(Server, service, payload, true));
    PendingIsAimed(s, IdOf(a, |a.asks|));
    SendExtends(a, service, payload, true);
    hide Next, Send, Inv, Sole, Answerable, Aimed, IdOf;
    NextKeepsInv(s, AskSend(Server, service, payload, true));
    AskSendShape(s, service, payload);
    AimAfterSend(s, s', a.promises[IdOf(a, |a.asks|)]);
  }

  lemma AimAfterSend(s: State, s': State, ask: nat)
    requires Answerable(s, Server, ask) && Sole(s.server.asking, s.client.answering, ask) && Inv(s')
    requires s'.client == s.client && s'.panicked == s.panicked
    requires var a, a' := s.server.asking, s'.server.asking;
             && a'.first == a.first && a'.arrived == a.arrived && a.asks <= a'.asks
             && a'.inserting == Some(|a.asks|) && IdOf(a, |a.asks|) == IdOf(a, ask)
    ensures Aimed(s', Server, ask, |s.server.asking.asks|)
  {
    hide Inv, Sole;
    SoleStays(s.server.asking, s'.server.asking, s.client.answering, ask);
  }

  /**
   The server makes an ask under an id that is still pending for an older ask, for the first
   time: some continuation completes the new ask with the answer to the old one, exactly if the
   old request was not declined.
   */
  lemma MixupExactly(ls: seq<Step>, service: RealtimeService, payload: Bytes)
    requires var s := Run(INIT, ls); var a := s.server.asking;
             && !s.panicked && Ready(s, Server) && !a.replaced
             && IdOf(a, |a.asks|) != 0 && IdOf(a, |a.asks|) in a.promises
             && Send(a, service, payload, true).1 != []
    ensures var s := Run(INIT, ls); var a := s.server.asking;
            var old_ := a.promises[IdOf(a, |a.asks|)];
            && old_ < |a.asks|
            && ((exists more :: Got(Run(Next(s, AskSend(Server, service, payload, true)), more), Server, old_, |a.asks|))
                <==> old_ !in s.client.answering.declined)
  {
    Reached(ls);
    var s := Run(INIT, ls);
    var a, l := s.server.asking, AskSend(Server, service, payload, true);
    var old_ := a.promises[IdOf(a, |a.asks|)];
    PendingIsAimed(s, IdOf(a, |a.asks|));
    NextKeepsInv(s, l);
    DeclinedStays(s, l, old_);
    hide Run, Next, Inv, Send, Answerable, Sole;
    if old_ in s.client.answering.declined {
      forall more ensures !Got(Run(Next(s, l), more), Server, old_, |a.asks|) { NeverCompletes(Next(s, l), more, old_, |a.asks|); }
    } else {
      AskedIsAimed(s, service, payload);
      var more := Completes(Next(s, l), Server, old_, |a.asks|, true);
    }
  }

  // ------------------------------------------------------------- a failing run

  lemma {:induction false} AsksGrow(s: State, ls: seq<Step>)
    ensures Grows(s.server.asking, Run(s, ls).server.asking)
    decreases ls
  {
    hide Next;
    if ls != [] {
      OnlyServerAsks(s, ls[0]);
      assert Grows(s.server.asking, Next(s, ls[0]).server.asking) by { hide Process, CreateRequest; }
      AsksGrow(Next(s, ls[0]), ls[1..]);
    }
  }

  /** Asks that the socket refuses; each uses up an id. */
  function Refused(n: nat): seq<Step> {
    if n == 0 then [] else [AskSend(Server, Core, [], false)] + Refused(n - 1)
  }

  lemma {:induction false} RefusedAsks(s: State, n: nat)
    requires Ready(s, Server)
    ensures var s' := Run(s, Refused(n));
            && Ready(s', Server) && s'.client == s.client && s'.panicked == s.panicked
            && s'.server.asking.promises == s.server.asking.promises
            && s'.server.asking.replaced == s.server.asking.replaced && s'.server.asking.first == s.server.asking.first
            && |s'.server.asking.asks| == |s.server.asking.asks| + n
    decreases n
  {
    if n > 0 {
      hide Process, CreateRequest;
      assert Refused(n)[1..] == Refused(n - 1);
      RefusedAsks(Next(s, Refused(n)[0]), n - 1);
    }
  }

  function TimeRequest(): Bytes { EncodeCore(CoreMessage(Some(ServerTimeReq(ServerTimeRequest)))) }

  /** The first ask uses up id 0; the second asks for the time under id 1. */
  const FIRST_ASKS: seq<Step> :=
    [AskSend(Server, Core, [], false), AskSend(Server, Core, TimeRequest(), true), AskInsert(Server)]

  lemma CoreIsFramed(id: u32, m: CoreMessage)
    ensures CreateRequest(id, Core, EncodeCore(m)).Some?
  {
    CoreRoundTrip(m);
    hide EncodeCore, DecodeCore, EncodeRealtime;
  }

  lemma SomeTimeRequest()
    ensures TimeRequest() != [] && CreateRequest(1, Core, TimeRequest()).Some?
  {
    var m := CoreMessage(Some(ServerTimeReq(ServerTimeRequest)));
    CoreIsFramed(1, m);
    TagBytes(HEADER0, CoreMsg(m));
    hide CreateRequest, EncodeCore;
  }

  lemma FirstAsks()
    ensures var s := Run(INIT, FIRST_ASKS); var a := s.server.asking;
            && Ready(s, Server) && !s.panicked && s.client == INIT.client && !a.replaced && a.first == 0
            && a.promises == map[1 := 1]
            && a.asks == [Ask(Core, [], false), Ask(Core, TimeRequest(), true)]
  {
    hide CreateRequest, TimeRequest;
    SomeTimeRequest();
    var ls := FIRST_ASKS;
    var s1 := Next(INIT, ls[0]);
    var s2 := Next(s1, ls[1]);
    assert Run(INIT, ls) == Run(s1, ls[1..]);
    assert ls[1..][0] == ls[1] && ls[1..][1..] == ls[2..] && Run(s1, ls[1..]) == Run(s2, ls[2..]);
    assert ls[2..][0] == ls[2] && ls[2..][1..] == [] && Run(s2, ls[2..]) == Next(s2, ls[2]);
  }

  /**
   A run in which a result is the answer to another request: the client is slow to answer ask
   1, the next 2^32 - 1 asks are refused by the socket, and then the server asks something else
   under id 1 again.
   */
  lemma MixupHappens() returns (ls: seq<Step>)
    ensures var a := Run(INIT, ls).server.asking; var ask := U32 + 1;
            && ask < |a.asks| && ask in a.results && a.results[ask].ask == 1
            && a.asks[1].payload == TimeRequest() && a.asks[ask].payload == [] && TimeRequest() != []
  {
    hide Next, CreateRequest, TimeRequest;
    var early := FIRST_ASKS + Refused(U32 - 1);
    var l := AskSend(Server, Core, [], true);
    FirstAsks();
    RunAppend(INIT, FIRST_ASKS, Refused(U32 - 1));
    RefusedAsks(Run(INIT, FIRST_ASKS), U32 - 1);
    AsksGrow(Run(INIT, FIRST_ASKS), Refused(U32 - 1));
    var s := Run(INIT, early);
    var a := s.server.asking;
    hide Run;
    assert |a.asks| == U32 + 1 && IdOf(a, U32 + 1) == 1;
    EmptyAskIsSent(s);
    MixupExactly(early, Core, []);
    var more :| Got(Run(Next(s, l), more), Server, 1, U32 + 1);
    ls := early + [l] + more;
    RunAppend(INIT, early, [l]);
    RunAppend(INIT, early + [l], more);
    OneStep(s, l);
    AsksGrow(Next(s, l), more);
    SomeTimeRequest();
  }

  lemma OneStep(s: State, l: Step)
    ensures Run(s, [l]) == Next(s, l)
  {
    hide Next;
    assert [l][1..] == [];
  }

  lemma EmptyAskIsSent(s: State)
    requires Ready(s, Server)
    ensures var (c, ms) := Send(s.server.asking, Core, [], true);
            && ms != [] && c.asks == s.server.asking.asks + [Ask(Core, [], true)]
            && Next(s, AskSend(Server, Core, [], true)).server.asking == c
  {
    CoreIsFramed((s.server.asking.first + s.server.asking.counter) % U32, CORE0);
    assert EncodeCore(CORE0) == [];
    hide CreateRequest;
  }
}
