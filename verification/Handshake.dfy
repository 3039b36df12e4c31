/**
 The ticket handshake, end to end and in every run, however many requests were made before.
 Ids may have been reused, but since the client's counter stays borrowed while a call waits,
 at most one of its requests is anywhere between the two peers, and the response a call gets is
 the verdict on the ticket it sent.
 */
module Handshake {
  import opened Base
  import opened Wire
  import opened Messages
  import opened Framing
  import opened Counting
  import opened Peers
  import opened Session
  import T = SessionTheorems
  import C = Completion

  // ---------------------------------------------------- the client's one request

  function RequestPacket(): Packet -> bool { (p: Packet) => IsRequest(p.m) }
  function ResponsePacket(): Packet -> bool { (p: Packet) => IsResponse(p.m) }

  /** The client's requests that have not come back: on the wire, being answered, or as responses on the wire. */
  function UnderWay(s: State): nat {
    Count(s.client.out, RequestPacket()) + |s.server.answering.tasks| + Count(s.server.out, ResponsePacket())
  }

  /** A request of the client that has not come back is the one of the call that waits. */
  lemma IsAwaited(s: State, call: nat)
    requires Inv(s) && Live(s.client.asking, call) && call !in s.client.asking.arrived
    ensures s.awaiting == Some(call) && call !in s.client.asking.results
  {
    hide Flow, RequestsMatch, ResponsesMatch, Numbered;
    assert OwnResult(s.client.asking, call) && CallHeld(s.client.asking, s.awaiting, s.returned, call);
  }

  lemma RequestIsAwaited(s: State, i: nat)
    requires Inv(s) && i < |s.client.out| && IsRequest(s.client.out[i].m)
    ensures s.awaiting == Some(s.client.out[i].ask) && s.client.out[i].ask !in s.client.asking.results
  {
    hide Process, Canon, RequestsMatch, ResponsesMatch, PromisesMatch, BorrowHeld, Numbered;
    var call := s.client.out[i].ask;
    assert RequestFlow(s.client.asking, s.client.out, s.server.answering, call);
    assert ResponseFlow(s.client.asking, s.server.answering, s.server.out, call);
    CountRemove(s.client.out, i, RequestFor(call));
    IsAwaited(s, call);
  }

  lemma TaskIsAwaited(s: State, i: nat)
    requires Inv(s) && i < |s.server.answering.tasks|
    ensures s.awaiting == Some(s.server.answering.tasks[i].ask)
    ensures s.server.answering.tasks[i].ask !in s.client.asking.results
  {
    hide Process, Canon, OneWay, BorrowHeld, Numbered;
    TaskIsUnique(s.client.asking, s.client.out, s.server.answering, s.server.out, i);
    IsAwaited(s, s.server.answering.tasks[i].ask);
  }

  lemma ResponseIsAwaited(s: State, i: nat)
    requires Inv(s) && i < |s.server.out| && IsResponse(s.server.out[i].m)
    ensures s.awaiting == Some(s.server.out[i].ask) && s.server.out[i].ask !in s.client.asking.results
  {
    hide Process, Canon, OneWay, BorrowHeld, Numbered;
    ResponseFindsPromise(s.client.asking, s.client.out, s.server.answering, s.server.out, i);
    IsAwaited(s, s.server.out[i].ask);
  }

  lemma {:induction false} CountWithin<T>(s: seq<T>, p: T -> bool, q: T -> bool)
    requires forall i :: 0 <= i < |s| && p(s[i]) ==> q(s[i])
    ensures Count(s, p) <= Count(s, q)
  {
    if s != [] { CountWithin(s[1..], p, q); }
  }

  lemma {:induction false} CountAll<T>(s: seq<T>, p: T -> bool)
    requires forall i :: 0 <= i < |s| ==> p(s[i])
    ensures Count(s, p) == |s|
  {
    if s != [] { CountAll(s[1..], p); }
  }

  /** In every run at most one request of the client is anywhere between the peers, and only while its call waits. */
  lemma OneRequestUnderWay(ls: seq<Step>)
    ensures var s := Run(INIT, ls);
            UnderWay(s) <= One(s.awaiting.Some? && s.awaiting.value !in s.client.asking.results)
  {
    hide Run;
    T.Reached(ls);
    OnlyAwaited(Run(INIT, ls));
  }

  lemma OnlyAwaited(s: State)
    requires Inv(s)
    ensures UnderWay(s) <= One(s.awaiting.Some? && s.awaiting.value !in s.client.asking.results)
  {
    hide Process, Inv, Count;
    var call := if s.awaiting.Some? then s.awaiting.value else 0;
    forall i | 0 <= i < |s.client.out| && RequestPacket()(s.client.out[i])
      ensures s.awaiting == Some(s.client.out[i].ask) && call !in s.client.asking.results { RequestIsAwaited(s, i); }
    forall i | 0 <= i < |s.server.answering.tasks|
      ensures s.awaiting == Some(s.server.answering.tasks[i].ask) && call !in s.client.asking.results { TaskIsAwaited(s, i); }
    forall i | 0 <= i < |s.server.out| && ResponsePacket()(s.server.out[i])
      ensures s.awaiting == Some(s.server.out[i].ask) && call !in s.client.asking.results { ResponseIsAwaited(s, i); }
    CountWithin(s.client.out, RequestPacket(), RequestFor(call));
    CountAll(s.server.answering.tasks, TaskFor(call));
    CountWithin(s.server.out, ResponsePacket(), ResponseFor(call));
    AtMostOne(s, call);
    assert s.server.answering.tasks != [] ==> s.awaiting == Some(s.server.answering.tasks[0].ask);
    if s.awaiting.None? || call in s.client.asking.results {
      CountNone(s.client.out, RequestPacket());
      CountNone(s.server.out, ResponsePacket());
    }
  }

  lemma AtMostOne(s: State, call: nat)
    requires Inv(s)
    ensures Count(s.client.out, RequestFor(call)) + Count(s.server.answering.tasks, TaskFor(call))
            + Count(s.server.out, ResponseFor(call)) <= 1
  {
    hide Process, Count, RequestsMatch, ResponsesMatch, PromisesMatch, BorrowHeld, Numbered;
    assert RequestFlow(s.client.asking, s.client.out, s.server.answering, call);
    assert ResponseFlow(s.client.asking, s.server.answering, s.server.out, call);
  }

  // --------------------------------------------------------------- the verdict

  lemma HandshakeIsCanonical(ticket: Text, valid: bool)
    ensures Canon(Connection, HandshakePayload(ticket)) == HandshakePayload(ticket)
    ensures TicketIn(HandshakePayload(ticket)) == Some(ticket)
    ensures Canon(Connection, HandshakeReply(valid)) == HandshakeReply(valid)
    ensures HandshakeOutcome(Some(HandshakeReply(valid))) == valid
    ensures !HandshakeOutcome(None)
  {
    ConnectionRoundTrip(ConnectionMessage(Some(HandshakeReq(HandshakeRequest(ticket)))));
    ConnectionRoundTrip(ConnectionMessage(Some(HandshakeRes(HandshakeResponse(valid)))));
  }

  /** What counts as a handshake request, and what as its success: nothing but the message that says so. */
  lemma HandshakesAreRead(bytes: Bytes)
    ensures TicketIn(bytes).Some? <==>
              exists ticket: Text :: DecodeConnection(bytes) == Some(ConnectionMessage(Some(HandshakeReq(HandshakeRequest(ticket)))))
    ensures HandshakeOutcome(Some(bytes)) <==>
              DecodeConnection(bytes) == Some(ConnectionMessage(Some(HandshakeRes(HandshakeResponse(true)))))
  {
    hide DecodeConnection;
    if TicketIn(bytes).Some? {
      assert DecodeConnection(bytes) == Some(ConnectionMessage(Some(HandshakeReq(HandshakeRequest(TicketIn(bytes).value)))));
    }
  }

  /**
   What the connection service does with a request: it is the one of the call that waits. A
   handshake request is judged and answered with the verdict, under the request's own id;
   anything else goes unanswered and unjudged.
   */
  lemma JudgeAnswers(ls: seq<Step>, i: nat, valid: bool)
    requires Enabled(Run(INIT, ls), Judge(i, valid))
    ensures var s := Run(INIT, ls); var s', t := Next(s, Judge(i, valid)), s.server.answering.tasks[i];
            && s.awaiting == Some(t.ask) && t.ask < |s.client.asking.asks|
            && t.bytes == Canon(Connection, s.client.asking.asks[t.ask].payload)
            && match TicketIn(t.bytes)
               case None => s'.server.out == s.server.out && s'.judged == s.judged
               case Some(ticket) =>
                 && s'.judged == s.judged[t.ask := Judgement(ticket, valid)]
                 && |s'.server.out| == |s.server.out| + 1 && s.server.out <= s'.server.out
                 && var p := s'.server.out[|s.server.out|];
                 p.m.Binary? && p.ask == t.ask && Process(p.m.bytes) == Response(t.id, Connection, HandshakeReply(valid))
  {
    hide Run, Process, Canon, TicketIn, HandshakeReply, CreateResponse, OneWay, BorrowHeld, Numbered;
    T.Reached(ls);
    var s := Run(INIT, ls);
    var t := s.server.answering.tasks[i];
    TaskIsAwaited(s, i);
    TaskIsUnique(s.client.asking, s.client.out, s.server.answering, s.server.out, i);
    C.VerdictIsFramed(t.id, valid);
    HandshakeIsCanonical([], valid);
    ResponseRoundTrip(t.id, Connection, HandshakeReply(valid));
  }

  /** An answer of the connection service to a call is the verdict it gave on the ticket in that call's request. */
  predicate Judged(s: State, call: nat) {
    var answers := s.server.answering.answers;
    && (call in answers && answers[call].service == Connection <==> call in s.judged)
    && (call in s.judged ==>
          && TicketIn(answers[call].bytes) == Some(s.judged[call].ticket)
          && answers[call].answer == HandshakeReply(s.judged[call].valid))
  }

  lemma NextKeepsJudged(s: State, l: Step, call: nat)
    requires Judged(s, call) && Inv(s)
    ensures Judged(Next(s, l), call)
  {
    hide Process, Canon, CreateRequest, CreateResponse, CreateTell, TicketIn, HandshakeReply, Inv;
    if Enabled(s, l) && l.Judge? {
      JudgeKeepsJudged(s, l.task, l.valid, call);
    } else if Enabled(s, l) && l.Answer? && l.side.Server? {
      C.TaskIsOwn(s, Client, l.task);
    } else {
      OnlyAnswersJudge(s, l);
    }
  }

  lemma JudgeShape(s: State, i: nat, valid: bool)
    requires Enabled(s, Judge(i, valid))
    ensures var s', t := JudgeTask(s, i, valid), s.server.answering.tasks[i];
            match TicketIn(t.bytes)
            case None => s'.server.answering.answers == s.server.answering.answers && s'.judged == s.judged
            case Some(ticket) =>
              && s'.server.answering.answers == s.server.answering.answers[t.ask := Served(Connection, t.bytes, HandshakeReply(valid))]
              && s'.judged == s.judged[t.ask := Judgement(ticket, valid)]
  {
    hide Process, CreateResponse, TicketIn, HandshakeReply;
    C.VerdictIsFramed(s.server.answering.tasks[i].id, valid);
  }

  lemma JudgeKeepsJudged(s: State, i: nat, valid: bool, call: nat)
    requires Judged(s, call) && Enabled(s, Judge(i, valid))
    ensures Judged(JudgeTask(s, i, valid), call)
  {
    hide JudgeTask, TicketIn, HandshakeReply;
    JudgeShape(s, i, valid);
  }

  lemma OnlyAnswersJudge(s: State, l: Step)
    requires (Enabled(s, l) ==> !l.Judge?) && !(l.Answer? && l.side.Server? && Enabled(s, l))
    ensures Next(s, l).server.answering.answers == s.server.answering.answers && Next(s, l).judged == s.judged
  {
    hide Process, CreateRequest, CreateResponse, CreateTell, Send, TakeResponse, Insert;
  }

  lemma {:induction false} RunKeepsJudged(s: State, ls: seq<Step>, call: nat)
    requires Judged(s, call) && Inv(s)
    ensures Judged(Run(s, ls), call) && Inv(Run(s, ls))
    decreases ls
  {
    hide Next, Judged, Inv;
    if ls != [] {
      NextKeepsInv(s, ls[0]);
      NextKeepsJudged(s, ls[0], call);
      RunKeepsJudged(Next(s, ls[0]), ls[1..], call);
    }
  }

  lemma Reached(ls: seq<Step>, call: nat)
    ensures Inv(Run(INIT, ls)) && Judged(Run(INIT, ls), call)
  {
    InitInv();
    RunKeepsJudged(INIT, ls, call);
  }

  /** An answered call was sent under a nonzero id and not declined; if it asked the connection service, with a ticket. */
  lemma AnsweredMeans(s: State, call: nat)
    requires Inv(s) && Judged(s, call) && call in s.server.answering.answers
    ensures IdOf(s.client.asking, call) != 0 && call !in s.server.answering.declined
    ensures call < |s.client.asking.asks| && s.client.asking.asks[call].sent
    ensures s.server.answering.answers[call].service == s.client.asking.asks[call].service
    ensures s.server.answering.answers[call].bytes == Canon(s.client.asking.asks[call].service, s.client.asking.asks[call].payload)
    ensures C.Willing(s.client.asking, Client, call)
  {
    hide Process, Canon, TicketIn, HandshakeReply, PromisesMatch, ResponsesMatch, BorrowHeld, Numbered;
    assert AnswerMatches(s.client.asking, s.server.answering, call);
    assert RequestFlow(s.client.asking, s.client.out, s.server.answering, call);
  }

  lemma ReturnedMeans(s: State, call: nat)
    requires Inv(s)
    ensures call in s.returned <==> call < |s.client.asking.asks| && s.awaiting != Some(call)
    ensures call in s.returned ==> (s.returned[call].Some? <==> s.client.asking.asks[call].sent)
    ensures call in s.returned && s.returned[call].Some? ==>
              call in s.client.asking.results && s.returned[call] == Some(s.client.asking.results[call].bytes)
              && call in s.server.answering.answers && s.client.asking.results[call].ask == call
  {
    hide Process, Canon, Flow, RequestsMatch, Numbered;
    assert CallHeld(s.client.asking, s.awaiting, s.returned, call);
    assert OwnResult(s.client.asking, call) && ResultMatches(s.client.asking, s.server.answering, call);
  }

  // ----------------------------------------------------------------- theorems

  /**
   In every run, every call but the one that waits has returned: with bytes exactly if its
   request was sent, and then with the server's answer to it, as re-encoded on the way.
   */
  lemma ReturnsExactly(ls: seq<Step>, call: nat)
    ensures var s := Run(INIT, ls); var asks := s.client.asking.asks;
            && (call in s.returned <==> call < |asks| && s.awaiting != Some(call))
            && (call in s.returned ==> (s.returned[call].Some? <==> asks[call].sent))
            && (call in s.returned && asks[call].sent ==>
                  && call in s.server.answering.answers
                  && s.returned[call] == Some(Canon(asks[call].service, s.server.answering.answers[call].answer)))
  {
    hide Run, Canon, Process, Inv;
    T.Reached(ls);
    var s := Run(INIT, ls);
    ReturnedMeans(s, call);
    if call in s.client.asking.results { T.Correlation(ls, Client, call); }
  }

  /**
   A handshake call that has returned returns true if and only if the connection service
   judged valid, for that very call, the very ticket it sent; and if it was sent at all it
   returns the verdict given for it.
   */
  lemma HandshakeEndToEnd(ls: seq<Step>, call: nat, ticket: Text)
    requires var s := Run(INIT, ls);
             && call < |s.client.asking.asks| && call in s.returned
             && s.client.asking.asks[call].service == Connection
             && s.client.asking.asks[call].payload == HandshakePayload(ticket)
    ensures var s := Run(INIT, ls);
            && (s.client.asking.asks[call].sent ==>
                  call in s.judged && s.judged[call] == Judgement(ticket, HandshakeOutcome(s.returned[call])))
            && (HandshakeOutcome(s.returned[call]) <==> call in s.judged && s.judged[call] == Judgement(ticket, true))
  {
    hide Run, Process, Canon, HandshakePayload, HandshakeReply, HandshakeOutcome, TicketIn, Inv;
    Reached(ls, call);
    var s := Run(INIT, ls);
    HandshakeIsCanonical(ticket, true);
    ReturnsExactly(ls, call);
    if call in s.server.answering.answers {
      AnsweredMeans(s, call);
      assert call in s.judged;
      HandshakeIsCanonical(ticket, s.judged[call].valid);
    }
  }

  /** A call that waits, and can be answered, is aimed at its own promise. */
  lemma WaitingIsAimed(s: State, call: nat)
    requires Inv(s) && !s.panicked && s.awaiting == Some(call) && call !in s.client.asking.results
    requires IdOf(s.client.asking, call) != 0 && call !in s.server.answering.declined
    requires C.Willing(s.client.asking, Client, call)
    ensures C.Aimed(s, Client, call, call)
  {
    hide Process, Canon, TicketIn, Flow, ResponsesMatch;
    var a := s.client.asking;
    assert Kept(a, call) && OwnResult(a, call);
    forall other: nat | C.SameId(a, s.server.answering, call, other) ensures other == call {
      assert AnswerMatches(a, s.server.answering, other);
      IsAwaited(s, other);
    }
    hide C.Willing, RequestsMatch;
  }

  lemma ReturnStep(s: State, call: nat)
    requires Inv(s) && !s.panicked && s.awaiting == Some(call) && call in s.client.asking.results
    ensures Enabled(s, Return) && call in Next(s, Return).returned
  {
    hide Process, Facing, Numbered, CallHeld;
  }

  /** The continuation in which a waiting call returns; a handshake that is not judged yet may be judged either way. */
  lemma CallReturns(s: State, call: nat, valid: bool) returns (more: seq<Step>)
    requires Inv(s) && !s.panicked && s.awaiting == Some(call)
    requires call in s.client.asking.results ||
             (&& IdOf(s.client.asking, call) != 0 && call !in s.server.answering.declined
              && C.Willing(s.client.asking, Client, call))
    ensures call in Run(s, more).returned
    ensures call !in s.judged && call in Run(s, more).judged ==> Run(s, more).judged[call].valid == valid
  {
    hide Inv, Process, Next, C.Willing;
    more := [];
    if call !in s.client.asking.results {
      WaitingIsAimed(s, call);
      more := C.Completes(s, Client, call, call, valid);
    }
    var s' := Run(s, more);
    ReturnStep(s', call);
    T.RunAppend(s, more, [Return]);
    more := more + [Return];
    C.OneStep(s', Return);
    OnlyAnswersJudge(s', Return);
  }

  /** What a run adds to. */
  predicate Later(s: State, s': State) {
    && s'.client.asking.first == s.client.asking.first && s.client.asking.asks <= s'.client.asking.asks
    && s.server.answering.declined <= s'.server.answering.declined
  }

  lemma NextIsLater(s: State, l: Step)
    ensures Later(s, Next(s, l))
  {
    hide Process, CreateRequest, CreateResponse, CreateTell, TicketIn, HandshakeReply, TakeResponse, TakeRequest;
    if Enabled(s, l) && l == Deliver(Client) { TakeKeepsAsks(s.client.asking, s.server.out[0]); }
    if Enabled(s, l) && l == Deliver(Server) { TakeKeepsDeclined(s.server.answering, s.client.out[0]); }
  }

  lemma TakeKeepsAsks(a: Asking, p: Packet)
    ensures TakeResponse(a, p).asks == a.asks && TakeResponse(a, p).first == a.first
  {
    hide Process;
  }

  lemma TakeKeepsDeclined(b: Answering, p: Packet)
    ensures TakeRequest(b, p).declined == b.declined
  {
    hide Process;
  }

  lemma {:induction false} RunIsLater(s: State, ls: seq<Step>)
    ensures Later(s, Run(s, ls))
    decreases ls
  {
    hide Next;
    if ls != [] {
      NextIsLater(s, ls[0]);
      RunIsLater(Next(s, ls[0]), ls[1..]);
    }
  }

  /**
   Which waiting calls of the client can still return, in a session that has not panicked:
   exactly those whose response has arrived, or whose request went out under a nonzero id, was
   not declined, and is no request to the connection service without a ticket.
   */
  lemma ReturnableExactly(ls: seq<Step>, call: nat)
    requires var s := Run(INIT, ls); !s.panicked && s.awaiting == Some(call)
    ensures var s := Run(INIT, ls);
            (exists more :: call in Run(s, more).returned)
            <==> call in s.client.asking.results
                 || (&& IdOf(s.client.asking, call) != 0 && call !in s.server.answering.declined
                     && C.Willing(s.client.asking, Client, call))
  {
    Reached(ls, call);
    var s := Run(INIT, ls);
    AwaitedIsSent(s, call);
    hide Process, Next, Inv, Judged, C.Willing;
    if call in s.client.asking.results ||
       (&& IdOf(s.client.asking, call) != 0 && call !in s.server.answering.declined
        && C.Willing(s.client.asking, Client, call)) {
      var more := CallReturns(s, call, true);
    } else {
      forall more ensures call !in Run(s, more).returned {
        var s' := Run(s, more);
        RunKeepsJudged(s, more, call);
        RunIsLater(s, more);
        ReturnedMeans(s', call);
        if call in s'.returned {
          AnsweredMeans(s', call);
          SameWilling(s, s', call);
          assert false;
        }
      }
    }
  }

  lemma AwaitedIsSent(s: State, call: nat)
    requires Inv(s) && s.awaiting == Some(call)
    ensures call < |s.client.asking.asks| && s.client.asking.asks[call].sent
  {
    hide Facing, Numbered, CallHeld;
  }

  lemma SameWilling(s: State, s': State, call: nat)
    requires Later(s, s') && call < |s.client.asking.asks|
    ensures C.Willing(s.client.asking, Client, call) == C.Willing(s'.client.asking, Client, call)
    ensures IdOf(s.client.asking, call) == IdOf(s'.client.asking, call)
  {
    hide Canon, TicketIn;
  }

  lemma HandshakeIsAsked(s: State, ticket: Text)
    requires Inv(s) && !s.panicked && Ready(s, Client) && s.awaiting.None?
    ensures var s', call := Next(s, AskSend(Client, Connection, HandshakePayload(ticket), true)), |s.client.asking.asks|;
            && s'.awaiting == Some(call) && !s'.panicked && call < |s'.client.asking.asks|
            && s'.client.asking.asks[call] == Ask(Connection, HandshakePayload(ticket), true)
            && s'.server == s.server && s'.judged == s.judged && s'.client.asking.first == s.client.asking.first
            && s'.client.asking.results == s.client.asking.results
            && IdOf(s'.client.asking, call) == IdOf(s.client.asking, call)
  {
    hide Process, CreateRequest, HandshakePayload, Send, Facing, BorrowHeld, Numbered;
    var a := s.client.asking;
    SendExtends(a, Connection, HandshakePayload(ticket), true);
    HandshakeIsFramed(IdOf(a, |a.asks|), ticket);
  }

  lemma HandshakeIsFramed(id: u32, ticket: Text)
    ensures CreateRequest(id, Connection, HandshakePayload(ticket)).Some?
  {
    ConnectionRoundTrip(ConnectionMessage(Some(HandshakeReq(HandshakeRequest(ticket)))));
    hide EncodeRealtime, EncodeConnection, DecodeConnection;
  }

  lemma NewCallIsFresh(s: State, call: nat)
    requires Inv(s) && Judged(s, call) && call == |s.client.asking.asks|
    ensures call !in s.judged && call !in s.server.answering.declined
  {
    hide Process, Canon, TicketIn, HandshakeReply, RequestsMatch, ResponsesMatch, PromisesMatch, BorrowHeld, Numbered;
    assert RequestFlow(s.client.asking, s.client.out, s.server.answering, call);
  }

  lemma HandshakeWaits(ls: seq<Step>, ticket: Text)
    requires var s := Run(INIT, ls); !s.panicked && Ready(s, Client) && s.awaiting.None?
    requires var a := Run(INIT, ls).client.asking; IdOf(a, |a.asks|) != 0
    ensures var s := Run(INIT, ls); var call := |s.client.asking.asks|;
            var s' := Next(s, AskSend(Client, Connection, HandshakePayload(ticket), true));
            && Inv(s') && !s'.panicked && s'.awaiting == Some(call) && call < |s'.client.asking.asks|
            && s'.client.asking.asks[call] == Ask(Connection, HandshakePayload(ticket), true)
            && call !in s'.judged && IdOf(s'.client.asking, call) != 0 && call !in s'.server.answering.declined
            && C.Willing(s'.client.asking, Client, call)
  {
    hide Run, Inv, Next, Judged, Canon, TicketIn, HandshakePayload, Ready, IdOf;
    var s := Run(INIT, ls);
    var call := |s.client.asking.asks|;
    Reached(ls, call);
    NewCallIsFresh(s, call);
    HandshakeIsAsked(s, ticket);
    HandshakeIsCanonical(ticket, true);
    NextKeepsInv(s, AskSend(Client, Connection, HandshakePayload(ticket), true));
  }

  /**
   From every state in which the client is free to call, unless its next id is 0, a handshake
   with any ticket can be made and return, with whichever verdict the ticket check gives.
   */
  lemma HandshakeCanReturn(ls: seq<Step>, ticket: Text, valid: bool) returns (more: seq<Step>)
    requires var s := Run(INIT, ls); !s.panicked && Ready(s, Client) && s.awaiting.None?
    requires var a := Run(INIT, ls).client.asking; IdOf(a, |a.asks|) != 0
    ensures var s, call := Run(INIT, ls + more), |Run(INIT, ls).client.asking.asks|;
            && call in s.returned && HandshakeOutcome(s.returned[call]) == valid
            && call in s.judged && s.judged[call] == Judgement(ticket, valid)
  {
    hide Inv, Process, Next, Run, Judged, Canon, TicketIn, HandshakeOutcome, HandshakePayload, C.Willing, Ready, IdOf;
    var s := Run(INIT, ls);
    var call, l := |s.client.asking.asks|, AskSend(Client, Connection, HandshakePayload(ticket), true);
    HandshakeWaits(ls, ticket);
    var s' := Next(s, l);
    var rest := CallReturns(s', call, valid);
    more := [l] + rest;
    T.RunAppend(INIT, ls, [l]);
    C.OneStep(s, l);
    T.RunAppend(INIT, ls + [l], rest);
    assert ls + more == (ls + [l]) + rest;
    RunIsLater(s', rest);
    HandshakeEndToEnd(ls + more, call, ticket);
  }
}
