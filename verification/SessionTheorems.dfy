/** What every run of a session guarantees, from a fresh connection, for any interleaving and any number of asks. */
module SessionTheorems {
  import opened Base
  import opened Wire
  import opened Framing
  import opened Counting
  import opened Peers
  import opened Session

  lemma Reached(ls: seq<Step>)
    ensures Inv(Run(INIT, ls))
  {
    InitInv();
    RunKeepsInv(INIT, ls);
  }

  // ------------------------------------------------------------ correlation

  /** The client never replaces a promise: it asks only when it has none. */
  lemma ClientNeverReplaces(ls: seq<Step>)
    ensures !Run(INIT, ls).client.asking.replaced
  {
    hide Run, Facing, Numbered;
    Reached(ls);
  }

  /**
   A completed ask of either side holds the other side's answer to one of its asks: the answer
   was given for that ask's own service and payload (as re-encoded on the way), and the result
   is that answer as re-encoded on the way back. It is the ask's own answer unless registering
   a promise, under an id other than 0, has replaced a pending one; that takes more than 2^32
   asks, and never happens on the client.
   */
  lemma Correlation(ls: seq<Step>, side: Side, ask: nat)
    requires ask in PeerOf(Run(INIT, ls), side).asking.results
    ensures var s := Run(INIT, ls);
            var a, b := PeerOf(s, side).asking, PeerOf(s, Other(side)).answering;
            var r := a.results[ask];
            && ask < |a.asks| && r.ask < |a.asks| && IdOf(a, r.ask) == IdOf(a, ask) && r.ask in b.answers
            && var made, served := a.asks[r.ask], b.answers[r.ask];
            && served.service == made.service
            && served.bytes == Canon(made.service, made.payload)
            && r.bytes == Canon(made.service, served.answer)
            && (!a.replaced || side.Client? || |a.asks| <= U32 ==> r.ask == ask)
  {
    hide Process, Canon, Run, Flow;
    Reached(ls);
    var s := Run(INIT, ls);
    var a, b := PeerOf(s, side).asking, PeerOf(s, Other(side)).answering;
    assert ResultMatches(a, b, ask) && OwnResult(a, ask);
    assert AnswerMatches(a, b, a.results[ask].ask);
  }

  /**
   Every ask is accounted for exactly once, in runs of any length. One that was not sent, or
   went out under id 0, leaves no trace on the other side; any other is a request on the wire,
   a task, declined, a response on the wire, or arrived. Unless a promise was replaced, it is
   completed exactly when its response has arrived, and its promise exists until then.
   */
  lemma Conservation(ls: seq<Step>, side: Side, ask: nat)
    requires ask < |PeerOf(Run(INIT, ls), side).asking.asks|
    ensures var s := Run(INIT, ls);
            var p, q := PeerOf(s, side), PeerOf(s, Other(side));
            var a := p.asking;
            && Count(p.out, RequestFor(ask)) + Count(q.answering.tasks, TaskFor(ask)) + One(ask in q.answering.declined)
               + Count(q.out, ResponseFor(ask)) + One(ask in a.arrived)
               == One(a.asks[ask].sent && IdOf(a, ask) != 0)
            && (!a.replaced ==> (ask in a.arrived <==> ask in a.results))
            && (!a.replaced && (IdOf(a, ask) != 0 || Below(a)) ==>
                  (Registered(a, ask) || a.inserting == Some(ask) <==> a.asks[ask].sent && ask !in a.results))
  {
    hide Run, Facing, BorrowHeld, Numbered, Count;
    Reached(ls);
    var s := Run(INIT, ls);
    var p, q := PeerOf(s, side), PeerOf(s, Other(side));
    assert Facing(p, q) && Numbered(p.asking);
    FlowOf(p, q, ask);
    PromiseOf(p, q, ask);
  }

  lemma FlowOf(p: Peer, q: Peer, ask: nat)
    requires Facing(p, q)
    ensures Count(p.out, RequestFor(ask)) + Count(q.answering.tasks, TaskFor(ask)) + One(ask in q.answering.declined)
            + Count(q.out, ResponseFor(ask)) + One(ask in p.asking.arrived)
            == One(Live(p.asking, ask))
  {
    hide Count, RequestsMatch, ResponsesMatch, PromisesMatch, Live;
    assert RequestFlow(p.asking, p.out, q.answering, ask) && ResponseFlow(p.asking, q.answering, q.out, ask);
  }

  lemma PromiseOf(p: Peer, q: Peer, ask: nat)
    requires Facing(p, q) && Numbered(p.asking) && ask < |p.asking.asks|
    ensures var a := p.asking;
            && (!a.replaced ==> (ask in a.arrived <==> ask in a.results))
            && (!a.replaced && (IdOf(a, ask) != 0 || Below(a)) ==>
                  (Registered(a, ask) || a.inserting == Some(ask) <==> a.asks[ask].sent && ask !in a.results))
  {
    hide Flow, RequestsMatch, ResponsesMatch;
    assert Kept(p.asking, ask) && OwnResult(p.asking, ask);
  }

  lemma ResponseCompletes(s: State, side: Side)
    requires Inv(s) && Enabled(s, Deliver(side)) && IsResponse(PeerOf(s, Other(side)).out[0].m)
    ensures var p := PeerOf(s, Other(side)).out[0];
            var q := Process(p.m.bytes);
            var a, a' := PeerOf(s, side).asking, PeerOf(Next(s, Deliver(side)), side).asking;
            && p.ask !in a.arrived && a'.arrived == a.arrived + {p.ask}
            && (!a.replaced ==>
                  && Registered(a, p.ask) && IdOf(a, p.ask) == q.id && p.ask !in a.results
                  && a'.results == a.results[p.ask := Result(q.bytes, p.ask)]
                  && a'.promises == a.promises - {q.id})
  {
    hide Process, Canon, Flow, RequestsMatch, ResponsesMatch, PromisesMatch, BorrowHeld, Numbered;
    var p, q := PeerOf(s, side), PeerOf(s, Other(side));
    ResponseFindsPromise(p.asking, p.out, q.answering, q.out, 0);
  }

  /**
   The request is on the wire before its promise is registered, yet no response is lost: once
   the asker handles messages again, the next response it takes completes its own ask, unless
   a promise was replaced.
   */
  lemma NoResponseIsLost(ls: seq<Step>, side: Side)
    requires var s := Run(INIT, ls);
             Enabled(s, Deliver(side)) && IsResponse(PeerOf(s, Other(side)).out[0].m)
    ensures var s := Run(INIT, ls);
            var p := PeerOf(s, Other(side)).out[0];
            var q := Process(p.m.bytes);
            var a, a' := PeerOf(s, side).asking, PeerOf(Next(s, Deliver(side)), side).asking;
            && p.ask !in a.arrived && a'.arrived == a.arrived + {p.ask}
            && (!a.replaced || side.Client? ==>
                  && Registered(a, p.ask) && IdOf(a, p.ask) == q.id && p.ask !in a.results
                  && a'.results == a.results[p.ask := Result(q.bytes, p.ask)]
                  && a'.promises == a.promises - {q.id})
  {
    hide Process, Run, Next, Inv, Enabled;
    Reached(ls);
    ClientNeverReplaces(ls);
    ResponseCompletes(Run(INIT, ls), side);
  }

  /** A response under an id without promise completes nothing, and neither does a repeated one. */
  lemma StrayResponses(a: Asking, p: Packet)
    ensures IsResponse(p.m) && Process(p.m.bytes).id !in a.promises ==>
              TakeResponse(a, p) == a.(arrived := a.arrived + {p.ask})
    ensures TakeResponse(TakeResponse(a, p), p) == TakeResponse(a, p)
  {
    hide Process;
  }

  // ----------------------------------------------------------------- id zero

  /** The steps that change the server's promises. */
  lemma OnlyServerAsks(s: State, l: Step)
    ensures var a, a' := s.server.asking, Next(s, l).server.asking;
            || a' == a
            || (a.inserting.None? && l.AskSend? && a' == Send(a, l.service, l.payload, l.ok).0)
            || a' == Insert(a)
            || (a.inserting.None? && s.client.out != [] && a' == TakeResponse(a, s.client.out[0]))
  {
    hide Process, CreateResponse, TicketIn, HandshakeReply, CreateTell, Send, Insert, TakeResponse, TakeRequest, Finish;
  }

  lemma {:induction false} IdZeroIsNeverRemoved(s: State, ls: seq<Step>)
    requires 0 in s.server.asking.promises
    ensures 0 in Run(s, ls).server.asking.promises
    decreases ls
  {
    hide Next, Process, CreateRequest;
    if ls != [] {
      OnlyServerAsks(s, ls[0]);
      if s.client.out != [] && s.client.out[0].m.Binary? { IdsAreNonzero(s.client.out[0].m.bytes); }
      IdZeroIsNeverRemoved(Next(s, ls[0]), ls[1..]);
    }
  }

  /** An ask that went out under id 0 has no result, and neither is it any ask's result. */
  lemma ZeroUnanswered(s: State, ask: nat)
    requires Inv(s) && ask in s.server.asking.results
    ensures IdOf(s.server.asking, ask) != 0 && IdOf(s.server.asking, s.server.asking.results[ask].ask) != 0
  {
    hide Flow, BorrowHeld, Numbered, PromisesMatch, Process, Canon;
    var a, b := s.server.asking, s.client.answering;
    assert ResultMatches(a, b, ask) && AnswerMatches(a, b, a.results[ask].ask);
  }

  /**
   The server's first ask goes out under id 0, and so does one in every 2^32 after it: once one
   of them is registered, a promise is pending under id 0 ever after, and none is ever completed.
   */
  lemma IdZeroStaysPending(ls: seq<Step>, more: seq<Step>)
    requires 0 in Run(INIT, ls).server.asking.promises
    ensures var a := Run(INIT, ls + more).server.asking;
            && 0 in a.promises && IdOf(a, a.promises[0]) == 0
            && (forall ask :: ask in a.results ==> IdOf(a, ask) != 0)
            && (Below(a) ==> a.promises[0] == 0)
  {
    hide Run, Process, Facing, BorrowHeld;
    RunAppend(INIT, ls, more);
    IdZeroIsNeverRemoved(Run(INIT, ls), more);
    Reached(ls + more);
    var s := Run(INIT, ls + more);
    forall ask | ask in s.server.asking.results ensures IdOf(s.server.asking, ask) != 0 { ZeroUnanswered(s, ask); }
  }

  lemma {:induction false} RunAppend(s: State, ls: seq<Step>, more: seq<Step>)
    ensures Run(s, ls + more) == Run(Run(s, ls), more)
    decreases ls
  {
    hide Next;
    if ls == [] {
      assert ls + more == more;
    } else {
      assert (ls + more)[0] == ls[0] && (ls + more)[1..] == ls[1..] + more;
      RunAppend(Next(s, ls[0]), ls[1..], more);
    }
  }

  // -------------------------------------------------------------- wraparound

  /** A new promise overwrites a pending one only if some pending promise is at least 2^32 asks old. */
  lemma WraparoundBound(ls: seq<Step>, side: Side)
    requires var a := PeerOf(Run(INIT, ls), side).asking;
             && a.inserting.Some?
             && forall earlier :: earlier in a.promises.Values ==> a.inserting.value - earlier < U32
    ensures var a := PeerOf(Run(INIT, ls), side).asking;
            IdOf(a, a.inserting.value) !in a.promises
  {
    Reached(ls);
    hide Run, Process;
    var a := PeerOf(Run(INIT, ls), side).asking;
    var id := IdOf(a, a.inserting.value);
    if id in a.promises {
      assert a.promises[id] in a.promises.Values;
      OverwriteOnlyAfterWrap(a, a.promises[id]);
    }
  }

  // ------------------------------------------------------------- client calls

  /** The client has at most one promise, under its counter's value, and holds the borrow while it does. */
  lemma SingleOutstanding(ls: seq<Step>)
    ensures var s := Run(INIT, ls);
            && (forall id :: id in s.client.asking.promises ==> id == s.client.asking.counter)
            && |s.client.asking.promises| <= 1
            && (s.client.asking.promises != map[] ==> s.awaiting.Some?)
  {
    Reached(ls);
    hide Run, Process, Facing, CallHeld;
    var s := Run(INIT, ls);
    var a := s.client.asking;
    forall id | id in a.promises ensures id == a.counter {
      assert a.promises[id] == |a.asks| - 1;
      NextIds(1, |a.asks| - 1);
    }
    if id :| id in a.promises {
      assert a.promises.Keys == {a.counter};
      assert |a.promises| == |a.promises.Keys|;
    }
  }

  // ------------------------------------------------------ what the steps send

  /** The same state with one more message in the queue of one side. */
  function WithMessage(s: State, side: Side, p: Packet): State {
    if side.Server? then s.(server := s.server.(out := s.server.out + [p]))
    else s.(client := s.client.(out := s.client.out + [p]))
  }

  /** Whenever a side is ready, tells and texts go out as they are, behind what was sent before, and change nothing else. */
  lemma TellsGoOut(s: State, side: Side, bytes: Bytes, service: RealtimeService)
    requires Ready(s, side)
    ensures Next(s, SendText(side, bytes)) == WithMessage(s, side, Packet(Text(bytes), 0))
    ensures side.Server? && !IsRequest(Binary(bytes)) && !IsResponse(Binary(bytes)) ==>
              Next(s, TellUnframed(bytes)) == WithMessage(s, Server, Packet(Binary(bytes), 0))
    ensures side.Client? ==>
              Next(s, TellFramed(service, bytes)) ==
              if CreateTell(service, bytes).None? then s
              else WithMessage(s, Client, Packet(Binary(CreateTell(service, bytes).value), 0))
  {
    hide CreateTell, Process;
  }

  /** An ask is recorded with its service and payload, and goes out if it can be framed and the socket takes it. */
  lemma AskGoesOut(s: State, side: Side, service: RealtimeService, payload: Bytes, ok: bool)
    requires Inv(s) && Ready(s, side) && (side.Client? ==> s.awaiting.None?)
    ensures var s' := Next(s, AskSend(side, service, payload, ok));
            var p, p' := PeerOf(s, side), PeerOf(s', side); var ask := |p.asking.asks|;
            var frame := CreateRequest(IdOf(p.asking, ask), service, payload);
            var sent := ok && frame.Some?;
            && PeerOf(s', Other(side)) == PeerOf(s, Other(side))
            && p'.asking.asks == p.asking.asks + [Ask(service, payload, sent)]
            && p'.out == (if sent then p.out + [Packet(Binary(frame.value), ask)] else p.out)
            && p'.asking.promises == p.asking.promises && p'.asking.inserting == (if sent then Some(ask) else None)
            && (side.Client? ==> s'.awaiting == if sent then Some(ask) else None)
  {
    hide CreateRequest, Send, Facing, BorrowHeld, Numbered;
    var a := PeerOf(s, side).asking;
    SendExtends(a, service, payload, ok);
    var ms := Send(a, service, payload, ok).1;
    assert ms == [] ==> PeerOf(s, side).out + ms == PeerOf(s, side).out;
  }

  /** The promise is registered under the id that was sent, whatever was there before. */
  lemma PromiseIsRegistered(s: State, side: Side)
    requires PeerOf(s, side).asking.inserting.Some?
    ensures var s' := Next(s, AskInsert(side)); var a, a' := PeerOf(s, side).asking, PeerOf(s', side).asking;
            && a'.promises == a.promises[IdOf(a, a.inserting.value) := a.inserting.value] && a'.inserting.None?
            && a'.asks == a.asks && a'.results == a.results && a'.counter == a.counter
            && PeerOf(s', side).out == PeerOf(s, side).out && PeerOf(s', Other(side)) == PeerOf(s, Other(side))
  {
  }

  /** An answer is recorded as it was given and goes out under the id of its request; without one, the request is declined. */
  lemma AnswerGoesOut(s: State, side: Side, i: nat, answer: Option<Bytes>)
    requires i < |PeerOf(s, side).answering.tasks|
    requires if side.Client? then Ready(s, Client) else s.server.answering.tasks[i].service != Connection
    ensures var s' := Next(s, Answer(side, i, answer));
            var p, p' := PeerOf(s, side), PeerOf(s', side); var t := p.answering.tasks[i];
            && PeerOf(s', Other(side)) == PeerOf(s, Other(side)) && p'.asking == p.asking
            && p'.answering.tasks == Remove(p.answering.tasks, i)
            && if answer.Some? && CreateResponse(t.id, t.service, answer.value).Some?
               then && p'.out == p.out + [Packet(Binary(CreateResponse(t.id, t.service, answer.value).value), t.ask)]
                    && p'.answering.answers == p.answering.answers[t.ask := Served(t.service, t.bytes, answer.value)]
               else p'.out == p.out && p'.answering.declined == p.answering.declined + {t.ask}
  {
    hide CreateResponse, Process;
    assert PeerOf(s, side).out + [] == PeerOf(s, side).out;
  }

  /** The client panics exactly when it calls while another call waits, and then does nothing else. */
  lemma PanicExactly(s: State, l: Step)
    requires !s.panicked
    ensures Next(s, l).panicked <==> l.AskSend? && l.side.Client? && Ready(s, Client) && s.awaiting.Some?
    ensures Next(s, l).panicked ==> Next(s, l) == s.(panicked := true)
  {
    hide CreateRequest, CreateResponse, CreateTell, TicketIn, HandshakeReply, Process;
  }

  /** A client that has panicked neither handles nor sends anything any more. */
  lemma {:induction false} PanickedIsSilent(s: State, ls: seq<Step>)
    requires s.panicked && s.client.asking.inserting.None?
    ensures var s' := Run(s, ls);
            && s'.panicked && s'.client.asking == s.client.asking && s'.client.answering == s.client.answering
            && s'.returned == s.returned && |s'.client.out| <= |s.client.out|
    decreases ls
  {
    if ls != [] {
      SilentStep(s, ls[0]);
      hide Next;
      PanickedIsSilent(Next(s, ls[0]), ls[1..]);
    }
  }

  lemma SilentStep(s: State, l: Step)
    requires s.panicked && s.client.asking.inserting.None?
    ensures var s' := Next(s, l);
            && s'.panicked && s'.client.asking == s.client.asking && s'.client.answering == s.client.answering
            && s'.returned == s.returned && |s'.client.out| <= |s.client.out|
  {
    hide CreateRequest, CreateResponse, CreateTell, TicketIn, HandshakeReply, Process;
  }
}
