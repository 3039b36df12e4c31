/** Counting elements of a sequence, used for conservation statements. */
module Counting {
  function One(b: bool): nat { if b then 1 else 0 }

  function Count<T>(s: seq<T>, p: T -> bool): (n: nat)
    ensures n <= |s|
  {
    if s == [] then 0 else (if p(s[0]) then 1 else 0) + Count(s[1..], p)
  }

  lemma {:induction false} CountAppend<T>(s: seq<T>, r: seq<T>, p: T -> bool)
    ensures Count(s + r, p) == Count(s, p) + Count(r, p)
  {
    if s == [] {
      assert s + r == r;
    } else {
      assert (s + r)[0] == s[0] && (s + r)[1..] == s[1..] + r;
      CountAppend(s[1..], r, p);
    }
  }

  lemma CountPush<T>(s: seq<T>, x: T, p: T -> bool)
    ensures Count(s + [x], p) == Count(s, p) + if p(x) then 1 else 0
  {
    CountAppend(s, [x], p);
    assert [x][1..] == [];
  }

  lemma CountHead<T>(s: seq<T>, p: T -> bool)
    requires s != []
    ensures Count(s, p) == Count(s[1..], p) + if p(s[0]) then 1 else 0
  {
  }

  function Remove<T>(s: seq<T>, i: nat): (r: seq<T>)
    requires i < |s|
    ensures |r| == |s| - 1
    ensures forall x :: x in r ==> x in s
  {
    s[..i] + s[i + 1..]
  }

  lemma {:induction false} CountRemove<T>(s: seq<T>, i: nat, p: T -> bool)
    requires i < |s|
    ensures Count(s, p) == Count(Remove(s, i), p) + if p(s[i]) then 1 else 0
    decreases i
  {
    if i == 0 {
      assert Remove(s, i) == s[1..];
    } else {
      CountRemove(s[1..], i - 1, p);
      assert Remove(s, i) == [s[0]] + Remove(s[1..], i - 1);
      assert Remove(s, i)[1..] == Remove(s[1..], i - 1);
    }
  }

  lemma {:induction false} CountNone<T>(s: seq<T>, p: T -> bool)
    requires forall x :: x in s ==> !p(x)
    ensures Count(s, p) == 0
  {
    if s != [] { CountNone(s[1..], p); }
  }

  lemma {:induction false} CountedElement<T>(s: seq<T>, p: T -> bool) returns (i: nat)
    requires Count(s, p) > 0
    ensures i < |s| && p(s[i])
  {
    if p(s[0]) {
      i := 0;
    } else {
      var j := CountedElement(s[1..], p);
      i := j + 1;
    }
  }
}

/**
 Requests and responses in both directions over one socket. A peer (the server's client
 connection actor or the client's message broker) numbers its own asks, keeps a promise for
 each, and answers the other side's requests from tasks that may finish in any order.

 Ids are 32-bit and wrap around, so an id does not identify an ask. For the statements about
 runs of any length the model keeps a record, next to every message, task and result, of the
 ask it belongs to. No handler looks at it.
 */
module Peers {
  import opened Base
  import opened Wire
  import opened Messages
  import opened Framing
  import opened Counting

  /** A message on its way, and the ask whose request or response it is. */
  datatype Packet = Packet(m: SocketMessage, ask: nat)

  /** A request being answered; `bytes` is what the answering service was given. */
  datatype Task = Task(id: u32, service: RealtimeService, bytes: Bytes, ask: nat)

  datatype Ask = Ask(service: RealtimeService, payload: Bytes, sent: bool)

  /** An answer given to a request, with the service and bytes it was given for. */
  datatype Served = Served(service: RealtimeService, bytes: Bytes, answer: Bytes)

  /** What a promise was completed with, and the ask which that was the response to. */
  datatype Result = Result(bytes: Bytes, ask: nat)

  /**
   The asking half of a peer. `first` is the id of its first ask: 0 on the server, which uses
   its counter and then increments it, and 1 on the client, which increments it first. A
   promise is named by the number of the ask it belongs to. The rest is record: the asks made,
   the promises completed, the asks whose response has arrived, and whether registering a
   promise under an id other than 0 ever replaced one that was still pending.
   */
  datatype Asking = Asking(
    first: u32,
    counter: u32,
    promises: map<u32, nat>,
    inserting: Option<nat>,
    asks: seq<Ask>,
    results: map<nat, Result>,
    arrived: set<nat>,
    replaced: bool)

  /** The answering half: running tasks, and a record of the requests answered or left unanswered. */
  datatype Answering = Answering(tasks: seq<Task>, answers: map<nat, Served>, declined: set<nat>)

  datatype Peer = Peer(asking: Asking, answering: Answering, out: seq<Packet>)

  function NewPeer(first: u32): Peer {
    Peer(Asking(first, 0, map[], None, [], map[], {}, false), Answering([], map[], {}), [])
  }

  function IdOf(a: Asking, ask: nat): u32 {
    (a.first + ask) % U32
  }

  /** First half of an ask: take an id and frame the request; it goes out if it can be framed and sent. */
  function Send(a: Asking, service: RealtimeService, payload: Bytes, ok: bool): (Asking, seq<Packet>) {
    var id := (a.first + a.counter) % U32;
    var frame := CreateRequest(id, service, payload);
    var sent := ok && frame.Some?;
    (a.(counter := (a.counter + 1) % U32,
        asks := a.asks + [Ask(service, payload, sent)],
        inserting := if sent then Some(|a.asks|) else None),
     if sent then [Packet(Binary(frame.value), |a.asks|)] else [])
  }

  /** Second half: register the promise. */
  function Insert(a: Asking): Asking {
    if a.inserting.None? then a
    else
      var id := IdOf(a, a.inserting.value);
      a.(promises := a.promises[id := a.inserting.value], inserting := None,
         replaced := a.replaced || (id != 0 && id in a.promises))
  }

  /** A response completes the promise under its id, if there is one. */
  function Complete(a: Asking, id: u32, bytes: Bytes, ask: nat): Asking {
    var a' := a.(arrived := a.arrived + {ask});
    if id in a.promises then
      a'.(promises := a.promises - {id}, results := a.results[a.promises[id] := Result(bytes, ask)])
    else a'
  }

  function TakeResponse(a: Asking, p: Packet): Asking {
    if IsResponse(p.m) then Complete(a, Process(p.m.bytes).id, Process(p.m.bytes).bytes, p.ask) else a
  }

  function TakeRequest(b: Answering, p: Packet): Answering {
    if IsRequest(p.m) then
      var q := Process(p.m.bytes);
      b.(tasks := b.tasks + [Task(q.id, q.service, q.bytes, p.ask)])
    else b
  }

  /** A peer handles one message from its socket. Texts, tells and undefined messages change nothing here. */
  function Receive(p: Peer, x: Packet): Peer {
    p.(asking := TakeResponse(p.asking, x), answering := TakeRequest(p.answering, x))
  }

  /** A task ends, with an answer or without; an answer that cannot be framed is dropped. */
  function Finish(b: Answering, i: nat, answer: Option<Bytes>): (Answering, seq<Packet>)
    requires i < |b.tasks|
  {
    var t := b.tasks[i];
    var frame := if answer.None? then None else CreateResponse(t.id, t.service, answer.value);
    match frame
    case None => (b.(tasks := Remove(b.tasks, i), declined := b.declined + {t.ask}), [])
    case Some(bs) =>
      (b.(tasks := Remove(b.tasks, i), answers := b.answers[t.ask := Served(t.service, t.bytes, answer.value)]),
       [Packet(Binary(bs), t.ask)])
  }

  // ------------------------------------------------- what the bytes announce

  predicate IsRequest(m: SocketMessage) { m.Binary? && Process(m.bytes).Request? }
  predicate IsResponse(m: SocketMessage) { m.Binary? && Process(m.bytes).Response? }

  function RequestFor(ask: nat): Packet -> bool {
    (p: Packet) => IsRequest(p.m) && p.ask == ask
  }

  function ResponseFor(ask: nat): Packet -> bool {
    (p: Packet) => IsResponse(p.m) && p.ask == ask
  }

  function TaskFor(ask: nat): Task -> bool {
    (t: Task) => t.ask == ask
  }

  // ------------------------------------------------------------- invariants

  /** Fewer asks than there are ids: no id has been used twice. */
  predicate Below(a: Asking) { a.first + |a.asks| <= U32 }

  /** A request that the other side can recognise as one: it was sent, and its id is not 0. */
  predicate Live(a: Asking, ask: nat) { ask < |a.asks| && a.asks[ask].sent && IdOf(a, ask) != 0 }

  /** Every live request is in exactly one place: on the wire, being answered, answered or declined. */
  predicate RequestFlow(a: Asking, aOut: seq<Packet>, b: Answering, ask: nat) {
    Count(aOut, RequestFor(ask)) + Count(b.tasks, TaskFor(ask)) + One(ask in b.answers) + One(ask in b.declined)
    == One(Live(a, ask))
  }

  /** Every answer is in exactly one place: on the wire back, or arrived. */
  predicate ResponseFlow(a: Asking, b: Answering, bOut: seq<Packet>, ask: nat) {
    Count(bOut, ResponseFor(ask)) + One(ask in a.arrived) == One(ask in b.answers)
  }

  ghost predicate Flow(a: Asking, aOut: seq<Packet>, b: Answering, bOut: seq<Packet>) {
    && (forall ask: nat :: RequestFlow(a, aOut, b, ask))
    && (forall ask: nat :: ResponseFlow(a, b, bOut, ask))
  }

  /** A request with this id, service and bytes is the one that `ask` made. */
  predicate Asked(a: Asking, ask: nat, id: u32, service: RealtimeService, bytes: Bytes) {
    && Live(a, ask) && id == IdOf(a, ask)
    && a.asks[ask].service == service && bytes == Canon(service, a.asks[ask].payload)
  }

  predicate AskedBy(a: Asking, p: Packet) {
    IsRequest(p.m) ==> var q := Process(p.m.bytes); Asked(a, p.ask, q.id, q.service, q.bytes)
  }

  predicate AnswerMatches(a: Asking, b: Answering, ask: nat) {
    ask in b.answers ==> Asked(a, ask, IdOf(a, ask), b.answers[ask].service, b.answers[ask].bytes)
  }

  ghost predicate RequestsMatch(a: Asking, aOut: seq<Packet>, b: Answering) {
    && (forall p :: p in aOut ==> AskedBy(a, p))
    && (forall t :: t in b.tasks ==> Asked(a, t.ask, t.id, t.service, t.bytes))
    && (forall ask: nat :: AnswerMatches(a, b, ask))
  }

  /** The reply to `ask` as the asker sees it, given what the answerer recorded. */
  predicate Reply(b: Answering, ask: nat, bytes: Bytes) {
    ask in b.answers && bytes == Canon(b.answers[ask].service, b.answers[ask].answer)
  }

  predicate RepliedBy(a: Asking, b: Answering, p: Packet) {
    IsResponse(p.m) ==> var q := Process(p.m.bytes); q.id == IdOf(a, p.ask) && Reply(b, p.ask, q.bytes)
  }

  /** A result is the reply to an ask that has the same id. */
  predicate ResultMatches(a: Asking, b: Answering, ask: nat) {
    ask in a.results ==>
      var r := a.results[ask];
      ask < |a.asks| && a.asks[ask].sent && IdOf(a, r.ask) == IdOf(a, ask) && Reply(b, r.ask, r.bytes)
  }

  ghost predicate ResponsesMatch(a: Asking, b: Answering, bOut: seq<Packet>) {
    && (forall p :: p in bOut ==> RepliedBy(a, b, p))
    && (forall ask: nat :: ResultMatches(a, b, ask))
  }

  predicate Registered(a: Asking, ask: nat) {
    IdOf(a, ask) in a.promises && a.promises[IdOf(a, ask)] == ask
  }

  /** Sent and registered, and no response has arrived. */
  predicate Waiting(a: Asking, ask: nat) {
    ask < |a.asks| && a.asks[ask].sent && ask !in a.arrived && a.inserting != Some(ask)
  }

  /** What is kept under the id of `ask`. Id 0 is never completed, so a later ask may only take its place. */
  predicate Kept(a: Asking, ask: nat) {
    Waiting(a, ask) ==>
      if IdOf(a, ask) == 0 then 0 in a.promises && a.promises[0] >= ask else !a.replaced ==> Registered(a, ask)
  }

  /** While nothing was replaced, responses arrive at their own promise. */
  predicate OwnResult(a: Asking, ask: nat) {
    !a.replaced ==>
      && (ask in a.arrived <==> ask in a.results)
      && (ask in a.results ==> a.results[ask].ask == ask)
  }

  ghost predicate PromisesMatch(a: Asking) {
    && (forall ask: nat :: Kept(a, ask) && OwnResult(a, ask))
    && (forall id :: id in a.promises ==>
          a.promises[id] < |a.asks| && a.asks[a.promises[id]].sent && a.promises[id] !in a.results)
    && (a.inserting.Some? ==>
          a.inserting.value < |a.asks| && a.asks[a.inserting.value].sent && a.inserting.value !in a.results)
  }

  /** What holds of one side's asks and the other side's answers. */
  ghost predicate OneWay(a: Asking, aOut: seq<Packet>, b: Answering, bOut: seq<Packet>) {
    && Flow(a, aOut, b, bOut)
    && RequestsMatch(a, aOut, b)
    && ResponsesMatch(a, b, bOut)
    && PromisesMatch(a)
  }

  predicate Frameable(service: RealtimeService) { service == Connection || service == Core }

  /** Ids follow the asks, and only a full round of ids can replace a promise. */
  predicate Numbered(a: Asking) {
    && a.first <= 1
    && a.counter == |a.asks| % U32
    && (a.inserting.Some? ==> a.inserting.value == |a.asks| - 1)
    && (forall ask :: 0 <= ask < |a.asks| && a.asks[ask].sent ==> Frameable(a.asks[ask].service))
    && (forall id :: id in a.promises ==>
          a.promises[id] < |a.asks| - One(a.inserting.Some?) && id == IdOf(a, a.promises[id]))
    && (a.replaced ==> |a.asks| > U32)
  }

  // --------------------------------------------------------------- numbering

  lemma SendNumbers(a: Asking, service: RealtimeService, payload: Bytes, ok: bool)
    requires Numbered(a) && a.inserting.None?
    ensures Numbered(Send(a, service, payload, ok).0)
    ensures (a.first + a.counter) % U32 == IdOf(a, |a.asks|)
  {
    hide CreateRequest;
    OnlyFrameable((a.first + a.counter) % U32, service, payload);
    NextIds(a.first, |a.asks|);
  }

  lemma NextIds(first: nat, asks: nat)
    ensures (first + asks % U32) % U32 == (first + asks) % U32
    ensures (asks % U32 + 1) % U32 == (asks + 1) % U32
  {
    SameResidue(first + asks % U32, first + asks);
    SameResidue(asks % U32 + 1, asks + 1);
    assert asks - asks % U32 == asks / U32 * U32;
  }

  lemma OnlyFrameable(id: u32, service: RealtimeService, payload: Bytes)
    ensures CreateRequest(id, service, payload).Some? ==> Frameable(service)
  {
    hide EncodeRealtime, DecodeConnection, DecodeCore;
  }

  /** Registering a promise replaces a pending one exactly when that one is a multiple of 2^32 asks old. */
  lemma OverwriteOnlyAfterWrap(a: Asking, earlier: nat)
    requires Numbered(a) && a.inserting.Some? && earlier in a.promises.Values
    ensures var now := a.inserting.value;
            && (IdOf(a, now) in a.promises && a.promises[IdOf(a, now)] == earlier <==> (now - earlier) % U32 == 0)
            && ((now - earlier) % U32 == 0 ==> now - earlier >= U32)
  {
    var id :| id in a.promises && a.promises[id] == earlier;
    SameResidue(a.first + a.inserting.value, a.first + earlier);
  }

  lemma SameResidue(x: int, y: int)
    ensures x % U32 == y % U32 <==> (x - y) % U32 == 0
  {
    assert x == x / U32 * U32 + x % U32 && y == y / U32 * U32 + y % U32;
  }

  lemma InsertNumbers(a: Asking)
    requires Numbered(a)
    ensures Numbered(Insert(a))
  {
    if a.inserting.Some? {
      var id := IdOf(a, a.inserting.value);
      if id in a.promises {
        assert a.promises[id] in a.promises.Values;
        OverwriteOnlyAfterWrap(a, a.promises[id]);
      }
    }
  }

  // -------------------------------------------------------------------- asks

  /** Asking adds one entry, under the next id; what was there before keeps its meaning. */
  lemma SendExtends(a: Asking, service: RealtimeService, payload: Bytes, ok: bool)
    requires Numbered(a) && a.inserting.None?
    ensures var (c, ms) := Send(a, service, payload, ok); var ask := |a.asks|;
            && c.first == a.first && c.promises == a.promises && c.results == a.results
            && c.arrived == a.arrived && c.replaced == a.replaced
            && c.asks == a.asks + [Ask(service, payload, ms != [])]
            && c.inserting == (if ms != [] then Some(ask) else None)
            && c.counter == (a.counter + 1) % U32
            && (ms != [] <==> ok && CreateRequest(IdOf(a, ask), service, payload).Some?)
            && (ms != [] ==> ms == [Packet(Binary(CreateRequest(IdOf(a, ask), service, payload).value), ask)])
  {
    hide CreateRequest;
    NextIds(a.first, |a.asks|);
  }

  /** The framed request is recognised by its receiver exactly when its id is not 0. */
  lemma SentRequest(id: u32, service: RealtimeService, payload: Bytes)
    requires CreateRequest(id, service, payload).Some?
    ensures var m := Binary(CreateRequest(id, service, payload).value);
            && !IsResponse(m)
            && (IsRequest(m) <==> id != 0)
            && (id != 0 ==> Process(m.bytes) == Request(id, service, Canon(service, payload)))
  {
    RequestRoundTrip(id, service, payload);
    hide Process, Canon, CreateRequest;
  }

  lemma SendKeepsFlow(a: Asking, aOut: seq<Packet>, b: Answering, bOut: seq<Packet>,
                      service: RealtimeService, payload: Bytes, ok: bool)
    requires OneWay(a, aOut, b, bOut) && Numbered(a) && a.inserting.None?
    ensures var (c, ms) := Send(a, service, payload, ok); Flow(c, aOut + ms, b, bOut)
  {
    hide Count, Process, Canon, CreateRequest, Send, RequestsMatch, ResponsesMatch, PromisesMatch, Numbered;
    SendExtends(a, service, payload, ok);
    var (c, ms) := Send(a, service, payload, ok);
    if ms != [] { SentRequest(IdOf(a, |a.asks|), service, payload); }
    forall ask: nat ensures RequestFlow(c, aOut + ms, b, ask) {
      assert RequestFlow(a, aOut, b, ask);
      if ms == [] {
        assert aOut + ms == aOut;
      } else {
        CountPush(aOut, ms[0], RequestFor(ask));
      }
    }
    forall ask: nat ensures ResponseFlow(c, b, bOut, ask) {
      assert ResponseFlow(a, b, bOut, ask);
    }
  }

  /** Statements about asks made before stay true when asks are added. */
  predicate Grows(a: Asking, c: Asking) { c.first == a.first && a.asks <= c.asks }

  lemma RequestsStay(a: Asking, c: Asking, aOut: seq<Packet>, b: Answering)
    requires RequestsMatch(a, aOut, b) && Grows(a, c)
    ensures RequestsMatch(c, aOut, b)
  {
    hide Process, Canon;
    forall p | p in aOut ensures AskedBy(c, p) { assert AskedBy(a, p); }
    forall ask: nat ensures AnswerMatches(c, b, ask) { assert AnswerMatches(a, b, ask); }
  }

  lemma ResponsesStay(a: Asking, c: Asking, b: Answering, bOut: seq<Packet>)
    requires ResponsesMatch(a, b, bOut) && Grows(a, c) && c.results == a.results
    ensures ResponsesMatch(c, b, bOut)
  {
    hide Process, Canon;
    forall p | p in bOut ensures RepliedBy(c, b, p) { assert RepliedBy(a, b, p); }
    forall ask: nat ensures ResultMatches(c, b, ask) { assert ResultMatches(a, b, ask); }
  }

  lemma SendKeepsMatches(a: Asking, aOut: seq<Packet>, b: Answering, bOut: seq<Packet>,
                         service: RealtimeService, payload: Bytes, ok: bool)
    requires RequestsMatch(a, aOut, b) && ResponsesMatch(a, b, bOut) && Numbered(a) && a.inserting.None?
    ensures var (c, ms) := Send(a, service, payload, ok);
            RequestsMatch(c, aOut + ms, b) && ResponsesMatch(c, b, bOut)
  {
    hide Process, Canon, CreateRequest, Send, ResponsesMatch, Numbered, AnswerMatches;
    SendExtends(a, service, payload, ok);
    var (c, ms) := Send(a, service, payload, ok);
    ResponsesStay(a, c, b, bOut);
    RequestsStay(a, c, aOut, b);
    if ms != [] { SentRequest(IdOf(a, |a.asks|), service, payload); }
    forall p | p in ms ensures AskedBy(c, p) { }
  }

  lemma SendKeepsPromises(a: Asking, b: Answering, bOut: seq<Packet>,
                          service: RealtimeService, payload: Bytes, ok: bool)
    requires PromisesMatch(a) && ResponsesMatch(a, b, bOut) && Numbered(a) && a.inserting.None?
    ensures PromisesMatch(Send(a, service, payload, ok).0)
  {
    hide Process, Canon, CreateRequest, Send, Numbered;
    SendExtends(a, service, payload, ok);
    var (c, ms) := Send(a, service, payload, ok);
    assert ResultMatches(a, b, |a.asks|);
    forall ask: nat ensures Kept(c, ask) && OwnResult(c, ask) {
      assert Kept(a, ask) && OwnResult(a, ask);
    }
  }

  lemma SendKeeps(a: Asking, aOut: seq<Packet>, b: Answering, bOut: seq<Packet>,
                  service: RealtimeService, payload: Bytes, ok: bool)
    requires OneWay(a, aOut, b, bOut) && Numbered(a) && a.inserting.None?
    ensures var (c, ms) := Send(a, service, payload, ok); OneWay(c, aOut + ms, b, bOut)
  {
    SendKeepsFlow(a, aOut, b, bOut, service, payload, ok);
    SendKeepsMatches(a, aOut, b, bOut, service, payload, ok);
    SendKeepsPromises(a, b, bOut, service, payload, ok);
    hide Flow, RequestsMatch, ResponsesMatch, PromisesMatch, Process, Canon, CreateRequest, Send;
  }

  lemma InsertKeeps(a: Asking, aOut: seq<Packet>, b: Answering, bOut: seq<Packet>)
    requires OneWay(a, aOut, b, bOut) && Numbered(a)
    ensures OneWay(Insert(a), aOut, b, bOut)
  {
    hide RequestsMatch, ResponsesMatch, PromisesMatch, Count;
    RequestsStay(a, Insert(a), aOut, b);
    ResponsesStay(a, Insert(a), b, bOut);
    InsertKeepsPromises(a);
    forall ask: nat ensures RequestFlow(Insert(a), aOut, b, ask) && ResponseFlow(Insert(a), b, bOut, ask) {
      assert RequestFlow(a, aOut, b, ask) && ResponseFlow(a, b, bOut, ask);
    }
  }

  lemma InsertKeepsPromises(a: Asking)
    requires PromisesMatch(a) && Numbered(a)
    ensures PromisesMatch(Insert(a))
  {
    var c := Insert(a);
    if a.inserting.Some? {
      forall ask: nat ensures Kept(c, ask) && OwnResult(c, ask) {
        assert Kept(a, ask) && OwnResult(a, ask);
      }
    }
  }

  // ------------------------------------- messages of no concern to these asks

  /** Whatever is no request can be added to the asker's queue. */
  lemma PushBesideRequests(a: Asking, aOut: seq<Packet>, b: Answering, bOut: seq<Packet>, p: Packet)
    requires OneWay(a, aOut, b, bOut) && !IsRequest(p.m)
    ensures OneWay(a, aOut + [p], b, bOut)
  {
    hide Count, Process, Canon, PromisesMatch;
    forall ask: nat ensures RequestFlow(a, aOut + [p], b, ask) {
      assert RequestFlow(a, aOut, b, ask);
      CountPush(aOut, p, RequestFor(ask));
    }
  }

  /** Whatever is no response can be added to the answerer's queue. */
  lemma PushBesideResponses(a: Asking, aOut: seq<Packet>, b: Answering, bOut: seq<Packet>, p: Packet)
    requires OneWay(a, aOut, b, bOut) && !IsResponse(p.m)
    ensures OneWay(a, aOut, b, bOut + [p])
  {
    hide Count, Process, Canon, PromisesMatch;
    forall ask: nat ensures ResponseFlow(a, b, bOut + [p], ask) {
      assert ResponseFlow(a, b, bOut, ask);
      CountPush(bOut, p, ResponseFor(ask));
    }
  }

  // ------------------------------------------------------ receiving messages

  /** The answerer takes a message off the asker's queue: a request becomes a task. */
  lemma TakeRequestKeeps(a: Asking, aOut: seq<Packet>, b: Answering, bOut: seq<Packet>)
    requires OneWay(a, aOut, b, bOut) && aOut != []
    ensures OneWay(a, aOut[1..], TakeRequest(b, aOut[0]), bOut)
  {
    hide Count, Process, Canon, PromisesMatch;
    var p, c := aOut[0], TakeRequest(b, aOut[0]);
    assert AskedBy(a, p);
    forall ask: nat ensures RequestFlow(a, aOut[1..], c, ask) {
      assert RequestFlow(a, aOut, b, ask);
      CountHead(aOut, RequestFor(ask));
      if IsRequest(p.m) { CountPush(b.tasks, c.tasks[|b.tasks|], TaskFor(ask)); }
    }
    forall ask: nat ensures ResponseFlow(a, c, bOut, ask) { assert ResponseFlow(a, b, bOut, ask); }
    forall ask: nat ensures AnswerMatches(a, c, ask) { assert AnswerMatches(a, b, ask); }
    AnswersGrow(a, b, c, bOut);
  }

  /** Replies that were recorded stay recorded. */
  lemma AnswersGrow(a: Asking, b: Answering, c: Answering, bOut: seq<Packet>)
    requires ResponsesMatch(a, b, bOut)
    requires forall ask :: ask in b.answers ==> ask in c.answers && c.answers[ask] == b.answers[ask]
    ensures ResponsesMatch(a, c, bOut)
  {
    hide Process, Canon;
    forall p | p in bOut ensures RepliedBy(a, c, p) { assert RepliedBy(a, b, p); }
    forall ask: nat ensures ResultMatches(a, c, ask) { assert ResultMatches(a, b, ask); }
  }

  /**
   A response on the wire is for a live ask whose response has not arrived; unless a promise
   was replaced, the promise under its id is the one of that ask, or about to be.
   */
  lemma ResponseFindsPromise(a: Asking, aOut: seq<Packet>, b: Answering, bOut: seq<Packet>, i: nat)
    requires OneWay(a, aOut, b, bOut) && i < |bOut| && IsResponse(bOut[i].m)
    ensures var q, ask := Process(bOut[i].m.bytes), bOut[i].ask;
            && Live(a, ask) && ask !in a.arrived && q.id == IdOf(a, ask) && q.id != 0
            && Reply(b, ask, q.bytes) && b.answers[ask].service == a.asks[ask].service
            && (!a.replaced ==> ask !in a.results && (Registered(a, ask) || a.inserting == Some(ask)))
  {
    hide Process, Canon;
    var p := bOut[i];
    assert RepliedBy(a, b, p);
    assert RequestFlow(a, aOut, b, p.ask) && ResponseFlow(a, b, bOut, p.ask);
    CountRemove(bOut, i, ResponseFor(p.ask));
    assert AnswerMatches(a, b, p.ask);
    assert Kept(a, p.ask) && OwnResult(a, p.ask);
  }

  lemma CompleteKeepsPromises(a: Asking, id: u32, bytes: Bytes, ask: nat)
    requires PromisesMatch(a) && Numbered(a) && a.inserting.None?
    requires Live(a, ask) && ask !in a.arrived && id == IdOf(a, ask)
    ensures PromisesMatch(Complete(a, id, bytes, ask))
  {
    var c := Complete(a, id, bytes, ask);
    forall k: nat ensures Kept(c, k) && OwnResult(c, k) {
      assert Kept(a, k) && OwnResult(a, k) && Kept(a, ask) && OwnResult(a, ask);
    }
  }

  lemma CompleteKeepsResponses(a: Asking, b: Answering, bOut: seq<Packet>, id: u32, bytes: Bytes, ask: nat)
    requires ResponsesMatch(a, b, bOut) && PromisesMatch(a) && Numbered(a) && bOut != []
    requires id == IdOf(a, ask) && Reply(b, ask, bytes)
    ensures ResponsesMatch(Complete(a, id, bytes, ask), b, bOut[1..])
  {
    hide Process, Canon, Kept, OwnResult;
    var c := Complete(a, id, bytes, ask);
    forall p | p in bOut[1..] ensures RepliedBy(c, b, p) { assert RepliedBy(a, b, p); }
    forall k: nat ensures ResultMatches(c, b, k) { assert ResultMatches(a, b, k); }
  }

  lemma CompleteKeepsMatches(a: Asking, aOut: seq<Packet>, b: Answering, bOut: seq<Packet>)
    requires OneWay(a, aOut, b, bOut) && Numbered(a) && a.inserting.None? && bOut != []
    ensures var c := TakeResponse(a, bOut[0]);
            PromisesMatch(c) && RequestsMatch(c, aOut, b) && ResponsesMatch(c, b, bOut[1..])
  {
    hide Flow, Count, Process, Canon, PromisesMatch, RequestsMatch, Numbered;
    var p := bOut[0];
    RequestsStay(a, TakeResponse(a, p), aOut, b);
    if IsResponse(p.m) {
      var q := Process(p.m.bytes);
      ResponseFindsPromise(a, aOut, b, bOut, 0);
      CompleteKeepsPromises(a, q.id, q.bytes, p.ask);
      CompleteKeepsResponses(a, b, bOut, q.id, q.bytes, p.ask);
    }
  }

  /** The asker takes a message off the answerer's queue: a response completes the promise under its id. */
  lemma TakeResponseKeeps(a: Asking, aOut: seq<Packet>, b: Answering, bOut: seq<Packet>)
    requires OneWay(a, aOut, b, bOut) && Numbered(a) && a.inserting.None? && bOut != []
    ensures OneWay(TakeResponse(a, bOut[0]), aOut, b, bOut[1..])
  {
    hide Count, Process, Canon, PromisesMatch, RequestsMatch, ResponsesMatch, Numbered;
    var p, c := bOut[0], TakeResponse(a, bOut[0]);
    CompleteKeepsMatches(a, aOut, b, bOut);
    if IsResponse(p.m) { ResponseFindsPromise(a, aOut, b, bOut, 0); }
    forall ask: nat ensures RequestFlow(c, aOut, b, ask) && ResponseFlow(c, b, bOut[1..], ask) {
      assert RequestFlow(a, aOut, b, ask) && ResponseFlow(a, b, bOut, ask);
      CountHead(bOut, ResponseFor(ask));
    }
  }

  // --------------------------------------------------------- finishing tasks

  /** While a request is being answered there is one task for it, no answer yet, and no response. */
  lemma TaskIsUnique(a: Asking, aOut: seq<Packet>, b: Answering, bOut: seq<Packet>, i: nat)
    requires OneWay(a, aOut, b, bOut) && i < |b.tasks|
    ensures var t := b.tasks[i];
            && Live(a, t.ask) && Asked(a, t.ask, t.id, t.service, t.bytes) && t.id != 0
            && t.ask !in b.answers && t.ask !in b.declined
            && Count(bOut, ResponseFor(t.ask)) == 0 && t.ask !in a.arrived
  {
    hide Process, Canon, PromisesMatch;
    var t := b.tasks[i];
    assert RequestFlow(a, aOut, b, t.ask) && ResponseFlow(a, b, bOut, t.ask);
    CountRemove(b.tasks, i, TaskFor(t.ask));
  }

  lemma SentResponse(id: u32, service: RealtimeService, answer: Bytes)
    requires id != 0 && CreateResponse(id, service, answer).Some?
    ensures var m := Binary(CreateResponse(id, service, answer).value);
            IsResponse(m) && !IsRequest(m) && Process(m.bytes) == Response(id, service, Canon(service, answer))
  {
    ResponseRoundTrip(id, service, answer);
    hide Process, Canon, CreateResponse;
  }

  lemma FinishKeepsFlow(a: Asking, aOut: seq<Packet>, b: Answering, bOut: seq<Packet>,
                        i: nat, answer: Option<Bytes>)
    requires OneWay(a, aOut, b, bOut) && i < |b.tasks|
    ensures var (c, ms) := Finish(b, i, answer); Flow(a, aOut, c, bOut + ms)
  {
    hide Count, Process, Canon, CreateResponse, RequestsMatch, ResponsesMatch, PromisesMatch, Live;
    var t := b.tasks[i];
    var (c, ms) := Finish(b, i, answer);
    TaskIsUnique(a, aOut, b, bOut, i);
    if ms != [] { SentResponse(t.id, t.service, answer.value); }
    forall ask: nat ensures RequestFlow(a, aOut, c, ask) && ResponseFlow(a, c, bOut + ms, ask) {
      assert RequestFlow(a, aOut, b, ask) && ResponseFlow(a, b, bOut, ask);
      CountRemove(b.tasks, i, TaskFor(ask));
      if ms == [] {
        assert bOut + ms == bOut;
      } else {
        CountPush(bOut, ms[0], ResponseFor(ask));
      }
    }
  }

  lemma FinishKeepsMatches(a: Asking, aOut: seq<Packet>, b: Answering, bOut: seq<Packet>,
                           i: nat, answer: Option<Bytes>)
    requires OneWay(a, aOut, b, bOut) && i < |b.tasks|
    ensures var (c, ms) := Finish(b, i, answer); RequestsMatch(a, aOut, c) && ResponsesMatch(a, c, bOut + ms)
  {
    hide Flow, Count, Process, Canon, CreateResponse, PromisesMatch, Live;
    var t := b.tasks[i];
    var (c, ms) := Finish(b, i, answer);
    TaskIsUnique(a, aOut, b, bOut, i);
    AnswersGrow(a, b, c, bOut);
    if ms != [] { SentResponse(t.id, t.service, answer.value); }
    forall p | p in ms ensures RepliedBy(a, c, p) { }
    forall ask: nat ensures AnswerMatches(a, c, ask) { assert AnswerMatches(a, b, ask); }
  }

  lemma FinishKeeps(a: Asking, aOut: seq<Packet>, b: Answering, bOut: seq<Packet>,
                    i: nat, answer: Option<Bytes>)
    requires OneWay(a, aOut, b, bOut) && i < |b.tasks|
    ensures var (c, ms) := Finish(b, i, answer); OneWay(a, aOut, c, bOut + ms)
  {
    FinishKeepsFlow(a, aOut, b, bOut, i, answer);
    FinishKeepsMatches(a, aOut, b, bOut, i, answer);
    hide Flow, RequestsMatch, ResponsesMatch, PromisesMatch, Process, Canon, CreateResponse, Finish;
  }
}
