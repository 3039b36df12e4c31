/**
 The objects that hold a peer's state and change it in place: the server's client connection
 actor and the client's message broker. Each method is proved to do what the functions of
 modules Peers and Session say; an ask sends its request and registers its promise in one call.
 */
module Actors {
  import opened Base
  import opened Wire
  import opened Framing
  import opened Counting
  import opened Peers
  import S = Session

  /** Sending a request and then registering its promise under the id that was sent. */
  function AskAtOnce(p: Peer, service: RealtimeService, payload: Bytes, ok: bool): Peer {
    var q := S.DoAsk(p, service, payload, ok);
    q.(asking := Insert(q.asking))
  }

  lemma AskAtOnceParts(p: Peer, service: RealtimeService, payload: Bytes, ok: bool)
    requires Numbered(p.asking) && p.asking.inserting.None?
    ensures var q := AskAtOnce(p, service, payload, ok);
            var a, ask := p.asking, |p.asking.asks|;
            var id := (a.first + a.counter) % U32;
            var frame := CreateRequest(id, service, payload);
            var sent := ok && frame.Some?;
            && Numbered(q.asking) && q.asking.inserting.None?
            && q == Peer(a.(counter := (a.counter + 1) % U32,
                            asks := a.asks + [Ask(service, payload, sent)],
                            promises := if sent then a.promises[id := ask] else a.promises,
                            replaced := a.replaced || (sent && id != 0 && id in a.promises)),
                         p.answering, if sent then p.out + [Packet(Binary(frame.value), ask)] else p.out)
  {
    hide Send, CreateRequest, Numbered;
    var a := p.asking;
    var (c, ms) := Send(a, service, payload, ok);
    SendNumbers(a, service, payload, ok);
    SendExtends(a, service, payload, ok);
    InsertNumbers(c);
    assert p.out + [] == p.out;
  }

  /**
   One connected client, as the server sees it. A promise is named by the number of its ask,
   and so are the messages that belong to it; `completed` is what the promises hold.
   */
  class ClientConnectionActor {
    var requestIdCounter: u32
    var servicePromises: map<u32, nat>
    var socketTx: seq<Packet>
    var tasks: seq<Task>
    var completed: map<nat, Result>
    var made: nat
    ghost var asks: seq<Ask>
    ghost var arrived: set<nat>
    ghost var replaced: bool
    ghost var answers: map<nat, Served>
    ghost var declined: set<nat>

    ghost function Model(): Peer
      reads this
    {
      Peer(Asking(0, requestIdCounter, servicePromises, None, asks, completed, arrived, replaced),
           Answering(tasks, answers, declined), socketTx)
    }

    ghost predicate Valid() reads this { Numbered(Model().asking) && made == |asks| }

    constructor ()
      ensures Valid() && Model() == NewPeer(0)
    {
      requestIdCounter, servicePromises, socketTx, tasks, completed, made := 0, map[], [], [], map[], 0;
      asks, arrived, replaced, answers, declined := [], {}, false, map[], {};
    }

    /** A service asks the client. Texts cannot be asked; an id is used up even if nothing can be sent. */
    method RecvReqFromService(service: RealtimeService, payload: SocketMessage, ok: bool) returns (promise: Option<nat>)
      requires Valid()
      modifies this
      ensures Valid()
      ensures payload.Text? ==> promise == None && Model() == old(Model())
      ensures payload.Binary? ==> Model() == AskAtOnce(old(Model()), service, payload.bytes, ok)
      ensures promise.Some? <==> |socketTx| > |old(socketTx)|
      ensures promise.Some? ==> promise.value in servicePromises.Values && promise.value == |old(asks)|
    {
      hide CreateRequest, AskAtOnce, Numbered;
      promise := None;
      if payload.Binary? {
        AskAtOnceParts(Model(), service, payload.bytes, ok);
        var requestId := requestIdCounter;
        requestIdCounter := (requestIdCounter + 1) % U32;
        var message := CreateRequest(requestId, service, payload.bytes);
        asks := asks + [Ask(service, payload.bytes, ok && message.Some?)];
        if message.Some? && ok {
          socketTx := socketTx + [Packet(Binary(message.value), made)];
          replaced := replaced || (requestId != 0 && requestId in servicePromises);
          servicePromises := servicePromises[requestId := made];
          assert servicePromises[requestId] == made;
          promise := Some(made);
        }
        made := made + 1;
      }
    }

    /** A service tells the client: the payload goes out as it is. */
    method RecvTellFromService(payload: SocketMessage)
      modifies this
      ensures socketTx == old(socketTx) + [Packet(payload, 0)]
      ensures Model() == S.Push(old(Model()), payload) && made == old(made)
      ensures Model() == old(Model()).(out := socketTx)
    {
      socketTx := socketTx + [Packet(payload, 0)];
    }

    /** Bytes from the client's socket. */
    method RecvProtoMsgFromClient(bytes: Bytes, about: nat)
      requires Valid()
      modifies this
      ensures Valid() && Model() == Receive(old(Model()), Packet(Binary(bytes), about))
    {
      hide Process;
      match Process(bytes) {
        case Request(id, service, payload) =>
          tasks := tasks + [Task(id, service, payload, about)];
        case Response(id, service, payload) =>
          arrived := arrived + {about};
          if id in servicePromises {
            var promise := servicePromises[id];
            servicePromises := servicePromises - {id};
            completed := completed[promise := Result(payload, about)];
          }
        case _ =>
      }
    }

    /** The answer to a client's request is ready, or there is none. */
    method FinishTask(i: nat, answer: Option<Bytes>)
      requires Valid() && i < |tasks|
      modifies this
      ensures Valid() && Model() == S.DoAnswer(old(Model()), i, answer)
    {
      hide CreateResponse;
      var task := tasks[i];
      tasks := Remove(tasks, i);
      var message := if answer.None? then None else CreateResponse(task.id, task.service, answer.value);
      if message.Some? {
        socketTx := socketTx + [Packet(Binary(message.value), task.ask)];
        answers := answers[task.ask := Served(task.service, task.bytes, answer.value)];
      } else {
        declined := declined + {task.ask};
        assert socketTx + [] == socketTx;
      }
    }
  }

  /** What a client's call to the server comes to at first. */
  datatype CallStatus = Panicked | Returned | Awaiting(call: nat)

  /** The client's side. The counter stays borrowed while a call waits for its response. */
  class RealtimeMessageBroker {
    var requestIdCounter: u32
    var servicePromises: map<u32, nat>
    var socket: seq<Packet>
    var tasks: seq<Task>
    var completed: map<nat, Result>
    var made: nat
    var borrowedBy: Option<nat>
    ghost var asks: seq<Ask>
    ghost var arrived: set<nat>
    ghost var replaced: bool
    ghost var answers: map<nat, Served>
    ghost var declined: set<nat>

    ghost function Model(): Peer
      reads this
    {
      Peer(Asking(1, requestIdCounter, servicePromises, None, asks, completed, arrived, replaced),
           Answering(tasks, answers, declined), socket)
    }

    /** At most one promise: under the counter's value, of the call that holds the borrow, and not completed. */
    ghost predicate Valid()
      reads this
    {
      && Numbered(Model().asking) && made == |asks|
      && (forall call :: call in completed ==> call < made)
      && (forall id :: id in servicePromises ==>
            id == requestIdCounter && borrowedBy == Some(servicePromises[id]) && servicePromises[id] !in completed)
    }

    constructor ()
      ensures Valid() && Model() == NewPeer(1) && borrowedBy == None
    {
      requestIdCounter, servicePromises, socket, tasks, completed, made := 0, map[], [], [], map[], 0;
      borrowedBy, asks, arrived, replaced, answers, declined := None, [], {}, false, map[], {};
    }

    method SendProtoRequestToServer(service: RealtimeService, payload: Bytes, ok: bool) returns (status: CallStatus)
      requires Valid()
      modifies this
      ensures Valid()
      ensures status.Panicked? <==> old(borrowedBy).Some?
      ensures status.Panicked? ==> Model() == old(Model()) && borrowedBy == old(borrowedBy)
      ensures !status.Panicked? ==> Model() == AskAtOnce(old(Model()), service, payload, ok) && replaced == old(replaced)
      ensures !status.Panicked? ==> borrowedBy == if status.Awaiting? then Some(status.call) else None
      ensures status.Awaiting? ==> requestIdCounter in servicePromises
                                   && servicePromises[requestIdCounter] == status.call == |old(asks)|
    {
      hide CreateRequest, AskAtOnce, Numbered;
      if borrowedBy.Some? {
        return Panicked;
      }
      AskAtOnceParts(Model(), service, payload, ok);
      var nextId := (requestIdCounter + 1) % U32;
      requestIdCounter := nextId;
      var message := CreateRequest(nextId, service, payload);
      assert servicePromises == map[];
      asks := asks + [Ask(service, payload, ok && message.Some?)];
      if message.Some? && ok {
        socket := socket + [Packet(Binary(message.value), made)];
        servicePromises := servicePromises[nextId := made];
        borrowedBy := Some(made);
        status := Awaiting(made);
      } else {
        status := Returned;
      }
      made := made + 1;
    }

    /** The response of the waiting call has arrived: the call ends with it and gives the counter back. */
    method Resume() returns (response: Bytes)
      requires Valid() && borrowedBy.Some? && borrowedBy.value in completed
      modifies this
      ensures Valid() && borrowedBy == None && Model() == old(Model()) && response == completed[old(borrowedBy).value].bytes
      ensures servicePromises == map[]
    {
      response := completed[borrowedBy.value].bytes;
      borrowedBy := None;
    }

    /** A kernel has answered a request of the server, or has no answer to it. */
    method AnswerServer(i: nat, answer: Option<Bytes>)
      requires Valid() && i < |tasks|
      modifies this
      ensures Valid() && Model() == S.DoAnswer(old(Model()), i, answer) && borrowedBy == old(borrowedBy)
    {
      hide CreateResponse;
      var task := tasks[i];
      tasks := Remove(tasks, i);
      if answer.Some? && CreateResponse(task.id, task.service, answer.value).Some? {
        socket := socket + [Packet(Binary(CreateResponse(task.id, task.service, answer.value).value), task.ask)];
        answers := answers[task.ask := Served(task.service, task.bytes, answer.value)];
      } else {
        declined := declined + {task.ask};
        assert socket + [] == socket;
      }
    }

    method RecvProtoMsgFromServer(bytes: Bytes, about: nat)
      requires Valid()
      modifies this
      ensures Valid() && Model() == Receive(old(Model()), Packet(Binary(bytes), about)) && borrowedBy == old(borrowedBy)
    {
      hide Process;
      match Process(bytes) {
        case Request(id, service, payload) =>
          tasks := tasks + [Task(id, service, payload, about)];
        case Response(id, service, payload) =>
          arrived := arrived + {about};
          if id in servicePromises {
            var promise := servicePromises[id];
            servicePromises := servicePromises - {id};
            completed := completed[promise := Result(payload, about)];
          }
        case _ =>
      }
    }
  }
}
