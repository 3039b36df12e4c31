/**
 The cospace actor as an object: its counter and client table change in place, and its sends
 are recorded in order. The handlers are proved to have the effect module Routing gives them.
 */
module CospaceActors {
  import opened Base
  import opened Wire
  import opened Routing

  /** Delivering recorded sends, one after the other. */
  function PostEach(actors: map<Addr, Actor>, to: seq<Addr>, m: ServiceMessage): map<Addr, Actor> {
    if to == [] then actors else PostEach(Post(actors, to[0], m), to[1..], m)
  }

  predicate NoRepeats<T(==)>(to: seq<T>) {
    forall i, j :: 0 <= i < j < |to| ==> to[i] != to[j]
  }

  /** No address is in the table twice; node-wide, entries are the actors of their own clients. */
  predicate Injective(clients: map<u32, Addr>) {
    forall i, j :: i in clients && j in clients && clients[i] == clients[j] ==> i == j
  }

  /** Sending to each of several different actors, in any order, puts one copy in each inbox. */
  lemma {:induction false} PostEachIsPostAll(actors: map<Addr, Actor>, to: seq<Addr>, m: ServiceMessage)
    requires NoRepeats(to)
    ensures PostEach(actors, to, m) == PostAll(actors, (set a | a in to), m)
  {
    if to != [] {
      var once := Post(actors, to[0], m);
      PostEachIsPostAll(once, to[1..], m);
      var rest := set a | a in to[1..];
      assert (set a | a in to) == {to[0]} + rest;
      assert to[0] !in rest;
      assert once.Keys == actors.Keys;
      assert PostAll(once, rest, m) == PostAll(actors, {to[0]} + rest, m);
    } else {
      assert PostAll(actors, {}, m) == actors;
    }
  }

  function Addresses(clients: map<u32, Addr>, ids: seq<u32>): seq<Addr>
    requires forall i :: 0 <= i < |ids| ==> ids[i] in clients
  {
    seq(|ids|, i requires 0 <= i < |ids| => clients[ids[i]])
  }

  class CospaceActor {
    const cospace: Uuid
    var clientIdCounter: u32
    var clients: map<u32, Addr>
    var pool: Pool
    var sent: seq<(Addr, ServiceMessage)>

    constructor (cospace: Uuid)
      ensures this.cospace == cospace && clientIdCounter == 1 && clients == map[] && pool == EMPTY_POOL && sent == []
    {
      this.cospace := cospace;
      clientIdCounter, clients, pool, sent := 1, map[], EMPTY_POOL, [];
    }

    /** The object as the scope its handlers work on in a node with the given actors. */
    ghost function Model(actors: map<Addr, Actor>): Scope
      reads this
    {
      Scope(Cospace(clientIdCounter, clients, [], 0, multiset{}, false), pool, actors, map[])
    }

    method GenerateClientId() returns (id: ClientId)
      modifies this`clientIdCounter
      ensures id == ClientId(old(clientIdCounter), cospace) && clientIdCounter == (old(clientIdCounter) + 1) % U32
      ensures forall k: nat :: Handle(old(Model(map[])), cospace, GenerateId(k)).upgrades == map[k := Ready(id)]
      ensures forall k: nat :: Handle(old(Model(map[])), cospace, GenerateId(k)).cospace.counter == clientIdCounter
    {
      id := ClientId(clientIdCounter, cospace);
      clientIdCounter := (clientIdCounter + 1) % U32;
    }

    method Connect(client: ClientId, addr: Addr)
      modifies this`clients, this`pool
      ensures clients == old(clients)[client.id := addr]
      ensures forall s: Service :: Queue(pool, s) == Queue(old(pool), s) + [Joined(client)]
      ensures var y := Handle(old(Model(map[])), cospace, CospaceMsg.Connect(client, addr));
              y.cospace.clients == clients && y.pool == pool
    {
      clients := clients[client.id := addr];
      pool := Broadcast(pool, Joined(client));
    }

    method Disconnect(client: ClientId)
      modifies this`clients
      ensures client.id !in clients
      ensures forall id :: id != client.id ==>
                             (id in clients <==> id in old(clients)) && (id in clients ==> clients[id] == old(clients)[id])
    {
      clients := clients - {client.id};
    }

    /** A message from a client; telling a service without a pool panics. */
    method HandleClientMessage(m: ClientMessage) returns (panicked: bool)
      modifies this`pool
      ensures var y := HandleClient(old(Model(map[])), m); y.pool == pool && y.cospace.panicked == panicked
    {
      panicked := false;
      match m.route {
        case TellAll => pool := Broadcast(pool, Incoming(m));
        case TellService(service) =>
          var p := PoolService(service);
          if p.Some? { pool := Tell(pool, p.value, Incoming(m)); } else { panicked := true; }
        case Ask(service) =>
          var p := PoolService(service);
          if p.Some? { pool := Tell(pool, p.value, Incoming(m)); }
      }
    }

    /**
     A message from a service. A broadcast visits every table entry once, in whatever order the
     table is walked; when the table holds no address twice, delivering what was sent is the
     same as putting one copy in the inbox of every client.
     */
    method HandleServiceMessage(m: ServiceMessage) returns (visited: seq<u32>)
      modifies this`sent
      ensures forall i :: 0 <= i < |visited| ==> visited[i] in clients
      ensures |sent| == |old(sent)| + |visited| && old(sent) <= sent
      ensures forall i :: 0 <= i < |visited| ==> sent[|old(sent)| + i] == (clients[visited[i]], m)
      ensures NoRepeats(visited)
      ensures m.recipient.ToCospace? ==> (set id | id in visited) == clients.Keys
      ensures m.recipient.ToClient? ==>
                visited == if m.recipient.client.id in clients then [m.recipient.client.id] else []
      ensures Injective(clients) ==> forall actors ::
                HandleService(Model(actors), m).actors == PostEach(actors, Addresses(clients, visited), m)
    {
      visited := [];
      match m.recipient {
        case ToClient(client) =>
          if client.id in clients {
            visited := [client.id];
            sent := sent + [(clients[client.id], m)];
          }
        case ToCospace(_) =>
          var left := clients.Keys;
          while left != {}
            invariant left <= clients.Keys
            invariant forall i :: 0 <= i < |visited| ==> visited[i] in clients && visited[i] !in left
            invariant forall id :: id in clients && id !in left ==> id in visited
            invariant |sent| == |old(sent)| + |visited| && old(sent) <= sent
            invariant forall i :: 0 <= i < |visited| ==> sent[|old(sent)| + i] == (clients[visited[i]], m)
            invariant NoRepeats(visited)
            decreases |left|
          {
            var id :| id in left;
            visited := visited + [id];
            sent := sent + [(clients[id], m)];
            left := left - {id};
          }
      }
      if Injective(clients) { SentReaches(m, visited); }
    }

    lemma SentReaches(m: ServiceMessage, visited: seq<u32>)
      requires Injective(clients) && NoRepeats(visited)
      requires forall i :: 0 <= i < |visited| ==> visited[i] in clients
      requires m.recipient.ToCospace? ==> (set id | id in visited) == clients.Keys
      requires m.recipient.ToClient? ==>
                 visited == if m.recipient.client.id in clients then [m.recipient.client.id] else []
      ensures forall actors :: HandleService(Model(actors), m).actors == PostEach(actors, Addresses(clients, visited), m)
    {
      var to := Addresses(clients, visited);
      assert NoRepeats(to);
      if m.recipient.ToCospace? {
        assert forall a :: a in clients.Values ==> exists id :: id in visited && clients[id] == a;
        assert (set a | a in to) == clients.Values by {
          forall id | id in visited ensures clients[id] in to {
            var i :| 0 <= i < |visited| && visited[i] == id;
            assert to[i] == clients[id];
          }
        }
      }
      forall actors ensures HandleService(Model(actors), m).actors == PostEach(actors, to, m) {
        PostEachIsPostAll(actors, to, m);
        if m.recipient.ToClient? && to != [] { assert to[1..] == []; }
      }
    }
  }
}
