/**
 A node that hosts cospaces: their actors and mailboxes, the pool of services they use, and
 the connection actors of their clients. A pool is shared by all cospaces of the node or
 dedicated to one; client ids are unique only inside a cospace. Mailboxes are reliable, and
 every handler is one step. A service pool may run several actors on one queue, so a step may
 take any message of a queue, not only the first.
 */
module Routing {
  import opened Base
  import opened Wire
  import opened Counting
  import F = Framing

  datatype ClientId = ClientId(id: u32, cospace: Uuid)
  datatype ClientRoute = TellAll | TellService(service: F.RealtimeService) | Ask(service: F.RealtimeService)
  datatype ClientMessage = ClientMessage(route: ClientRoute, client: ClientId, payload: SocketMessage)

  datatype Recipient = ToClient(client: ClientId) | ToCospace(cospace: Uuid)
  datatype ServiceMessage = ServiceMessage(sender: F.RealtimeService, recipient: Recipient, payload: SocketMessage)

  /** The services that run in a pool. */
  datatype Service = Core | Presence | Activity | Model

  datatype PoolMsg = Joined(client: ClientId) | Incoming(m: ClientMessage)
  datatype Pool = Pool(core: seq<PoolMsg>, presence: seq<PoolMsg>, activity: seq<PoolMsg>, model: seq<PoolMsg>)

  datatype CospaceMsg =
    | GenerateId(upgrade: nat)
    | Connect(client: ClientId, addr: Addr)
    | FromClient(c: ClientMessage)
    | FromService(s: ServiceMessage)

  /** `issued` and `dropped` record the ids generated and the messages that found no client. */
  datatype Cospace = Cospace(
    counter: u32,
    clients: map<u32, Addr>,
    mailbox: seq<CospaceMsg>,
    issued: nat,
    dropped: multiset<u32>,
    panicked: bool)

  datatype ActorMsg = FromSocket(payload: SocketMessage) | FromCospace(m: ServiceMessage)

  /** How far the cospace has heard of a connection actor. */
  datatype Link = Unannounced | Announced | Linked

  /** `accepted` counts the texts that arrived on the socket. */
  datatype Actor = Actor(client: ClientId, inbox: seq<ActorMsg>, socket: seq<SocketMessage>, link: Link, accepted: nat)

  /** A websocket upgrade waiting for its client id, waiting for its actor, or done. */
  datatype Upgrade = Waiting(cospace: Uuid) | Ready(client: ClientId) | Done(client: ClientId)

  datatype Allocation = Shared | Dedicated(cospace: Uuid)

  /** `registry` is the table in which shared services look cospaces up; a cospace runs before it is in it. */
  datatype Node = Node(
    alloc: Allocation,
    cospaces: map<Uuid, Cospace>,
    registry: set<Uuid>,
    pool: Pool,
    actors: map<Addr, Actor>,
    upgrades: map<nat, Upgrade>)

  const NEW_COSPACE := Cospace(1, map[], [], 0, multiset{}, false)
  const EMPTY_POOL := Pool([], [], [], [])
  const SHARED_NODE := Node(Shared, map[], {}, EMPTY_POOL, map[], map[])

  // ------------------------------------------------------------ service pool

  function Queue(p: Pool, s: Service): seq<PoolMsg> {
    match s case Core => p.core case Presence => p.presence case Activity => p.activity case Model => p.model
  }

  function WithQueue(p: Pool, s: Service, q: seq<PoolMsg>): Pool {
    match s
    case Core => p.(core := q)
    case Presence => p.(presence := q)
    case Activity => p.(activity := q)
    case Model => p.(model := q)
  }

  function Tell(p: Pool, s: Service, m: PoolMsg): Pool { WithQueue(p, s, Queue(p, s) + [m]) }

  function Broadcast(p: Pool, m: PoolMsg): Pool {
    Pool(p.core + [m], p.presence + [m], p.activity + [m], p.model + [m])
  }

  /** Services without a pool (logging, which stands for every other wire service) have no address. */
  function PoolService(s: F.RealtimeService): Option<Service> {
    match s
    case Core => Some(Core)
    case Presence => Some(Presence)
    case Activity => Some(Activity)
    case Model => Some(Model)
    case _ => None
  }

  function WireService(s: Service): F.RealtimeService {
    match s
    case Core => F.Core
    case Presence => F.Presence
    case Activity => F.Activity
    case Model => F.Model
  }

  const REPLY: Bytes := [77, 79, 67, 75, 69, 82, 95, 82, 69, 80, 76, 89, 95, 84, 79, 95, 67, 76, 73, 69, 78, 84]

  /** The service of the repository: it answers texts with a text to their sender and ignores the rest. */
  function Mocker(s: Service, m: PoolMsg): Option<ServiceMessage> {
    if m.Incoming? && !m.m.route.Ask? && m.m.payload.Text? then
      Some(ServiceMessage(WireService(s), ToClient(m.m.client), Text(REPLY)))
    else None
  }

  // ----------------------------------------------------------------- cospace

  function CospaceOf(r: Recipient): Uuid {
    match r case ToClient(c) => c.cospace case ToCospace(u) => u
  }

  /** A dedicated service always talks to its own cospace; a shared one looks the recipient's up. */
  function CospaceAddr(alloc: Allocation, registry: set<Uuid>, r: Recipient): Option<Uuid> {
    match alloc
    case Dedicated(u) => Some(u)
    case Shared => if CospaceOf(r) in registry then Some(CospaceOf(r)) else None
  }

  function Mail(c: Cospace, m: CospaceMsg): Cospace { c.(mailbox := c.mailbox + [m]) }

  function Post(actors: map<Addr, Actor>, a: Addr, m: ServiceMessage): map<Addr, Actor> {
    if a in actors then actors[a := actors[a].(inbox := actors[a].inbox + [FromCospace(m)])] else actors
  }

  function PostAll(actors: map<Addr, Actor>, to: set<Addr>, m: ServiceMessage): map<Addr, Actor> {
    map a | a in actors :: if a in to then actors[a].(inbox := actors[a].inbox + [FromCospace(m)]) else actors[a]
  }

  function Linking(actors: map<Addr, Actor>, a: Addr): map<Addr, Actor> {
    if a in actors then actors[a := actors[a].(link := Linked)] else actors
  }

  /** What a cospace's handlers touch: itself, the pool, the actors it knows and the upgrade it replies to. */
  datatype Scope = Scope(cospace: Cospace, pool: Pool, actors: map<Addr, Actor>, upgrades: map<nat, Upgrade>)

  function HandleClient(x: Scope, m: ClientMessage): Scope {
    match m.route
    case TellAll => x.(pool := Broadcast(x.pool, Incoming(m)))
    case TellService(s) =>
      (match PoolService(s)
       case None => x.(cospace := x.cospace.(panicked := true))
       case Some(p) => x.(pool := Tell(x.pool, p, Incoming(m))))
    case Ask(s) =>
      (match PoolService(s)
       case None => x
       case Some(p) => x.(pool := Tell(x.pool, p, Incoming(m))))
  }

  function HandleService(x: Scope, m: ServiceMessage): Scope {
    match m.recipient
    case ToClient(c) =>
      if c.id in x.cospace.clients then x.(actors := Post(x.actors, x.cospace.clients[c.id], m))
      else x.(cospace := x.cospace.(dropped := x.cospace.dropped + multiset{c.id}))
    case ToCospace(_) => x.(actors := PostAll(x.actors, x.cospace.clients.Values, m))
  }

  function Handle(x: Scope, u: Uuid, m: CospaceMsg): Scope {
    var c := x.cospace;
    match m
    case GenerateId(k) =>
      x.(cospace := c.(counter := (c.counter + 1) % U32, issued := c.issued + 1),
         upgrades := x.upgrades[k := Ready(ClientId(c.counter, u))])
    case Connect(client, addr) =>
      Scope(c.(clients := c.clients[client.id := addr]), Broadcast(x.pool, Joined(client)),
            Linking(x.actors, addr), x.upgrades)
    case FromClient(cm) => HandleClient(x, cm)
    case FromService(sm) => HandleService(x, sm)
  }

  // ------------------------------------------------------- connection actors

  /** What a message from the socket makes the actor tell its cospace. */
  function Forward(client: ClientId, p: SocketMessage): Option<ClientMessage> {
    match p
    case Text(t) => Some(ClientMessage(TellAll, client, Text(t)))
    case Binary(b) =>
      (match F.Process(b)
       case Tell(s, bytes) => if s == F.Connection then None else Some(ClientMessage(TellService(s), client, Binary(bytes)))
       case Request(_, s, bytes) => if s == F.Connection then None else Some(ClientMessage(Ask(s), client, Binary(bytes)))
       case _ => None)
  }

  // ------------------------------------------------------------------- steps

  datatype Step =
    | CreateCospace(u: Uuid)
    | Register(u: Uuid)
    | BeginUpgrade(k: nat, u: Uuid)
    | CospaceStep(u: Uuid)
    | CreateActor(k: nat, a: Addr)
    | Announce(a: Addr)
    | SocketIn(a: Addr, p: SocketMessage)
    | ActorStep(a: Addr)
    | ServiceStep(s: Service, i: nat)

  predicate Enabled(n: Node, l: Step) {
    match l
    case CreateCospace(u) => n.alloc.Shared? && u !in n.cospaces
    case Register(u) => u in n.cospaces && u !in n.registry
    case BeginUpgrade(k, u) => u in n.cospaces && u in n.registry && k !in n.upgrades
    case CospaceStep(u) => u in n.cospaces && n.cospaces[u].mailbox != []
    case CreateActor(k, a) => k in n.upgrades && n.upgrades[k].Ready? && a !in n.actors
    case Announce(a) => a in n.actors && n.actors[a].link.Unannounced? && n.actors[a].client.cospace in n.cospaces
    case SocketIn(a, _) => a in n.actors
    case ActorStep(a) => a in n.actors && n.actors[a].inbox != [] && n.actors[a].client.cospace in n.cospaces
    case ServiceStep(s, i) => i < |Queue(n.pool, s)|
  }

  function StepCospace(n: Node, u: Uuid): Node
    requires u in n.cospaces && n.cospaces[u].mailbox != []
  {
    var c := n.cospaces[u];
    var x := Handle(Scope(c.(mailbox := c.mailbox[1..]), n.pool, n.actors, n.upgrades), u, c.mailbox[0]);
    n.(cospaces := n.cospaces[u := x.cospace], pool := x.pool, actors := x.actors, upgrades := x.upgrades)
  }

  function StepActor(n: Node, a: Addr): Node
    requires a in n.actors && n.actors[a].inbox != [] && n.actors[a].client.cospace in n.cospaces
  {
    var x := n.actors[a];
    var rest := x.(inbox := x.inbox[1..]);
    match x.inbox[0]
    case FromCospace(m) => n.(actors := n.actors[a := rest.(socket := x.socket + [m.payload])])
    case FromSocket(p) =>
      var u := x.client.cospace;
      match Forward(x.client, p)
      case None => n.(actors := n.actors[a := rest])
      case Some(m) =>
        n.(actors := n.actors[a := rest], cospaces := n.cospaces[u := Mail(n.cospaces[u], FromClient(m))])
  }

  /** A service's message goes to its cospace, if that is found. */
  function Deliver(n: Node, m: ServiceMessage): Node {
    match CospaceAddr(n.alloc, n.registry, m.recipient)
    case None => n
    case Some(u) =>
      if u in n.cospaces then n.(cospaces := n.cospaces[u := Mail(n.cospaces[u], FromService(m))]) else n
  }

  function StepService(n: Node, s: Service, i: nat): Node
    requires i < |Queue(n.pool, s)|
  {
    var q := Queue(n.pool, s);
    var taken := n.(pool := WithQueue(n.pool, s, Remove(q, i)));
    match Mocker(s, q[i])
    case None => taken
    case Some(m) => Deliver(taken, m)
  }

  function Next(n: Node, l: Step): Node {
    if !Enabled(n, l) then n
    else
      match l
      case CreateCospace(u) => n.(cospaces := n.cospaces[u := NEW_COSPACE])
      case Register(u) => n.(registry := n.registry + {u})
      case BeginUpgrade(k, u) =>
        n.(upgrades := n.upgrades[k := Waiting(u)],
           cospaces := n.cospaces[u := Mail(n.cospaces[u], GenerateId(k))])
      case CospaceStep(u) => StepCospace(n, u)
      case CreateActor(k, a) =>
        n.(actors := n.actors[a := Actor(n.upgrades[k].client, [], [], Unannounced, 0)], upgrades := n.upgrades[k := Done(n.upgrades[k].client)])
      case Announce(a) =>
        var x := n.actors[a];
        var u := x.client.cospace;
        n.(actors := n.actors[a := x.(link := Announced)],
           cospaces := n.cospaces[u := Mail(n.cospaces[u], Connect(x.client, a))])
      case SocketIn(a, p) =>
        var x := n.actors[a];
        n.(actors := n.actors[a := x.(inbox := x.inbox + [FromSocket(p)],
                                      accepted := if p.Text? then x.accepted + 1 else x.accepted)])
      case ActorStep(a) => StepActor(n, a)
      case ServiceStep(s, i) => StepService(n, s, i)
  }

  function Run(n: Node, ls: seq<Step>): Node
    decreases ls
  {
    if ls == [] then n else Run(Next(n, ls[0]), ls[1..])
  }

  // -------------------------------------------------------------- invariants

  /** A client's message names a service with a pool, and texts, and only they, go to all services. */
  predicate Routable(m: ClientMessage) {
    && (m.route.TellService? ==> PoolService(m.route.service).Some?)
    && (m.route.TellAll? <==> m.payload.Text?)
  }

  /** Everything in a cospace's mailbox concerns that cospace. */
  predicate MailLocal(n: Node, u: Uuid, m: CospaceMsg) {
    match m
    case GenerateId(k) => k in n.upgrades && UpgradeOf(n.upgrades[k]) == u
    case Connect(c, a) => c.cospace == u && a in n.actors && n.actors[a].client == c
    case FromClient(c) => c.client.cospace == u && u in n.registry && Routable(c)
    case FromService(s) => s.recipient.ToClient? && s.recipient.client.cospace == u
  }

  /** A table entry is the actor of the client with that id in that cospace. */
  predicate EntryLocal(n: Node, u: Uuid, id: u32, a: Addr) {
    a in n.actors && n.actors[a].client == ClientId(id, u)
  }

  predicate CospaceLocal(n: Node, u: Uuid)
    requires u in n.cospaces
  {
    && (forall m :: m in n.cospaces[u].mailbox ==> MailLocal(n, u, m))
    && (forall id :: id in n.cospaces[u].clients ==> EntryLocal(n, u, id, n.cospaces[u].clients[id]))
    && !n.cospaces[u].panicked
  }

  function SenderOf(m: PoolMsg): Uuid { if m.Joined? then m.client.cospace else m.m.client.cospace }

  predicate QueueLocal(n: Node, q: seq<PoolMsg>) {
    forall m :: m in q ==> SenderOf(m) in n.registry
  }

  function UpgradeOf(x: Upgrade): Uuid { if x.Waiting? then x.cospace else x.client.cospace }

  ghost predicate Local(n: Node) {
    && (n.alloc.Dedicated? ==> n.cospaces.Keys == {n.alloc.cospace})
    && n.registry <= n.cospaces.Keys
    && (forall u :: u in n.cospaces ==> CospaceLocal(n, u))
    && (forall s: Service :: QueueLocal(n, Queue(n.pool, s)))
    && (forall a :: a in n.actors ==> n.actors[a].client.cospace in n.registry)
    && (forall k :: k in n.upgrades ==> UpgradeOf(n.upgrades[k]) in n.registry)
  }

  // --------------------------------------------------- Local is an invariant

  /** Actors keep their client, upgrades their cospace, and nothing disappears. */
  predicate Extends(n: Node, n': Node) {
    && n'.alloc == n.alloc
    && (forall u :: u in n.cospaces ==> u in n'.cospaces)
    && n.registry <= n'.registry
    && (forall a :: a in n.actors ==> a in n'.actors && n'.actors[a].client == n.actors[a].client)
    && (forall k :: k in n.upgrades ==> k in n'.upgrades && UpgradeOf(n'.upgrades[k]) == UpgradeOf(n.upgrades[k]))
  }

  /** A cospace stays local if it only lost mail, got local mail, or gained a local client. */
  lemma CospaceStaysLocal(n: Node, n': Node, u: Uuid)
    requires u in n.cospaces && CospaceLocal(n, u) && Extends(n, n')
    requires forall m :: m in n'.cospaces[u].mailbox ==> m in n.cospaces[u].mailbox || MailLocal(n', u, m)
    requires forall id :: id in n'.cospaces[u].clients ==>
                            || (id in n.cospaces[u].clients && n'.cospaces[u].clients[id] == n.cospaces[u].clients[id])
                            || EntryLocal(n', u, id, n'.cospaces[u].clients[id])
    requires !n'.cospaces[u].panicked
    ensures CospaceLocal(n', u)
  {
    forall m | m in n'.cospaces[u].mailbox ensures MailLocal(n', u, m) {
      if m in n.cospaces[u].mailbox { assert MailLocal(n, u, m); }
    }
    forall id | id in n'.cospaces[u].clients ensures EntryLocal(n', u, id, n'.cospaces[u].clients[id]) {
      if id in n.cospaces[u].clients { assert EntryLocal(n, u, id, n.cospaces[u].clients[id]); }
    }
  }

  /** The same, for all cospaces at once: `u` may have changed, the others have not. */
  lemma AllStayLocal(n: Node, n': Node, u: Uuid)
    requires Local(n) && Extends(n, n') && n'.cospaces.Keys == n.cospaces.Keys && n'.registry == n.registry
    requires u in n.cospaces && CospaceLocal(n', u)
    requires forall v :: v in n.cospaces && v != u ==> n'.cospaces[v] == n.cospaces[v]
    requires forall s: Service :: QueueLocal(n', Queue(n'.pool, s))
    requires forall a :: a in n'.actors ==> n'.actors[a].client.cospace in n.registry
    requires forall k :: k in n'.upgrades ==> UpgradeOf(n'.upgrades[k]) in n.registry
    ensures Local(n')
  {
    forall v | v in n'.cospaces ensures CospaceLocal(n', v) {
      if v != u { CospaceStaysLocal(n, n', v); }
    }
  }

  lemma BroadcastAdds(p: Pool, m: PoolMsg)
    ensures forall s: Service, x :: x in Queue(Broadcast(p, m), s) ==> x in Queue(p, s) || x == m
  {
  }

  lemma TellAdds(p: Pool, t: Service, m: PoolMsg)
    ensures forall s: Service, x :: x in Queue(Tell(p, t, m), s) ==> x in Queue(p, s) || x == m
  {
  }

  lemma TakeRemoves(p: Pool, t: Service, i: nat)
    requires i < |Queue(p, t)|
    ensures forall s: Service, x :: x in Queue(WithQueue(p, t, Remove(Queue(p, t), i)), s) ==> x in Queue(p, s)
  {
    hide Remove;
  }

  /** A handler adds at most one message to the pool, the one it was given. */
  function Pooled(m: CospaceMsg): Option<PoolMsg> {
    match m
    case Connect(c, _) => Some(Joined(c))
    case FromClient(c) => Some(Incoming(c))
    case _ => None
  }

  lemma HandlePools(x: Scope, u: Uuid, m: CospaceMsg)
    ensures forall s: Service, y :: y in Queue(Handle(x, u, m).pool, s) ==> y in Queue(x.pool, s) || Pooled(m) == Some(y)
  {
    hide Broadcast, Tell;
    match m
    case GenerateId(_) =>
    case Connect(c, _) => BroadcastAdds(x.pool, Joined(c));
    case FromClient(c) =>
      BroadcastAdds(x.pool, Incoming(c));
      if !c.route.TellAll? && PoolService(c.route.service).Some? {
        TellAdds(x.pool, PoolService(c.route.service).value, Incoming(c));
      }
    case FromService(_) =>
  }

  /**
   A client's message lands once in the queue of every service it is for: all of them, or the
   one whose own replies carry the name the message was addressed to.
   */
  lemma ClientMessageLands(x: Scope, m: ClientMessage, s: Service)
    ensures Queue(HandleClient(x, m).pool, s) ==
            if m.route.TellAll? || m.route.service == WireService(s) then Queue(x.pool, s) + [Incoming(m)]
            else Queue(x.pool, s)
    ensures m.route.TellService? && (forall t: Service :: WireService(t) != m.route.service) ==>
              HandleClient(x, m).cospace.panicked
  {
    var named := if m.route.TellAll? then None else PoolService(m.route.service);
    assert !m.route.TellAll? ==> (named == Some(s) <==> m.route.service == WireService(s));
    assert named.Some? ==> WireService(named.value) == m.route.service;
  }

  /** A handler leaves mail, actors and other upgrades in place. */
  lemma HandleShape(x: Scope, u: Uuid, m: CospaceMsg)
    ensures var y := Handle(x, u, m);
            && y.cospace.mailbox == x.cospace.mailbox
            && y.actors.Keys == x.actors.Keys
            && (forall a :: a in x.actors ==> y.actors[a].client == x.actors[a].client)
            && y.upgrades == (if m.GenerateId? then x.upgrades[m.upgrade := Ready(ClientId(x.cospace.counter, u))] else x.upgrades)
            && y.cospace.clients == (if m.Connect? then x.cospace.clients[m.client.id := m.addr] else x.cospace.clients)
            && (y.cospace.panicked ==> x.cospace.panicked || (m.FromClient? && !Routable(m.c)))
            && y.cospace.dropped == x.cospace.dropped + HandleDrops(x, m)
  {
    hide Broadcast, Tell;
  }

  function HandleDrops(x: Scope, m: CospaceMsg): multiset<u32> {
    if m.FromService? && m.s.recipient.ToClient? && m.s.recipient.client.id !in x.cospace.clients then
      multiset{m.s.recipient.client.id}
    else multiset{}
  }

  function Taken(n: Node, u: Uuid): Scope
    requires u in n.cospaces && n.cospaces[u].mailbox != []
  {
    Scope(n.cospaces[u].(mailbox := n.cospaces[u].mailbox[1..]), n.pool, n.actors, n.upgrades)
  }

  lemma HandleExtends(n: Node, u: Uuid)
    requires Local(n) && Enabled(n, CospaceStep(u))
    ensures var n' := StepCospace(n, u);
            && Extends(n, n') && n'.cospaces.Keys == n.cospaces.Keys && n'.registry == n.registry
            && (forall a :: a in n'.actors ==> a in n.actors)
            && (forall k :: k in n'.upgrades ==> k in n.upgrades)
            && (forall v :: v in n.cospaces && v != u ==> n'.cospaces[v] == n.cospaces[v])
  {
    var m := n.cospaces[u].mailbox[0];
    assert MailLocal(n, u, m) by { assert CospaceLocal(n, u); }
    HandleShape(Taken(n, u), u, m);
    hide Handle, Local;
  }

  lemma HandleKeepsCospace(n: Node, u: Uuid)
    requires Local(n) && Enabled(n, CospaceStep(u))
    ensures CospaceLocal(StepCospace(n, u), u)
  {
    var m := n.cospaces[u].mailbox[0];
    assert CospaceLocal(n, u) && MailLocal(n, u, m);
    HandleExtends(n, u);
    HandleShape(Taken(n, u), u, m);
    hide Handle, Local;
    CospaceStaysLocal(n, StepCospace(n, u), u);
  }

  lemma HandleKeepsQueues(n: Node, u: Uuid)
    requires Local(n) && Enabled(n, CospaceStep(u))
    ensures forall s: Service :: QueueLocal(StepCospace(n, u), Queue(StepCospace(n, u).pool, s))
  {
    var m, n' := n.cospaces[u].mailbox[0], StepCospace(n, u);
    assert CospaceLocal(n, u) && MailLocal(n, u, m);
    HandleExtends(n, u);
    HandlePools(Taken(n, u), u, m);
    forall s: Service ensures QueueLocal(n', Queue(n'.pool, s)) {
      assert QueueLocal(n, Queue(n.pool, s));
    }
  }

  lemma CospaceStepLocal(n: Node, u: Uuid)
    requires Local(n) && Enabled(n, CospaceStep(u))
    ensures Local(StepCospace(n, u))
  {
    hide StepCospace;
    HandleExtends(n, u);
    HandleKeepsCospace(n, u);
    HandleKeepsQueues(n, u);
    AllStayLocal(n, StepCospace(n, u), u);
  }

  /** Anything the actor forwards is addressed to a service with a pool, or to all of them. */
  lemma ForwardIsRoutable(client: ClientId, p: SocketMessage)
    ensures Forward(client, p).Some? ==>
              var m := Forward(client, p).value; m.client == client && Routable(m) && (m.payload.Text? <==> p.Text?)
    ensures p.Text? ==> Forward(client, p).Some?
  {
    hide F.EncodeService, F.Process;
    if p.Binary? { ClassifiedService(p.bytes); }
  }

  /**
   What the actor forwards, exactly: a text to all services; a message that is classified as a
   request or tell, unless it is for the connection service, to that very service as an ask or
   tell with the classified bytes; nothing else.
   */
  lemma ForwardExactly(client: ClientId, p: SocketMessage)
    ensures p.Text? ==> Forward(client, p) == Some(ClientMessage(TellAll, client, p))
    ensures p.Binary? ==>
              var m, sent := F.Process(p.bytes), Forward(client, p);
              && (sent.Some? <==> (m.Request? || m.Tell?) && m.service != F.Connection)
              && (sent.Some? ==>
                    sent.value.client == client && sent.value.payload == Binary(m.bytes)
                    && sent.value.route == if m.Request? then Ask(m.service) else TellService(m.service))
  {
    hide F.Process;
  }

  /** A core request of a client, as its peer frames it, reaches the core service as an ask with the canonical payload. */
  lemma CoreRequestIsForwarded(client: ClientId, id: u32, payload: Bytes)
    requires F.CreateRequest(id, F.Core, payload).Some?
    ensures Forward(client, Binary(F.CreateRequest(id, F.Core, payload).value)) ==
            Some(ClientMessage(if id == 0 then TellService(F.Core) else Ask(F.Core), client, Binary(F.Canon(F.Core, payload))))
  {
    hide F.Process, F.CreateRequest, F.Canon;
    F.RequestRoundTrip(id, F.Core, payload);
  }

  lemma ClassifiedService(b: Bytes)
    ensures !F.Process(b).NoMessage? ==> F.Process(b).service != F.Undefined
  {
    hide F.EncodeService;
  }

  lemma MailStepLocal(n: Node, n': Node, u: Uuid, m: CospaceMsg)
    requires Local(n) && u in n.cospaces && Extends(n, n') && MailLocal(n', u, m)
    requires n'.cospaces == n.cospaces[u := Mail(n.cospaces[u], m)] && n'.pool == n.pool && n'.registry == n.registry
    requires forall a :: a in n'.actors ==> n'.actors[a].client.cospace in n.registry
    requires forall k :: k in n'.upgrades ==> UpgradeOf(n'.upgrades[k]) in n.registry
    ensures Local(n')
  {
    CospaceStaysLocal(n, n', u);
    forall s: Service ensures QueueLocal(n', Queue(n'.pool, s)) {
      assert QueueLocal(n, Queue(n.pool, s));
    }
    AllStayLocal(n, n', u);
  }

  lemma QuietStepLocal(n: Node, n': Node)
    requires Local(n) && Extends(n, n') && n'.cospaces == n.cospaces && n'.registry <= n.cospaces.Keys
    requires forall s: Service, m :: m in Queue(n'.pool, s) ==> m in Queue(n.pool, s)
    requires forall a :: a in n'.actors ==> n'.actors[a].client.cospace in n.registry
    requires forall k :: k in n'.upgrades ==> UpgradeOf(n'.upgrades[k]) in n.registry
    ensures Local(n')
  {
    forall s: Service ensures QueueLocal(n', Queue(n'.pool, s)) {
      assert QueueLocal(n, Queue(n.pool, s));
    }
    forall u | u in n'.cospaces ensures CospaceLocal(n', u) { CospaceStaysLocal(n, n', u); }
  }

  lemma ActorStepLocal(n: Node, a: Addr)
    requires Local(n) && Enabled(n, ActorStep(a))
    ensures Local(StepActor(n, a))
  {
    hide Forward, Local;
    var x, n' := n.actors[a], StepActor(n, a);
    LocalActors(n);
    if x.inbox[0].FromSocket? && Forward(x.client, x.inbox[0].payload).Some? {
      ForwardIsRoutable(x.client, x.inbox[0].payload);
      MailStepLocal(n, n', x.client.cospace, FromClient(Forward(x.client, x.inbox[0].payload).value));
    } else {
      QuietStepLocal(n, n');
    }
  }

  lemma LocalActors(n: Node)
    requires Local(n)
    ensures forall u :: u in n.registry ==> u in n.cospaces
    ensures forall a :: a in n.actors ==> n.actors[a].client.cospace in n.registry
    ensures forall k :: k in n.upgrades ==> UpgradeOf(n.upgrades[k]) in n.registry
  {
  }

  /** A shared service always finds the cospace of the client it answers, and so does a dedicated one. */
  lemma ReplyFindsCospace(n: Node, s: Service, i: nat)
    requires Local(n) && i < |Queue(n.pool, s)| && Mocker(s, Queue(n.pool, s)[i]).Some?
    ensures var r := Mocker(s, Queue(n.pool, s)[i]).value.recipient;
            && r == ToClient(Queue(n.pool, s)[i].m.client)
            && CospaceAddr(n.alloc, n.registry, r) == Some(CospaceOf(r)) && CospaceOf(r) in n.cospaces
  {
    assert QueueLocal(n, Queue(n.pool, s));
    assert Queue(n.pool, s)[i] in Queue(n.pool, s);
  }

  lemma ServiceStepLocal(n: Node, s: Service, i: nat)
    requires Local(n) && Enabled(n, ServiceStep(s, i))
    ensures Local(StepService(n, s, i))
  {
    var q := Queue(n.pool, s);
    var taken := n.(pool := WithQueue(n.pool, s, Remove(q, i)));
    assert Local(taken) by {
      LocalActors(n);
      QuietStepLocal(n, taken);
    }
    if Mocker(s, q[i]).Some? {
      ReplyFindsCospace(n, s, i);
      var m := Mocker(s, q[i]).value;
      LocalActors(taken);
      hide Local;
      MailStepLocal(taken, StepService(n, s, i), CospaceOf(m.recipient), FromService(m));
    }
  }

  lemma CreateCospaceLocal(n: Node, u: Uuid)
    requires Local(n) && Enabled(n, CreateCospace(u))
    ensures Local(Next(n, CreateCospace(u)))
  {
    var n' := Next(n, CreateCospace(u));
    forall s: Service ensures QueueLocal(n', Queue(n'.pool, s)) {
      assert QueueLocal(n, Queue(n.pool, s));
    }
    forall v | v in n'.cospaces ensures CospaceLocal(n', v) {
      if v != u { CospaceStaysLocal(n, n', v); }
    }
  }

  lemma NextKeepsLocal(n: Node, l: Step)
    requires Local(n)
    ensures Local(Next(n, l))
  {
    hide Local, StepCospace, StepActor, StepService;
    if Enabled(n, l) {
      LocalActors(n);
      match l
      case CreateCospace(u) => CreateCospaceLocal(n, u);
      case Register(u) => QuietStepLocal(n, Next(n, l));
      case BeginUpgrade(k, u) => MailStepLocal(n, Next(n, l), u, GenerateId(k));
      case CospaceStep(u) => CospaceStepLocal(n, u);
      case CreateActor(k, a) => QuietStepLocal(n, Next(n, l));
      case Announce(a) => MailStepLocal(n, Next(n, l), n.actors[a].client.cospace, Connect(n.actors[a].client, a));
      case SocketIn(a, p) => QuietStepLocal(n, Next(n, l));
      case ActorStep(a) => ActorStepLocal(n, a);
      case ServiceStep(s, i) => ServiceStepLocal(n, s, i);
    }
  }

  lemma {:induction false} RunKeepsLocal(n: Node, ls: seq<Step>)
    requires Local(n)
    ensures Local(Run(n, ls))
    decreases ls
  {
    hide Local, Next;
    if ls != [] {
      NextKeepsLocal(n, ls[0]);
      RunKeepsLocal(Next(n, ls[0]), ls[1..]);
    }
  }
}
