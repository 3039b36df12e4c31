/**
 A shared node is, for each of its cospaces, indistinguishable from a node dedicated to that
 cospace: restricting any run to one cospace gives a run of a dedicated node, step by step and
 state by state, sockets included. Numerically equal client ids of other cospaces play no part.
 */
module Projection {
  import opened Base
  import opened Wire
  import opened Counting
  import opened Routing

  // ---------------------------------------------------------- restriction

  function Own(q: seq<PoolMsg>, u: Uuid): seq<PoolMsg> {
    if q == [] then []
    else (if SenderOf(q[0]) == u then [q[0]] else []) + Own(q[1..], u)
  }

  function OwnPool(p: Pool, u: Uuid): Pool {
    Pool(Own(p.core, u), Own(p.presence, u), Own(p.activity, u), Own(p.model, u))
  }

  function OwnActors(actors: map<Addr, Actor>, u: Uuid): map<Addr, Actor> {
    map a | a in actors && actors[a].client.cospace == u :: actors[a]
  }

  function OwnUpgrades(upgrades: map<nat, Upgrade>, u: Uuid): map<nat, Upgrade> {
    map k | k in upgrades && UpgradeOf(upgrades[k]) == u :: upgrades[k]
  }

  /** The dedicated node that a client of cospace `u` sees. */
  function Project(n: Node, u: Uuid): Node
    requires u in n.cospaces
  {
    Node(Dedicated(u), map[u := n.cospaces[u]], n.registry * {u}, OwnPool(n.pool, u), OwnActors(n.actors, u), OwnUpgrades(n.upgrades, u))
  }

  /** The dedicated node's share of a step, if it has one; a service takes the same message from a shorter queue. */
  function ProjectStep(n: Node, l: Step, u: Uuid): Option<Step> {
    if !Enabled(n, l) then None
    else
      match l
      case CreateCospace(_) => None
      case Register(v) => if v == u then Some(l) else None
      case BeginUpgrade(_, v) => if v == u then Some(l) else None
      case CospaceStep(v) => if v == u then Some(l) else None
      case CreateActor(k, _) => if UpgradeOf(n.upgrades[k]) == u then Some(l) else None
      case Announce(a) => if n.actors[a].client.cospace == u then Some(l) else None
      case SocketIn(a, _) => if n.actors[a].client.cospace == u then Some(l) else None
      case ActorStep(a) => if n.actors[a].client.cospace == u then Some(l) else None
      case ServiceStep(s, i) =>
        if SenderOf(Queue(n.pool, s)[i]) == u then Some(ServiceStep(s, |Own(Queue(n.pool, s)[..i], u)|)) else None
  }

  function ProjectRun(n: Node, ls: seq<Step>, u: Uuid): seq<Step>
    decreases ls
  {
    if ls == [] then []
    else
      (match ProjectStep(n, ls[0], u) case None => [] case Some(l) => [l]) + ProjectRun(Next(n, ls[0]), ls[1..], u)
  }

  // ------------------------------------------------------ restricting queues

  lemma {:induction false} OwnAppend(q: seq<PoolMsg>, r: seq<PoolMsg>, u: Uuid)
    ensures Own(q + r, u) == Own(q, u) + Own(r, u)
  {
    if q == [] {
      assert q + r == r;
    } else {
      assert (q + r)[0] == q[0] && (q + r)[1..] == q[1..] + r;
      OwnAppend(q[1..], r, u);
      var head := if SenderOf(q[0]) == u then [q[0]] else [];
      assert head + (Own(q[1..], u) + Own(r, u)) == (head + Own(q[1..], u)) + Own(r, u);
    }
  }

  lemma OwnPush(q: seq<PoolMsg>, m: PoolMsg, u: Uuid)
    ensures Own(q + [m], u) == if SenderOf(m) == u then Own(q, u) + [m] else Own(q, u)
  {
    OwnAppend(q, [m], u);
    assert [m][1..] == [];
  }

  /** Taking a message takes it from its cospace's share, at the place it has there, and from no other. */
  lemma OwnRemove(q: seq<PoolMsg>, i: nat, u: Uuid)
    requires i < |q|
    ensures SenderOf(q[i]) != u ==> Own(Remove(q, i), u) == Own(q, u)
    ensures SenderOf(q[i]) == u ==>
              var j := |Own(q[..i], u)|;
              j < |Own(q, u)| && Own(q, u)[j] == q[i] && Own(Remove(q, i), u) == Remove(Own(q, u), j)
  {
    var before, after := q[..i], q[i + 1..];
    assert q == (before + [q[i]]) + after;
    OwnAppend(before + [q[i]], after, u);
    OwnPush(before, q[i], u);
    OwnAppend(before, after, u);
    if SenderOf(q[i]) == u {
      var j := |Own(before, u)|;
      var mine := Own(before, u) + [q[i]] + Own(after, u);
      assert mine[..j] == Own(before, u) && mine[j + 1..] == Own(after, u);
    }
  }

  lemma OwnQueue(p: Pool, s: Service, u: Uuid)
    ensures Queue(OwnPool(p, u), s) == Own(Queue(p, s), u)
  {
  }

  lemma OwnWithQueue(p: Pool, s: Service, q: seq<PoolMsg>, u: Uuid)
    ensures OwnPool(WithQueue(p, s, q), u) == WithQueue(OwnPool(p, u), s, Own(q, u))
  {
  }

  lemma OwnTell(p: Pool, s: Service, m: PoolMsg, u: Uuid)
    ensures OwnPool(Tell(p, s, m), u) == if SenderOf(m) == u then Tell(OwnPool(p, u), s, m) else OwnPool(p, u)
  {
    OwnWithQueue(p, s, Queue(p, s) + [m], u);
    OwnPush(Queue(p, s), m, u);
    OwnQueue(p, s, u);
    hide Own;
    assert WithQueue(OwnPool(p, u), s, Queue(OwnPool(p, u), s)) == OwnPool(p, u);
  }

  lemma OwnBroadcast(p: Pool, m: PoolMsg, u: Uuid)
    ensures OwnPool(Broadcast(p, m), u) == if SenderOf(m) == u then Broadcast(OwnPool(p, u), m) else OwnPool(p, u)
  {
    OwnPush(p.core, m, u);
    OwnPush(p.presence, m, u);
    OwnPush(p.activity, m, u);
    OwnPush(p.model, m, u);
  }

  // -------------------------------------------------------- restricting maps

  lemma OwnActorSet(actors: map<Addr, Actor>, a: Addr, x: Actor, u: Uuid)
    requires a in actors ==> actors[a].client.cospace == x.client.cospace
    ensures OwnActors(actors[a := x], u) ==
            if x.client.cospace == u then OwnActors(actors, u)[a := x] else OwnActors(actors, u)
  {
  }

  lemma OwnUpgradeSet(upgrades: map<nat, Upgrade>, k: nat, x: Upgrade, u: Uuid)
    requires k in upgrades ==> UpgradeOf(upgrades[k]) == UpgradeOf(x)
    ensures OwnUpgrades(upgrades[k := x], u) ==
            if UpgradeOf(x) == u then OwnUpgrades(upgrades, u)[k := x] else OwnUpgrades(upgrades, u)
  {
  }

  // -------------------------------------------------------- cospace handlers

  function OwnScope(x: Scope, u: Uuid): Scope {
    Scope(x.cospace, OwnPool(x.pool, u), OwnActors(x.actors, u), OwnUpgrades(x.upgrades, u))
  }

  /** What a mailbox message must satisfy for its handler to stay inside cospace `u`. */
  predicate Inside(x: Scope, u: Uuid, m: CospaceMsg) {
    && (forall id :: id in x.cospace.clients ==>
          x.cospace.clients[id] in x.actors && x.actors[x.cospace.clients[id]].client.cospace == u)
    && match m
       case GenerateId(k) => k in x.upgrades && UpgradeOf(x.upgrades[k]) == u
       case Connect(c, a) => c.cospace == u && a in x.actors && x.actors[a].client.cospace == u
       case FromClient(c) => c.client.cospace == u
       case FromService(s) => s.recipient.ToClient?
  }

  /** The handlers of a cospace do the same in the restricted node. */
  lemma HandleOwn(x: Scope, u: Uuid, m: CospaceMsg)
    requires Inside(x, u, m)
    ensures Handle(OwnScope(x, u), u, m) == OwnScope(Handle(x, u, m), u)
  {
    hide Own, OwnPool;
    match m
    case GenerateId(k) => OwnUpgradeSet(x.upgrades, k, Ready(ClientId(x.cospace.counter, u)), u);
    case Connect(c, a) =>
      OwnBroadcast(x.pool, Joined(c), u);
      OwnActorSet(x.actors, a, x.actors[a].(link := Linked), u);
    case FromClient(c) => HandleClientOwn(x, u, c);
    case FromService(s) => HandleServiceOwn(x, u, s);
  }

  lemma HandleClientOwn(x: Scope, u: Uuid, c: ClientMessage)
    requires c.client.cospace == u
    ensures HandleClient(OwnScope(x, u), c) == OwnScope(HandleClient(x, c), u)
  {
    hide Own, OwnPool, OwnActors, OwnUpgrades, Broadcast, Tell;
    match c.route
    case TellAll => OwnBroadcast(x.pool, Incoming(c), u);
    case TellService(s) => if PoolService(s).Some? { OwnTell(x.pool, PoolService(s).value, Incoming(c), u); }
    case Ask(s) => if PoolService(s).Some? { OwnTell(x.pool, PoolService(s).value, Incoming(c), u); }
  }

  lemma HandleServiceOwn(x: Scope, u: Uuid, s: ServiceMessage)
    requires Inside(x, u, FromService(s))
    ensures HandleService(OwnScope(x, u), s) == OwnScope(HandleService(x, s), u)
  {
    hide OwnPool, OwnUpgrades;
    var c := s.recipient.client;
    if c.id in x.cospace.clients {
      var a := x.cospace.clients[c.id];
      OwnActorSet(x.actors, a, x.actors[a].(inbox := x.actors[a].inbox + [FromCospace(s)]), u);
    }
  }

  /** The handlers of another cospace `v` change nothing that `u` can see. */
  lemma HandleOther(x: Scope, v: Uuid, m: CospaceMsg, u: Uuid)
    requires Inside(x, v, m) && u != v
    ensures var y := Handle(x, v, m);
            && OwnPool(y.pool, u) == OwnPool(x.pool, u)
            && OwnActors(y.actors, u) == OwnActors(x.actors, u)
            && OwnUpgrades(y.upgrades, u) == OwnUpgrades(x.upgrades, u)
  {
    hide Own, OwnPool, Broadcast, Tell;
    match m
    case GenerateId(k) => OwnUpgradeSet(x.upgrades, k, Ready(ClientId(x.cospace.counter, v)), u);
    case Connect(c, a) =>
      OwnBroadcast(x.pool, Joined(c), u);
      OwnActorSet(x.actors, a, x.actors[a].(link := Linked), u);
    case FromClient(c) =>
      OwnBroadcast(x.pool, Incoming(c), u);
      if !c.route.TellAll? && PoolService(c.route.service).Some? {
        OwnTell(x.pool, PoolService(c.route.service).value, Incoming(c), u);
      }
    case FromService(s) =>
      var id := s.recipient.client.id;
      if id in x.cospace.clients {
        var a := x.cospace.clients[id];
        OwnActorSet(x.actors, a, x.actors[a].(inbox := x.actors[a].inbox + [FromCospace(s)]), u);
      }
  }

  // ------------------------------------------------------------------- steps

  /** One square of the diagram: step then restrict, or restrict then take the step's share. */
  predicate Commutes(n: Node, l: Step, u: Uuid)
    requires u in n.cospaces && u in Next(n, l).cospaces
  {
    Project(Next(n, l), u) ==
    match ProjectStep(n, l, u)
    case None => Project(n, u)
    case Some(l') => Next(Project(n, u), l')
  }

  lemma LocalInside(n: Node, v: Uuid)
    requires Local(n) && Enabled(n, CospaceStep(v))
    ensures var c := n.cospaces[v];
            Inside(Scope(c.(mailbox := c.mailbox[1..]), n.pool, n.actors, n.upgrades), v, c.mailbox[0])
  {
    var c := n.cospaces[v];
    assert CospaceLocal(n, v);
    assert MailLocal(n, v, c.mailbox[0]);
    forall id | id in c.clients ensures c.clients[id] in n.actors && n.actors[c.clients[id]].client.cospace == v {
      assert EntryLocal(n, v, id, c.clients[id]);
    }
  }

  lemma CospaceStepCommutes(n: Node, v: Uuid, u: Uuid)
    requires Local(n) && u in n.cospaces && Enabled(n, CospaceStep(v))
    ensures Commutes(n, CospaceStep(v), u)
  {
    hide Local, Handle, Own, OwnPool, OwnActors, OwnUpgrades;
    var c := n.cospaces[v];
    var x := Scope(c.(mailbox := c.mailbox[1..]), n.pool, n.actors, n.upgrades);
    LocalInside(n, v);
    if v == u {
      HandleOwn(x, u, c.mailbox[0]);
    } else {
      HandleOther(x, v, c.mailbox[0], u);
    }
  }

  lemma RegisterCommutes(n: Node, v: Uuid, u: Uuid)
    requires u in n.cospaces && Enabled(n, Register(v))
    ensures Commutes(n, Register(v), u)
  {
    hide OwnPool, OwnActors, OwnUpgrades;
    assert v != u ==> (n.registry + {v}) * {u} == n.registry * {u};
    assert (n.registry + {u}) * {u} == n.registry * {u} + {u};
  }

  lemma BeginUpgradeCommutes(n: Node, k: nat, v: Uuid, u: Uuid)
    requires u in n.cospaces && Enabled(n, BeginUpgrade(k, v))
    ensures Commutes(n, BeginUpgrade(k, v), u)
  {
    hide OwnPool, OwnActors;
    OwnUpgradeSet(n.upgrades, k, Waiting(v), u);
  }

  lemma CreateActorCommutes(n: Node, k: nat, a: Addr, u: Uuid)
    requires u in n.cospaces && Enabled(n, CreateActor(k, a))
    ensures Commutes(n, CreateActor(k, a), u)
  {
    hide OwnPool;
    OwnUpgradeSet(n.upgrades, k, Done(n.upgrades[k].client), u);
    OwnActorSet(n.actors, a, Actor(n.upgrades[k].client, [], [], Unannounced, 0), u);
  }

  lemma AnnounceCommutes(n: Node, a: Addr, u: Uuid)
    requires u in n.cospaces && Enabled(n, Announce(a))
    ensures Commutes(n, Announce(a), u)
  {
    hide OwnPool, OwnUpgrades;
    OwnActorSet(n.actors, a, n.actors[a].(link := Announced), u);
  }

  lemma SocketInCommutes(n: Node, a: Addr, p: SocketMessage, u: Uuid)
    requires u in n.cospaces && Enabled(n, SocketIn(a, p))
    ensures Commutes(n, SocketIn(a, p), u)
  {
    hide OwnPool, OwnUpgrades;
    OwnActorSet(n.actors, a, Next(n, SocketIn(a, p)).actors[a], u);
  }

  lemma ActorStepCommutes(n: Node, a: Addr, u: Uuid)
    requires u in n.cospaces && Enabled(n, ActorStep(a))
    ensures Commutes(n, ActorStep(a), u)
  {
    hide OwnPool, OwnActors, OwnUpgrades, Forward;
    OwnActorSet(n.actors, a, StepActor(n, a).actors[a], u);
    OwnActorAt(n.actors, a, u);
  }

  lemma OwnActorAt(actors: map<Addr, Actor>, a: Addr, u: Uuid)
    ensures a in OwnActors(actors, u) <==> a in actors && actors[a].client.cospace == u
    ensures a in OwnActors(actors, u) ==> OwnActors(actors, u)[a] == actors[a]
  {
  }

  lemma OwnTake(p: Pool, s: Service, i: nat, u: Uuid)
    requires i < |Queue(p, s)|
    ensures var q, mine := Queue(p, s), Queue(OwnPool(p, u), s);
            var j := |Own(q[..i], u)|;
            && (SenderOf(q[i]) == u ==>
                  j < |mine| && mine[j] == q[i]
                  && OwnPool(WithQueue(p, s, Remove(q, i)), u) == WithQueue(OwnPool(p, u), s, Remove(mine, j)))
            && (SenderOf(q[i]) != u ==> OwnPool(WithQueue(p, s, Remove(q, i)), u) == OwnPool(p, u))
  {
    OwnRemove(Queue(p, s), i, u);
    OwnQueue(p, s, u);
    OwnWithQueue(p, s, Remove(Queue(p, s), i), u);
    hide Own;
  }

  /** A dedicated service sends where a shared one does: the reply goes to the cospace of the text. */
  lemma ReplyIsLocal(s: Service, m: PoolMsg, u: Uuid)
    requires Mocker(s, m).Some?
    ensures CospaceOf(Mocker(s, m).value.recipient) == SenderOf(m)
    ensures forall registry :: CospaceAddr(Dedicated(u), registry, Mocker(s, m).value.recipient) == Some(u)
  {
  }

  /** A message to cospace `v` reaches the dedicated node of `v`, and only that. */
  lemma DeliverOwn(n: Node, m: ServiceMessage, v: Uuid, u: Uuid)
    requires u in n.cospaces && v in n.cospaces && CospaceAddr(n.alloc, n.registry, m.recipient) == Some(v)
    ensures u in Deliver(n, m).cospaces
    ensures Project(Deliver(n, m), u) == if u == v then Deliver(Project(n, u), m) else Project(n, u)
  {
    hide OwnPool, OwnActors, OwnUpgrades;
  }

  lemma ServiceStepCommutes(n: Node, s: Service, i: nat, u: Uuid)
    requires Local(n) && u in n.cospaces && Enabled(n, ServiceStep(s, i))
    ensures Commutes(n, ServiceStep(s, i), u)
  {
    hide Local, Own, OwnPool, OwnActors, OwnUpgrades, Queue, WithQueue, Remove, Mocker, CospaceAddr, Deliver;
    var q := Queue(n.pool, s);
    var taken := n.(pool := WithQueue(n.pool, s, Remove(q, i)));
    OwnTake(n.pool, s, i, u);
    if Mocker(s, q[i]).Some? {
      ReplyFindsCospace(n, s, i);
      ReplyIsLocal(s, q[i], u);
      DeliverOwn(taken, Mocker(s, q[i]).value, SenderOf(q[i]), u);
    }
  }

  lemma StepCommutes(n: Node, l: Step, u: Uuid)
    requires Local(n) && u in n.cospaces
    ensures u in Next(n, l).cospaces && Commutes(n, l, u)
  {
    CospacesStay(n, l, u);
    hide Local, Commutes, Next;
    if Enabled(n, l) {
      match l
      case CreateCospace(v) => CreateCospaceCommutes(n, v, u);
      case Register(v) => RegisterCommutes(n, v, u);
      case BeginUpgrade(k, v) => BeginUpgradeCommutes(n, k, v, u);
      case CospaceStep(v) => CospaceStepCommutes(n, v, u);
      case CreateActor(k, a) => CreateActorCommutes(n, k, a, u);
      case Announce(a) => AnnounceCommutes(n, a, u);
      case SocketIn(a, p) => SocketInCommutes(n, a, p, u);
      case ActorStep(a) => ActorStepCommutes(n, a, u);
      case ServiceStep(s, i) => ServiceStepCommutes(n, s, i, u);
    } else {
      DisabledCommutes(n, l, u);
    }
  }

  lemma CospacesStay(n: Node, l: Step, u: Uuid)
    requires u in n.cospaces
    ensures u in Next(n, l).cospaces
  {
    hide Handle, Forward;
  }

  lemma DisabledCommutes(n: Node, l: Step, u: Uuid)
    requires u in n.cospaces && !Enabled(n, l)
    ensures Commutes(n, l, u)
  {
    hide Project;
  }

  lemma CreateCospaceCommutes(n: Node, v: Uuid, u: Uuid)
    requires u in n.cospaces && Enabled(n, CreateCospace(v))
    ensures Commutes(n, CreateCospace(v), u)
  {
    hide OwnPool, OwnActors, OwnUpgrades;
  }

  // -------------------------------------------------------------------- runs

  /**
   Any run of a shared node, restricted to a cospace it hosts, is the run of a dedicated node:
   it ends in the same cospace state, the same client actors and the same socket outputs.
   */
  lemma {:induction false} SharedIsDedicated(n: Node, ls: seq<Step>, u: Uuid)
    requires Local(n) && u in n.cospaces
    ensures u in Run(n, ls).cospaces
    ensures Project(Run(n, ls), u) == Run(Project(n, u), ProjectRun(n, ls, u))
    decreases ls
  {
    hide Local, Next, Project, ProjectStep;
    if ls != [] {
      var n', rest := Next(n, ls[0]), ls[1..];
      StepCommutes(n, ls[0], u);
      NextKeepsLocal(n, ls[0]);
      SharedIsDedicated(n', rest, u);
      match ProjectStep(n, ls[0], u)
      case None =>
        assert ProjectRun(n, ls, u) == ProjectRun(n', rest, u);
      case Some(l) =>
        assert ProjectRun(n, ls, u) == [l] + ProjectRun(n', rest, u);
        assert ([l] + ProjectRun(n', rest, u))[1..] == ProjectRun(n', rest, u);
    }
  }

  function DedicatedNode(u: Uuid): Node {
    Node(Dedicated(u), map[u := NEW_COSPACE], {}, EMPTY_POOL, map[], map[])
  }

  lemma {:induction false} OwnNothing(q: seq<PoolMsg>, u: Uuid)
    requires forall m :: m in q ==> SenderOf(m) != u
    ensures Own(q, u) == []
  {
    if q != [] { OwnNothing(q[1..], u); }
  }

  /** Before a cospace is created nothing concerns it, so it starts as on a fresh dedicated node. */
  lemma CreatedFresh(n: Node, u: Uuid)
    requires Local(n) && n.alloc.Shared? && u !in n.cospaces
    ensures Project(Next(n, CreateCospace(u)), u) == DedicatedNode(u)
  {
    assert QueueLocal(n, Queue(n.pool, Core)) && QueueLocal(n, Queue(n.pool, Presence));
    assert QueueLocal(n, Queue(n.pool, Activity)) && QueueLocal(n, Queue(n.pool, Model));
    OwnNothing(n.pool.core, u);
    OwnNothing(n.pool.presence, u);
    OwnNothing(n.pool.activity, u);
    OwnNothing(n.pool.model, u);
  }

  /** A node as it is before its first step, shared or dedicated. */
  predicate Start(n: Node) { n == SHARED_NODE || (n.alloc.Dedicated? && n == DedicatedNode(n.alloc.cospace)) }

  lemma StartIsLocal(start: Node, ls: seq<Step>)
    requires Start(start)
    ensures Local(Run(start, ls)) && Run(start, ls).alloc == start.alloc
  {
    RunKeepsLocal(start, ls);
    AllocIsFixed(start, ls);
  }

  /** In any run, a service that answers a client finds that client's cospace. */
  lemma LookupNeverFails(start: Node, ls: seq<Step>, s: Service, i: nat)
    requires Start(start)
    requires var n := Run(start, ls); i < |Queue(n.pool, s)| && Mocker(s, Queue(n.pool, s)[i]).Some?
    ensures var n := Run(start, ls);
            var r := Mocker(s, Queue(n.pool, s)[i]).value.recipient;
            && r == ToClient(Queue(n.pool, s)[i].m.client)
            && CospaceAddr(n.alloc, n.registry, r) == Some(CospaceOf(r)) && CospaceOf(r) in n.cospaces
  {
    StartIsLocal(start, ls);
    hide Run, Local;
    ReplyFindsCospace(Run(start, ls), s, i);
  }

  /** No client can make a cospace tell a service that has no pool, which would panic. */
  lemma CospacesNeverPanic(start: Node, ls: seq<Step>, u: Uuid)
    requires Start(start) && u in Run(start, ls).cospaces
    ensures !Run(start, ls).cospaces[u].panicked
  {
    StartIsLocal(start, ls);
    hide Run;
    assert CospaceLocal(Run(start, ls), u);
  }

  lemma {:induction false} AllocIsFixed(n: Node, ls: seq<Step>)
    ensures Run(n, ls).alloc == n.alloc
    decreases ls
  {
    hide Handle, Forward;
    if ls != [] {
      assert Next(n, ls[0]).alloc == n.alloc;
      AllocIsFixed(Next(n, ls[0]), ls[1..]);
    }
  }

  lemma {:induction false} RunAppend(n: Node, ls: seq<Step>, more: seq<Step>)
    ensures Run(n, ls + more) == Run(Run(n, ls), more)
    decreases ls
  {
    hide Next;
    if ls == [] {
      assert ls + more == more;
    } else {
      assert (ls + more)[0] == ls[0] && (ls + more)[1..] == ls[1..] + more;
      RunAppend(Next(n, ls[0]), ls[1..], more);
    }
  }

  /**
   From the moment a cospace is created on a shared node, whatever else the node hosts, what
   its clients see is a run of a node that was dedicated to it from the start.
   */
  lemma ProjectionFromCreation(ls: seq<Step>, u: Uuid, more: seq<Step>)
    requires u !in Run(SHARED_NODE, ls).cospaces
    ensures var created := Next(Run(SHARED_NODE, ls), CreateCospace(u));
            var end := Run(SHARED_NODE, ls + [CreateCospace(u)] + more);
            var alone := Run(DedicatedNode(u), ProjectRun(created, more, u));
            && u in end.cospaces && u in alone.cospaces && alone.cospaces[u] == end.cospaces[u]
            && Project(end, u) == alone
            && (forall a :: a in alone.actors <==> a in end.actors && end.actors[a].client.cospace == u)
            && (forall a :: a in alone.actors ==> alone.actors[a].socket == end.actors[a].socket)
  {
    hide Local, Project, Next;
    var n := Run(SHARED_NODE, ls);
    StartIsLocal(SHARED_NODE, ls);
    NextKeepsLocal(n, CreateCospace(u));
    CreatedFresh(n, u);
    RunAppend(SHARED_NODE, ls, [CreateCospace(u)]);
    RunAppend(SHARED_NODE, ls + [CreateCospace(u)], more);
    assert [CreateCospace(u)][1..] == [];
    CreatedHosts(n, u);
    SharedIsDedicated(Next(n, CreateCospace(u)), more, u);
    ProjectedParts(Run(SHARED_NODE, ls + [CreateCospace(u)] + more), u);
  }

  lemma ProjectedParts(n: Node, u: Uuid)
    requires u in n.cospaces
    ensures var alone := Project(n, u);
            && u in alone.cospaces && alone.cospaces[u] == n.cospaces[u]
            && (forall a :: a in alone.actors <==> a in n.actors && n.actors[a].client.cospace == u)
            && (forall a :: a in alone.actors ==> alone.actors[a].socket == n.actors[a].socket)
  {
    hide OwnPool, OwnUpgrades;
  }

  lemma CreatedHosts(n: Node, u: Uuid)
    requires n.alloc.Shared? && u !in n.cospaces
    ensures u in Next(n, CreateCospace(u)).cospaces
  {
  }
}
