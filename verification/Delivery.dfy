/**
 Who gets what on a node, over whole runs and below counter overflow: client ids and the
 tables that use them stay consistent, and every text is paid for with four replies, each of
 them delivered, on its way, or dropped before its client was known to the cospace.
 */
module Delivery {
  import opened Base
  import opened Wire
  import opened Counting
  import opened Routing
  import opened Projection

  /** No cospace has generated more ids than there are. */
  predicate Below(n: Node) {
    forall u :: u in n.cospaces ==> n.cospaces[u].issued < U32
  }

  // ------------------------------------------------------------- client ids

  predicate InRange(n: Node, c: ClientId) {
    c.cospace in n.cospaces && 1 <= c.id <= n.cospaces[c.cospace].issued
  }

  /** The upgrades that were given a client id, and those of them that have no actor yet. */
  predicate HasId(n: Node, k: nat) { k in n.upgrades && !n.upgrades[k].Waiting? }
  predicate ReadyIn(n: Node, k: nat) { HasId(n, k) && n.upgrades[k].Ready? }

  ghost predicate Numbered(n: Node) {
    && (forall u :: u in n.cospaces ==> n.cospaces[u].counter == (1 + n.cospaces[u].issued) % U32)
    && (forall k :: HasId(n, k) ==> InRange(n, n.upgrades[k].client))
    && (forall a :: a in n.actors ==> InRange(n, n.actors[a].client))
  }

  /** No id is given out twice or used twice, and one that was given out and not yet used is not in use. */
  ghost predicate Distinct(n: Node) {
    && (forall k, j :: HasId(n, k) && HasId(n, j) && n.upgrades[k].client == n.upgrades[j].client ==> k == j)
    && (forall k, a :: ReadyIn(n, k) && a in n.actors ==> n.upgrades[k].client != n.actors[a].client)
    && (forall a, b :: a in n.actors && b in n.actors && n.actors[a].client == n.actors[b].client ==> a == b)
  }

  function ConnectFor(a: Addr): CospaceMsg -> bool {
    (m: CospaceMsg) => m.Connect? && m.addr == a
  }

  /** One Connect is on its way exactly while an actor is announced, and it is in the table exactly when linked. */
  predicate LinkOf(n: Node, a: Addr)
    requires a in n.actors
  {
    var x := n.actors[a];
    && x.client.cospace in n.cospaces
    && var c := n.cospaces[x.client.cospace];
       && Count(c.mailbox, ConnectFor(a)) == One(x.link.Announced?)
       && (x.link.Linked? <==> x.client.id in c.clients && c.clients[x.client.id] == a)
  }

  predicate Links(n: Node) { forall a :: a in n.actors ==> LinkOf(n, a) }

  // ------------------------------------------------------------------- load

  predicate IsReply(m: ActorMsg) { m.FromCospace? }
  predicate IsText(m: ActorMsg) { m.FromSocket? && m.payload.Text? }

  function TextFrom(c: ClientId): CospaceMsg -> bool {
    (m: CospaceMsg) => m.FromClient? && m.c.client == c && m.c.payload.Text?
  }

  function ReplyTo(c: ClientId): CospaceMsg -> bool {
    (m: CospaceMsg) => m.FromService? && m.s.recipient == ToClient(c)
  }

  function TextOf(c: ClientId): PoolMsg -> bool {
    (m: PoolMsg) => m.Incoming? && m.m.client == c && m.m.payload.Text? && !m.m.route.Ask?
  }

  function PoolLoad(p: Pool, c: ClientId): nat {
    Count(p.core, TextOf(c)) + Count(p.presence, TextOf(c)) + Count(p.activity, TextOf(c)) + Count(p.model, TextOf(c))
  }

  function MailLoad(s: Cospace, c: ClientId): nat {
    4 * Count(s.mailbox, TextFrom(c)) + Count(s.mailbox, ReplyTo(c)) + s.dropped[c.id]
  }

  /** Replies owed to a client by its cospace and the services, or dropped. */
  function Load(n: Node, c: ClientId): nat
    requires c.cospace in n.cospaces
  {
    MailLoad(n.cospaces[c.cospace], c) + PoolLoad(n.pool, c)
  }

  /** Replies delivered to the socket, waiting in the actor's inbox, or owed for texts still in it. */
  function ActorLoad(x: Actor): nat {
    |x.socket| + Count(x.inbox, IsReply) + 4 * Count(x.inbox, IsText)
  }

  predicate Balanced(n: Node, a: Addr)
    requires a in n.actors
  {
    var x := n.actors[a];
    x.client.cospace in n.cospaces && 4 * x.accepted == ActorLoad(x) + Load(n, x.client)
  }

  predicate Known(n: Node, c: ClientId) { exists a :: a in n.actors && n.actors[a].client == c }

  /** Whoever is mentioned in a message or a drop has an actor. */
  predicate MailKnown(n: Node, m: CospaceMsg) {
    && (m.FromClient? ==> Known(n, m.c.client))
    && (m.FromService? && m.s.recipient.ToClient? ==> Known(n, m.s.recipient.client))
  }

  predicate MailSourced(n: Node) {
    forall u, m :: u in n.cospaces && m in n.cospaces[u].mailbox ==> MailKnown(n, m)
  }

  ghost predicate PoolSourced(n: Node) {
    forall s: Service, m :: m in Queue(n.pool, s) && m.Incoming? ==> Known(n, m.m.client)
  }

  predicate DropsSourced(n: Node) {
    forall u, id :: u in n.cospaces && id in n.cospaces[u].dropped ==> Known(n, ClientId(id, u))
  }

  ghost predicate Sourced(n: Node) { MailSourced(n) && PoolSourced(n) && DropsSourced(n) }

  ghost predicate Sound(n: Node) {
    && Local(n)
    && Numbered(n)
    && Sourced(n)
    && Links(n)
    && Distinct(n)
    && (forall a :: a in n.actors ==> Balanced(n, a))
  }

  // ------------------------------------------------------------ client ids

  /** Nobody gets or loses an id. */
  ghost predicate SameIds(n: Node, n': Node) {
    && n'.actors.Keys == n.actors.Keys
    && (forall a :: a in n.actors ==> n'.actors[a].client == n.actors[a].client)
    && (forall k :: HasId(n', k) ==> HasId(n, k) && n'.upgrades[k] == n.upgrades[k])
    && (forall u :: u in n'.cospaces ==>
          if u in n.cospaces then
            n'.cospaces[u].issued == n.cospaces[u].issued && n'.cospaces[u].counter == n.cospaces[u].counter
          else n'.cospaces[u] == NEW_COSPACE)
    && n.cospaces.Keys <= n'.cospaces.Keys
  }

  lemma SameIdsNumbered(n: Node, n': Node)
    requires Numbered(n) && Distinct(n) && SameIds(n, n')
    ensures Numbered(n') && Distinct(n')
  {
    SameIdsDistinct(n, n');
    hide Distinct;
    forall a | a in n'.actors ensures InRange(n', n'.actors[a].client) {
      assert InRange(n, n.actors[a].client);
    }
    forall k | HasId(n', k) ensures InRange(n', n'.upgrades[k].client) {
      assert InRange(n, n.upgrades[k].client);
    }
  }

  lemma SameIdsDistinct(n: Node, n': Node)
    requires Distinct(n) && SameIds(n, n')
    ensures Distinct(n')
  {
  }

  /** A generated id is the largest so far. */
  lemma GenerateRange(n: Node, u: Uuid)
    requires Numbered(n) && Enabled(n, CospaceStep(u)) && n.cospaces[u].mailbox[0].GenerateId?
    requires n.cospaces[u].issued + 1 < U32
    ensures var n', fresh_ := StepCospace(n, u), ClientId(n.cospaces[u].counter, u);
            && InRange(n', fresh_)
            && (forall c: ClientId :: InRange(n, c) ==> InRange(n', c) && c != fresh_)
            && (forall v :: v in n'.cospaces ==> n'.cospaces[v].counter == (1 + n'.cospaces[v].issued) % U32)
  {
  }

  lemma GenerateNumbered(n: Node, u: Uuid)
    requires Numbered(n) && Distinct(n) && Enabled(n, CospaceStep(u)) && n.cospaces[u].mailbox[0].GenerateId?
    requires n.cospaces[u].issued + 1 < U32
    ensures Numbered(StepCospace(n, u)) && Distinct(StepCospace(n, u))
  {
    GenerateRange(n, u);
    hide InRange;
  }

  lemma CreateActorIds(n: Node, k: nat, a: Addr)
    requires Enabled(n, CreateActor(k, a))
    ensures var n' := Next(n, CreateActor(k, a));
            && ReadyIn(n, k)
            && (forall j :: HasId(n', j) ==> HasId(n, j) && n'.upgrades[j].client == n.upgrades[j].client)
            && (forall j :: ReadyIn(n', j) ==> ReadyIn(n, j) && j != k)
            && (forall c: ClientId :: InRange(n, c) ==> InRange(n', c))
            && n'.actors == n.actors[a := Actor(n.upgrades[k].client, [], [], Unannounced, 0)]
            && n'.cospaces == n.cospaces
  {
  }

  lemma CreateActorNumbered(n: Node, k: nat, a: Addr)
    requires Numbered(n) && Distinct(n) && Enabled(n, CreateActor(k, a))
    ensures Numbered(Next(n, CreateActor(k, a))) && Distinct(Next(n, CreateActor(k, a)))
  {
    CreateActorIds(n, k, a);
    hide InRange, Next;
  }

  // ----------------------------------------------------------------- tables

  lemma NoConnectFor(n: Node, u: Uuid, a: Addr)
    requires u in n.cospaces && CospaceLocal(n, u) && a !in n.actors
    ensures Count(n.cospaces[u].mailbox, ConnectFor(a)) == 0
  {
    forall m | m in n.cospaces[u].mailbox ensures !ConnectFor(a)(m) { assert MailLocal(n, u, m); }
    CountNone(n.cospaces[u].mailbox, ConnectFor(a));
  }

  lemma CreateActorLinks(n: Node, k: nat, a: Addr)
    requires Local(n) && Links(n) && Distinct(n) && Enabled(n, CreateActor(k, a))
    ensures Links(Next(n, CreateActor(k, a)))
  {
    var n' := Next(n, CreateActor(k, a));
    var c := n.upgrades[k].client;
    assert ReadyIn(n, k) && UpgradeOf(n.upgrades[k]) in n.cospaces;
    forall b | b in n'.actors ensures LinkOf(n', b) {
      if b == a {
        NoConnectFor(n, c.cospace, a);
        var table := n.cospaces[c.cospace].clients;
        assert c.id in table ==> EntryLocal(n, c.cospace, c.id, table[c.id]);
      } else {
        assert LinkOf(n, b);
      }
    }
  }

  lemma AnnounceLinks(n: Node, a: Addr)
    requires Links(n) && Enabled(n, Announce(a))
    ensures Links(Next(n, Announce(a)))
  {
    hide Count;
    var n', x := Next(n, Announce(a)), n.actors[a];
    forall b | b in n'.actors ensures LinkOf(n', b) {
      assert LinkOf(n, b);
      CountPush(n.cospaces[x.client.cospace].mailbox, Connect(x.client, a), ConnectFor(b));
    }
  }

  /** A Connect on its way is for a client that is not in the table, and no other is for the same client. */
  lemma ConnectIsNew(n: Node, u: Uuid, i: nat)
    requires Local(n) && Links(n) && Distinct(n) && u in n.cospaces
    requires i < |n.cospaces[u].mailbox| && n.cospaces[u].mailbox[i].Connect?
    ensures var m := n.cospaces[u].mailbox[i];
            && m.client.cospace == u && m.client.id !in n.cospaces[u].clients
            && m.addr in n.actors && n.actors[m.addr].client == m.client && n.actors[m.addr].link.Announced?
    ensures forall j :: 0 <= j < |n.cospaces[u].mailbox| && j != i && n.cospaces[u].mailbox[j].Connect? ==>
                          n.cospaces[u].mailbox[j].client.id != n.cospaces[u].mailbox[i].client.id
  {
    var c := n.cospaces[u];
    var m := c.mailbox[i];
    assert CospaceLocal(n, u) && MailLocal(n, u, m);
    assert LinkOf(n, m.addr);
    CountRemove(c.mailbox, i, ConnectFor(m.addr));
    assert m.client.id in c.clients ==> EntryLocal(n, u, m.client.id, c.clients[m.client.id]);
    forall j | 0 <= j < |c.mailbox| && j != i && c.mailbox[j].Connect? ensures c.mailbox[j].client.id != m.client.id {
      assert MailLocal(n, u, c.mailbox[j]);
      var k := if j < i then j else j - 1;
      assert Remove(c.mailbox, i)[k] == c.mailbox[j];
      CountRemove(Remove(c.mailbox, i), k, ConnectFor(m.addr));
    }
  }

  lemma ConnectShape(n: Node, u: Uuid)
    requires Enabled(n, CospaceStep(u)) && n.cospaces[u].mailbox[0].Connect?
    ensures var n', c := StepCospace(n, u), n.cospaces[u]; var m := c.mailbox[0];
            && n'.pool == Broadcast(n.pool, Joined(m.client))
            && n'.cospaces == n.cospaces[u := c.(mailbox := c.mailbox[1..], clients := c.clients[m.client.id := m.addr])]
            && n'.actors == Linking(n.actors, m.addr)
  {
    hide Broadcast;
  }

  lemma ConnectLinkOf(n: Node, u: Uuid, b: Addr)
    requires Enabled(n, CospaceStep(u)) && n.cospaces[u].mailbox[0].Connect? && b in StepCospace(n, u).actors
    requires b in n.actors && LinkOf(n, b)
    requires var m := n.cospaces[u].mailbox[0];
             && m.client.cospace == u && m.client.id !in n.cospaces[u].clients
             && m.addr in n.actors && n.actors[m.addr].client == m.client && n.actors[m.addr].link.Announced?
    ensures LinkOf(StepCospace(n, u), b)
  {
    hide StepCospace, Count, Broadcast;
    ConnectShape(n, u);
    CountHead(n.cospaces[u].mailbox, ConnectFor(b));
  }

  lemma ConnectLinks(n: Node, u: Uuid)
    requires Local(n) && Links(n) && Distinct(n) && Enabled(n, CospaceStep(u)) && n.cospaces[u].mailbox[0].Connect?
    ensures Links(StepCospace(n, u))
  {
    ConnectIsNew(n, u, 0);
    ConnectShape(n, u);
    hide Local, Distinct, StepCospace, Broadcast, LinkOf;
    forall b | b in StepCospace(n, u).actors ensures LinkOf(StepCospace(n, u), b) { ConnectLinkOf(n, u, b); }
  }

  // ------------------------------------------------------------------- load

  lemma MailLoadPush(s: Cospace, m: CospaceMsg, c: ClientId)
    ensures MailLoad(Mail(s, m), c) == MailLoad(s, c) + 4 * One(TextFrom(c)(m)) + One(ReplyTo(c)(m))
  {
    CountPush(s.mailbox, m, TextFrom(c));
    CountPush(s.mailbox, m, ReplyTo(c));
  }

  lemma MailLoadPop(s: Cospace, c: ClientId)
    requires s.mailbox != []
    ensures MailLoad(s, c) ==
            MailLoad(s.(mailbox := s.mailbox[1..]), c) + 4 * One(TextFrom(c)(s.mailbox[0])) + One(ReplyTo(c)(s.mailbox[0]))
  {
    CountHead(s.mailbox, TextFrom(c));
    CountHead(s.mailbox, ReplyTo(c));
  }

  lemma PoolLoadBroadcast(p: Pool, m: PoolMsg, c: ClientId)
    ensures PoolLoad(Broadcast(p, m), c) == PoolLoad(p, c) + 4 * One(TextOf(c)(m))
  {
    CountPush(p.core, m, TextOf(c));
    CountPush(p.presence, m, TextOf(c));
    CountPush(p.activity, m, TextOf(c));
    CountPush(p.model, m, TextOf(c));
  }

  lemma PoolLoadTell(p: Pool, s: Service, m: PoolMsg, c: ClientId)
    ensures PoolLoad(Tell(p, s, m), c) == PoolLoad(p, c) + One(TextOf(c)(m))
  {
    CountPush(Queue(p, s), m, TextOf(c));
  }

  lemma PoolLoadTake(p: Pool, s: Service, i: nat, c: ClientId)
    requires i < |Queue(p, s)|
    ensures PoolLoad(p, c) == PoolLoad(WithQueue(p, s, Remove(Queue(p, s), i)), c) + One(TextOf(c)(Queue(p, s)[i]))
  {
    CountRemove(Queue(p, s), i, TextOf(c));
  }

  lemma ActorLoadPush(x: Actor, m: ActorMsg)
    ensures ActorLoad(x.(inbox := x.inbox + [m])) == ActorLoad(x) + One(IsReply(m)) + 4 * One(IsText(m))
  {
    CountPush(x.inbox, m, IsReply);
    CountPush(x.inbox, m, IsText);
  }

  lemma ActorLoadPop(x: Actor)
    requires x.inbox != []
    ensures ActorLoad(x) == ActorLoad(x.(inbox := x.inbox[1..])) + One(IsReply(x.inbox[0])) + 4 * One(IsText(x.inbox[0]))
  {
    CountHead(x.inbox, IsReply);
    CountHead(x.inbox, IsText);
  }

  // ---------------------------------------------------------------- sources

  predicate KeepsActors(n: Node, n': Node) {
    forall a :: a in n.actors ==> a in n'.actors && n'.actors[a].client == n.actors[a].client
  }

  lemma StillKnown(n: Node, n': Node, c: ClientId)
    requires KeepsActors(n, n') && Known(n, c)
    ensures Known(n', c)
  {
    var a :| a in n.actors && n.actors[a].client == c;
    assert n'.actors[a].client == c;
  }

  lemma MailSourcedKept(n: Node, n': Node)
    requires MailSourced(n) && KeepsActors(n, n')
    requires forall u, m :: u in n'.cospaces && m in n'.cospaces[u].mailbox ==>
                              (u in n.cospaces && m in n.cospaces[u].mailbox) || MailKnown(n, m)
    ensures MailSourced(n')
  {
    hide Known;
    forall u, m | u in n'.cospaces && m in n'.cospaces[u].mailbox ensures MailKnown(n', m) {
      assert MailKnown(n, m);
      if m.FromClient? { StillKnown(n, n', m.c.client); }
      if m.FromService? && m.s.recipient.ToClient? { StillKnown(n, n', m.s.recipient.client); }
    }
  }

  lemma PoolSourcedKept(n: Node, n': Node)
    requires PoolSourced(n) && KeepsActors(n, n')
    requires forall s: Service, m :: m in Queue(n'.pool, s) && m.Incoming? ==>
                                       m in Queue(n.pool, s) || Known(n, m.m.client)
    ensures PoolSourced(n')
  {
    hide Known, Queue;
    forall s: Service, m | m in Queue(n'.pool, s) && m.Incoming? ensures Known(n', m.m.client) {
      StillKnown(n, n', m.m.client);
    }
  }

  lemma DropsSourcedKept(n: Node, n': Node)
    requires DropsSourced(n) && KeepsActors(n, n')
    requires forall u, id :: u in n'.cospaces && id in n'.cospaces[u].dropped ==>
                               (u in n.cospaces && id in n.cospaces[u].dropped) || Known(n, ClientId(id, u))
    ensures DropsSourced(n')
  {
    hide Known;
    forall u, id | u in n'.cospaces && id in n'.cospaces[u].dropped ensures Known(n', ClientId(id, u)) {
      StillKnown(n, n', ClientId(id, u));
    }
  }

  lemma HandledIsKnown(n: Node, u: Uuid)
    requires Local(n) && MailSourced(n) && Enabled(n, CospaceStep(u))
    ensures var m := n.cospaces[u].mailbox[0]; MailLocal(n, u, m) && MailKnown(n, m)
  {
    assert CospaceLocal(n, u);
  }

  lemma CospaceStepMail(n: Node, u: Uuid)
    requires Local(n) && MailSourced(n) && Enabled(n, CospaceStep(u))
    ensures MailSourced(StepCospace(n, u)) && KeepsActors(n, StepCospace(n, u))
  {
    HandleExtends(n, u);
    HandleShape(Taken(n, u), u, n.cospaces[u].mailbox[0]);
    hide Local, Known, Handle;
    MailSourcedKept(n, StepCospace(n, u));
  }

  lemma CospaceStepPool(n: Node, u: Uuid)
    requires Local(n) && MailSourced(n) && PoolSourced(n) && Enabled(n, CospaceStep(u))
    ensures PoolSourced(StepCospace(n, u))
  {
    hide Local, MailSourced, Known, Handle, Queue;
    CospaceStepMail(n, u);
    HandledIsKnown(n, u);
    var n', m := StepCospace(n, u), n.cospaces[u].mailbox[0];
    HandlePools(Taken(n, u), u, m);
    forall s: Service, y | y in Queue(n'.pool, s) && y.Incoming? ensures y in Queue(n.pool, s) || Known(n, y.m.client) {
      assert y in Queue(n.pool, s) || Pooled(m) == Some(y);
    }
    PoolSourcedKept(n, n');
  }

  lemma CospaceStepDrops(n: Node, u: Uuid)
    requires Local(n) && MailSourced(n) && DropsSourced(n) && Enabled(n, CospaceStep(u))
    ensures DropsSourced(StepCospace(n, u))
  {
    hide Local, MailSourced, Known, Handle;
    CospaceStepMail(n, u);
    HandledIsKnown(n, u);
    HandleShape(Taken(n, u), u, n.cospaces[u].mailbox[0]);
    DropsSourcedKept(n, StepCospace(n, u));
  }

  lemma CospaceStepSourced(n: Node, u: Uuid)
    requires Local(n) && Sourced(n) && Enabled(n, CospaceStep(u))
    ensures Sourced(StepCospace(n, u))
  {
    hide Local, MailSourced, PoolSourced, DropsSourced, StepCospace;
    CospaceStepMail(n, u);
    CospaceStepPool(n, u);
    CospaceStepDrops(n, u);
  }

  lemma ActorIsKnown(n: Node, a: Addr)
    requires a in n.actors
    ensures Known(n, n.actors[a].client)
  {
  }

  lemma ActorStepSourced(n: Node, a: Addr)
    requires Sourced(n) && Enabled(n, ActorStep(a))
    ensures Sourced(StepActor(n, a))
  {
    hide Forward, Known, Queue;
    var x, n' := n.actors[a], StepActor(n, a);
    if x.inbox[0].FromSocket? { ForwardIsRoutable(x.client, x.inbox[0].payload); }
    ActorIsKnown(n, a);
    MailSourcedKept(n, n');
    hide MailSourced;
    PoolSourcedKept(n, n');
    DropsSourcedKept(n, n');
  }

  lemma ServiceStepMail(n: Node, s: Service, i: nat)
    requires Local(n) && MailSourced(n) && PoolSourced(n) && Enabled(n, ServiceStep(s, i))
    ensures MailSourced(StepService(n, s, i))
  {
    var m := Queue(n.pool, s)[i];
    assert m.Incoming? ==> Known(n, m.m.client);
    if Mocker(s, m).Some? { ReplyFindsCospace(n, s, i); }
    hide Local, Known, Queue, WithQueue, Remove, PoolSourced, WireService;
    MailSourcedKept(n, StepService(n, s, i));
  }

  lemma ServiceStepSourced(n: Node, s: Service, i: nat)
    requires Local(n) && Sourced(n) && Enabled(n, ServiceStep(s, i))
    ensures Sourced(StepService(n, s, i))
  {
    hide Local, Known, Queue, WithQueue, Remove, MailSourced;
    var n' := StepService(n, s, i);
    ServiceStepMail(n, s, i);
    TakeRemoves(n.pool, s, i);
    PoolSourcedKept(n, n');
    DropsSourcedKept(n, n');
  }

  lemma UnmailedSourced(n: Node, l: Step)
    requires Sourced(n) && Enabled(n, l) && (l.CreateCospace? || l.Register? || l.CreateActor? || l.SocketIn?)
    ensures Sourced(Next(n, l))
  {
    hide Known, Queue;
    var n' := Next(n, l);
    MailSourcedKept(n, n');
    PoolSourcedKept(n, n');
    DropsSourcedKept(n, n');
  }

  lemma MailedSourced(n: Node, l: Step)
    requires Sourced(n) && Enabled(n, l) && (l.BeginUpgrade? || l.Announce?)
    ensures Sourced(Next(n, l))
  {
    hide Known, Queue;
    var n' := Next(n, l);
    MailSourcedKept(n, n');
    PoolSourcedKept(n, n');
    DropsSourcedKept(n, n');
  }

  // --------------------------------------------------------------- balances

  /** A client without an actor is owed nothing. */
  lemma UnknownIsQuiet(n: Node, c: ClientId)
    requires Local(n) && Sourced(n) && c.cospace in n.cospaces && !Known(n, c)
    ensures Load(n, c) == 0
  {
    var s := n.cospaces[c.cospace];
    forall m | m in s.mailbox ensures !TextFrom(c)(m) && !ReplyTo(c)(m) { assert MailKnown(n, m); }
    CountNone(s.mailbox, TextFrom(c));
    CountNone(s.mailbox, ReplyTo(c));
    assert forall q: Service, m :: m in Queue(n.pool, q) && m.Incoming? ==> m.m.client != c;
    QueueQuiet(n, Core, c);
    QueueQuiet(n, Presence, c);
    QueueQuiet(n, Activity, c);
    QueueQuiet(n, Model, c);
    assert c == ClientId(c.id, c.cospace);
    assert c.id !in s.dropped;
  }

  lemma QueueQuiet(n: Node, s: Service, c: ClientId)
    requires Sourced(n) && !Known(n, c)
    ensures Count(Queue(n.pool, s), TextOf(c)) == 0
  {
    CountNone(Queue(n.pool, s), TextOf(c));
  }

  lemma CreateActorBalanced(n: Node, k: nat, a: Addr, b: Addr)
    requires Sound(n) && Enabled(n, CreateActor(k, a)) && b in Next(n, CreateActor(k, a)).actors
    ensures Balanced(Next(n, CreateActor(k, a)), b)
  {
    if b == a {
      var c := n.upgrades[k].client;
      assert ReadyIn(n, k) && !Known(n, c);
      assert UpgradeOf(n.upgrades[k]) in n.cospaces;
      UnknownIsQuiet(n, c);
    } else {
      assert Balanced(n, b);
    }
  }

  /** Mail to a cospace that is neither a text nor a reply owes nothing to anyone. */
  lemma NeutralMail(n: Node, n': Node, u: Uuid, m: CospaceMsg, b: Addr)
    requires b in n.actors && Balanced(n, b) && u in n.cospaces && (m.GenerateId? || m.Connect?)
    requires n'.cospaces == n.cospaces[u := Mail(n.cospaces[u], m)] && n'.pool == n.pool
    requires b in n'.actors
    requires var x, y := n.actors[b], n'.actors[b];
             x.client == y.client && x.inbox == y.inbox && x.socket == y.socket && x.accepted == y.accepted
    ensures Balanced(n', b)
  {
    hide Count;
    MailLoadPush(n.cospaces[u], m, n.actors[b].client);
    hide MailLoad, PoolLoad;
  }

  lemma SocketInBalanced(n: Node, a: Addr, p: SocketMessage, b: Addr)
    requires Enabled(n, SocketIn(a, p)) && b in n.actors && Balanced(n, b)
    ensures Balanced(Next(n, SocketIn(a, p)), b)
  {
    hide Load, ActorLoad;
    if b == a { SocketInLoad(n.actors[a], p); }
    SameLoad(n, Next(n, SocketIn(a, p)), n.actors[b].client);
  }

  lemma SocketInLoad(x: Actor, p: SocketMessage)
    ensures var y := x.(inbox := x.inbox + [FromSocket(p)], accepted := if p.Text? then x.accepted + 1 else x.accepted);
            4 * y.accepted - ActorLoad(y) == 4 * x.accepted - ActorLoad(x)
  {
    ActorLoadPush(x, FromSocket(p));
    hide Count;
  }

  lemma SameLoad(n: Node, n': Node, c: ClientId)
    requires c.cospace in n.cospaces && c.cospace in n'.cospaces
    requires n'.pool == n.pool && n'.cospaces[c.cospace] == n.cospaces[c.cospace]
    ensures Load(n', c) == Load(n, c)
  {
  }

  /** Mail from or to one client is counted for that client only. */
  lemma MailedLoad(n: Node, n': Node, u: Uuid, m: CospaceMsg, c: ClientId)
    requires u in n.cospaces && c.cospace in n.cospaces
    requires n'.cospaces == n.cospaces[u := Mail(n.cospaces[u], m)] && n'.pool == n.pool
    ensures Load(n', c) == Load(n, c) + if c.cospace == u then 4 * One(TextFrom(c)(m)) + One(ReplyTo(c)(m)) else 0
  {
    MailLoadPush(n.cospaces[u], m, c);
    hide MailLoad;
  }

  lemma ActorStepBalanced(n: Node, a: Addr, b: Addr)
    requires Enabled(n, ActorStep(a)) && Distinct(n) && b in n.actors && Balanced(n, b)
    ensures Balanced(StepActor(n, a), b)
  {
    hide Load, Count, Forward;
    var n', x, c := StepActor(n, a), n.actors[a], n.actors[b].client;
    ActorLoadPop(x);
    if x.inbox[0].FromSocket? && Forward(x.client, x.inbox[0].payload).Some? {
      ForwardIsRoutable(x.client, x.inbox[0].payload);
      MailedLoad(n, n', x.client.cospace, FromClient(Forward(x.client, x.inbox[0].payload).value), c);
    } else {
      ForwardIsRoutable(x.client, if x.inbox[0].FromSocket? then x.inbox[0].payload else Text([]));
      SameLoad(n, n', c);
    }
  }

  lemma ServiceStepBalanced(n: Node, s: Service, i: nat, b: Addr)
    requires Local(n) && Enabled(n, ServiceStep(s, i)) && b in n.actors && Balanced(n, b)
    ensures Balanced(StepService(n, s, i), b)
  {
    var n', m, c := StepService(n, s, i), Queue(n.pool, s)[i], n.actors[b].client;
    var taken := n.(pool := WithQueue(n.pool, s, Remove(Queue(n.pool, s), i)));
    PoolLoadTake(n.pool, s, i, c);
    if Mocker(s, m).Some? {
      ReplyFindsCospace(n, s, i);
      MailedLoad(taken, n', m.m.client.cospace, FromService(Mocker(s, m).value), c);
    }
    hide Local, Count, PoolLoad, MailLoad, WithQueue, Remove;
  }

  // ------------------------------------------------- balances: cospace steps

  lemma GenerateBalanced(n: Node, u: Uuid, b: Addr)
    requires Enabled(n, CospaceStep(u)) && b in n.actors && Balanced(n, b) && n.cospaces[u].mailbox[0].GenerateId?
    ensures b in StepCospace(n, u).actors && Balanced(StepCospace(n, u), b)
  {
    MailLoadPop(n.cospaces[u], n.actors[b].client);
    hide Count, PoolLoad, ActorLoad;
  }

  lemma ConnectLoad(n: Node, u: Uuid, c: ClientId)
    requires Enabled(n, CospaceStep(u)) && n.cospaces[u].mailbox[0].Connect? && c.cospace in n.cospaces
    ensures c.cospace in StepCospace(n, u).cospaces && Load(StepCospace(n, u), c) == Load(n, c)
  {
    hide StepCospace, Count, PoolLoad, Broadcast;
    ConnectShape(n, u);
    MailLoadPop(n.cospaces[u], c);
    PoolLoadBroadcast(n.pool, Joined(n.cospaces[u].mailbox[0].client), c);
  }

  lemma ConnectBalanced(n: Node, u: Uuid, b: Addr)
    requires Enabled(n, CospaceStep(u)) && b in n.actors && Balanced(n, b) && n.cospaces[u].mailbox[0].Connect?
    ensures b in StepCospace(n, u).actors && Balanced(StepCospace(n, u), b)
  {
    hide StepCospace, Count, Load, Broadcast;
    ConnectShape(n, u);
    ConnectLoad(n, u, n.actors[b].client);
  }

  lemma FromClientBalanced(n: Node, u: Uuid, b: Addr)
    requires Local(n) && Enabled(n, CospaceStep(u)) && b in n.actors && Balanced(n, b)
    requires n.cospaces[u].mailbox[0].FromClient?
    ensures b in StepCospace(n, u).actors && Balanced(StepCospace(n, u), b)
  {
    var m, c := n.cospaces[u].mailbox[0], n.actors[b].client;
    assert MailLocal(n, u, m) by { assert CospaceLocal(n, u); }
    MailLoadPop(n.cospaces[u], c);
    if m.c.route.TellAll? {
      PoolLoadBroadcast(n.pool, Incoming(m.c), c);
    } else if PoolService(m.c.route.service).Some? {
      PoolLoadTell(n.pool, PoolService(m.c.route.service).value, Incoming(m.c), c);
    }
    hide Local, Count, PoolLoad, Broadcast, Tell;
  }

  lemma FromServiceBalanced(n: Node, u: Uuid, b: Addr)
    requires Local(n) && Distinct(n) && Enabled(n, CospaceStep(u)) && b in n.actors && Balanced(n, b)
    requires n.cospaces[u].mailbox[0].FromService?
    ensures b in StepCospace(n, u).actors && Balanced(StepCospace(n, u), b)
  {
    var s, m, c := n.cospaces[u], n.cospaces[u].mailbox[0], n.actors[b].client;
    assert CospaceLocal(n, u) && MailLocal(n, u, m);
    var id := m.s.recipient.client.id;
    assert id in s.clients ==> EntryLocal(n, u, id, s.clients[id]);
    MailLoadPop(s, c);
    ActorLoadPush(n.actors[b], FromCospace(m.s));
    hide Local, Count, PoolLoad;
  }

  lemma CospaceStepBalanced(n: Node, u: Uuid, b: Addr)
    requires Local(n) && Distinct(n) && Enabled(n, CospaceStep(u)) && b in n.actors && Balanced(n, b)
    ensures b in StepCospace(n, u).actors && Balanced(StepCospace(n, u), b)
  {
    hide Local, Distinct, Balanced, StepCospace;
    match n.cospaces[u].mailbox[0]
    case FromClient(_) => FromClientBalanced(n, u, b);
    case FromService(_) => FromServiceBalanced(n, u, b);
    case GenerateId(_) => GenerateBalanced(n, u, b);
    case Connect(_, _) => ConnectBalanced(n, u, b);
  }

  // -------------------------------------------------------- ids, step by step

  lemma CospaceStepIds(n: Node, u: Uuid)
    requires Local(n) && Numbered(n) && Distinct(n) && Enabled(n, CospaceStep(u))
    requires StepCospace(n, u).cospaces[u].issued < U32
    ensures Numbered(StepCospace(n, u)) && Distinct(StepCospace(n, u))
  {
    if n.cospaces[u].mailbox[0].GenerateId? {
      GenerateNumbered(n, u);
    } else {
      HandleExtends(n, u);
      HandleShape(Taken(n, u), u, n.cospaces[u].mailbox[0]);
      HandleCounts(Taken(n, u), u, n.cospaces[u].mailbox[0]);
      hide Local, Handle;
      SameIdsNumbered(n, StepCospace(n, u));
    }
  }

  lemma HandleCounts(x: Scope, u: Uuid, m: CospaceMsg)
    requires !m.GenerateId?
    ensures var y := Handle(x, u, m);
            y.cospace.issued == x.cospace.issued && y.cospace.counter == x.cospace.counter
  {
  }

  lemma StepIds(n: Node, l: Step)
    requires Local(n) && Numbered(n) && Distinct(n) && Enabled(n, l) && Below(Next(n, l))
    ensures Numbered(Next(n, l)) && Distinct(Next(n, l))
  {
    hide Numbered, Distinct;
    match l
    case CreateActor(k, a) => CreateActorNumbered(n, k, a);
    case CospaceStep(u) => CospacesStay(n, l, u); CospaceStepIds(n, u);
    case ActorStep(a) => ActorStepIds(n, a);
    case ServiceStep(s, i) => ServiceStepIds(n, s, i);
    case _ => PlainStepIds(n, l);
  }

  lemma PlainStepIds(n: Node, l: Step)
    requires Numbered(n) && Distinct(n) && Enabled(n, l)
    requires l.CreateCospace? || l.Register? || l.BeginUpgrade? || l.Announce? || l.SocketIn?
    ensures Numbered(Next(n, l)) && Distinct(Next(n, l))
  {
    hide Numbered, Distinct;
    SameIdsNumbered(n, Next(n, l));
  }

  lemma ActorStepIds(n: Node, a: Addr)
    requires Numbered(n) && Distinct(n) && Enabled(n, ActorStep(a))
    ensures Numbered(StepActor(n, a)) && Distinct(StepActor(n, a))
  {
    hide Numbered, Distinct, Forward;
    SameIdsNumbered(n, StepActor(n, a));
  }

  lemma ServiceStepIds(n: Node, s: Service, i: nat)
    requires Numbered(n) && Distinct(n) && Enabled(n, ServiceStep(s, i))
    ensures Numbered(StepService(n, s, i)) && Distinct(StepService(n, s, i))
  {
    hide Numbered, Distinct, Queue, WithQueue, Remove;
    SameIdsNumbered(n, StepService(n, s, i));
  }

  // ------------------------------------------------------ links, step by step

  /** Mail other than a Connect. */
  lemma MailedLinks(n: Node, n': Node, u: Uuid, m: CospaceMsg)
    requires Links(n) && u in n.cospaces && !m.Connect?
    requires n'.cospaces == n.cospaces[u := Mail(n.cospaces[u], m)]
    requires forall a :: a in n'.actors ==>
               a in n.actors && n'.actors[a].client == n.actors[a].client && n'.actors[a].link == n.actors[a].link
    ensures Links(n')
  {
    hide Count;
    forall a | a in n'.actors ensures LinkOf(n', a) {
      assert LinkOf(n, a);
      CountPush(n.cospaces[u].mailbox, m, ConnectFor(a));
    }
  }

  lemma UnmailedLinks(n: Node, n': Node)
    requires Links(n) && (forall u :: u in n.cospaces ==> u in n'.cospaces && n'.cospaces[u] == n.cospaces[u])
    requires forall a :: a in n'.actors ==>
               a in n.actors && n'.actors[a].client == n.actors[a].client && n'.actors[a].link == n.actors[a].link
    ensures Links(n')
  {
    hide Count;
    forall a | a in n'.actors ensures LinkOf(n', a) { assert LinkOf(n, a); }
  }

  lemma HandleLinks(x: Scope, u: Uuid, m: CospaceMsg)
    requires !m.Connect?
    ensures forall a :: a in x.actors ==> a in Handle(x, u, m).actors && Handle(x, u, m).actors[a].link == x.actors[a].link
  {
    hide Broadcast, Tell;
  }

  lemma OtherMailLinks(n: Node, u: Uuid)
    requires Local(n) && Links(n) && Enabled(n, CospaceStep(u)) && !n.cospaces[u].mailbox[0].Connect?
    ensures Links(StepCospace(n, u))
  {
    hide Local, Handle, Count;
    var n', m := StepCospace(n, u), n.cospaces[u].mailbox[0];
    HandleExtends(n, u);
    HandleShape(Taken(n, u), u, m);
    HandleLinks(Taken(n, u), u, m);
    forall a | a in n'.actors ensures LinkOf(n', a) {
      assert LinkOf(n, a);
      CountHead(n.cospaces[u].mailbox, ConnectFor(a));
    }
  }

  lemma ActorStepLinks(n: Node, a: Addr)
    requires Links(n) && Enabled(n, ActorStep(a))
    ensures Links(StepActor(n, a))
  {
    hide Links, Forward;
    var x, n' := n.actors[a], StepActor(n, a);
    if x.inbox[0].FromSocket? && Forward(x.client, x.inbox[0].payload).Some? {
      MailedLinks(n, n', x.client.cospace, FromClient(Forward(x.client, x.inbox[0].payload).value));
    } else {
      UnmailedLinks(n, n');
    }
  }

  lemma ServiceStepLinks(n: Node, s: Service, i: nat)
    requires Local(n) && Links(n) && Enabled(n, ServiceStep(s, i))
    ensures Links(StepService(n, s, i))
  {
    var m, n' := Queue(n.pool, s)[i], StepService(n, s, i);
    if Mocker(s, m).Some? { ReplyFindsCospace(n, s, i); }
    hide Local, Links, Queue, WithQueue, Remove;
    if Mocker(s, m).Some? {
      MailedLinks(n, n', m.m.client.cospace, FromService(Mocker(s, m).value));
    } else {
      UnmailedLinks(n, n');
    }
  }

  lemma StepLinks(n: Node, l: Step)
    requires Local(n) && Links(n) && Distinct(n) && Enabled(n, l)
    ensures Links(Next(n, l))
  {
    hide Local, Links, Distinct, StepCospace, StepActor, StepService;
    match l
    case CreateCospace(u) => UnmailedLinks(n, Next(n, l));
    case Register(u) => UnmailedLinks(n, Next(n, l));
    case BeginUpgrade(k, u) => MailedLinks(n, Next(n, l), u, GenerateId(k));
    case CospaceStep(u) =>
      if n.cospaces[u].mailbox[0].Connect? { ConnectLinks(n, u); } else { OtherMailLinks(n, u); }
    case CreateActor(k, a) => CreateActorLinks(n, k, a);
    case Announce(a) => AnnounceLinks(n, a);
    case SocketIn(a, p) => UnmailedLinks(n, Next(n, l));
    case ActorStep(a) => ActorStepLinks(n, a);
    case ServiceStep(s, i) => ServiceStepLinks(n, s, i);
  }

  // --------------------------------------------------------------- all steps

  lemma StepSourced(n: Node, l: Step)
    requires Local(n) && Sourced(n) && Enabled(n, l)
    ensures Sourced(Next(n, l))
  {
    hide Local, Sourced, StepCospace, StepActor, StepService;
    match l
    case CospaceStep(u) => CospaceStepSourced(n, u);
    case ActorStep(a) => ActorStepSourced(n, a);
    case ServiceStep(s, i) => ServiceStepSourced(n, s, i);
    case BeginUpgrade(_, _) => MailedSourced(n, l);
    case Announce(_) => MailedSourced(n, l);
    case _ => UnmailedSourced(n, l);
  }

  lemma CreateCospaceBalanced(n: Node, l: Step, b: Addr)
    requires Enabled(n, l) && (l.CreateCospace? || l.Register?) && b in n.actors && Balanced(n, b)
    ensures Balanced(Next(n, l), b)
  {
    SameLoad(n, Next(n, l), n.actors[b].client);
    hide Load;
  }

  lemma QuietBalanced(n: Node, l: Step, b: Addr)
    requires Enabled(n, l) && b in n.actors && Balanced(n, b)
    requires l.CreateCospace? || l.Register? || l.BeginUpgrade? || l.Announce? || l.SocketIn?
    ensures b in Next(n, l).actors && Balanced(Next(n, l), b)
  {
    hide Balanced;
    match l
    case CreateCospace(u) => CreateCospaceBalanced(n, l, b);
    case Register(u) => CreateCospaceBalanced(n, l, b);
    case BeginUpgrade(k, u) => NeutralMail(n, Next(n, l), u, GenerateId(k), b);
    case Announce(a) => NeutralMail(n, Next(n, l), n.actors[a].client.cospace, Connect(n.actors[a].client, a), b);
    case SocketIn(a, p) => SocketInBalanced(n, a, p, b);
  }

  lemma StepBalanced(n: Node, l: Step, b: Addr)
    requires Sound(n) && Enabled(n, l) && b in Next(n, l).actors
    ensures Balanced(Next(n, l), b)
  {
    hide Local, Balanced, Links, Distinct, Sourced, Numbered, StepCospace, StepActor, StepService;
    if l.CreateActor? {
      CreateActorBalanced(n, l.k, l.a, b);
    } else {
      ActorsBefore(n, l);
      match l
      case CospaceStep(u) => CospaceStepBalanced(n, u, b);
      case ActorStep(a) => ActorStepBalanced(n, a, b);
      case ServiceStep(s, i) => ServiceStepBalanced(n, s, i, b);
      case _ => QuietBalanced(n, l, b);
    }
  }

  lemma ActorsBefore(n: Node, l: Step)
    requires Local(n) && Enabled(n, l) && !l.CreateActor?
    ensures forall b :: b in Next(n, l).actors ==> b in n.actors
  {
    if l.CospaceStep? { HandleExtends(n, l.u); }
    hide Local, StepCospace, Forward;
  }

  lemma NextKeepsSound(n: Node, l: Step)
    requires Sound(n) && Below(Next(n, l))
    ensures Sound(Next(n, l))
  {
    if Enabled(n, l) {
      NextKeepsLocal(n, l);
      StepIds(n, l);
      StepLinks(n, l);
      StepSourced(n, l);
      forall b | b in Next(n, l).actors ensures Balanced(Next(n, l), b) { StepBalanced(n, l, b); }
      hide Local, Balanced, Links, Distinct, Sourced, Numbered, Next;
    }
  }

  /** Ids already generated stay generated, so a run that ends below overflow was below it throughout. */
  lemma {:induction false} RunKeepsSound(n: Node, ls: seq<Step>)
    requires Sound(n) && Below(Run(n, ls))
    ensures Sound(Run(n, ls))
    decreases ls
  {
    hide Sound, Below, Next;
    if ls != [] {
      WasBelow(Next(n, ls[0]), ls[1..]);
      NextKeepsSound(n, ls[0]);
      RunKeepsSound(Next(n, ls[0]), ls[1..]);
    }
  }

  predicate IssuedMore(n: Node, n': Node) {
    forall u :: u in n.cospaces ==> u in n'.cospaces && n'.cospaces[u].issued >= n.cospaces[u].issued
  }

  lemma NextIssuesMore(n: Node, l: Step)
    ensures IssuedMore(n, Next(n, l))
  {
    hide Forward, Mocker, Broadcast, Tell, HandleService, HandleClient;
    if l.CospaceStep? && Enabled(n, l) {
      HandleIssues(Taken(n, l.u), l.u, n.cospaces[l.u].mailbox[0]);
      hide Handle;
    }
  }

  lemma HandleIssues(x: Scope, u: Uuid, m: CospaceMsg)
    ensures Handle(x, u, m).cospace.issued >= x.cospace.issued
  {
    hide Broadcast, Tell;
  }

  lemma {:induction false} WasBelow(n: Node, ls: seq<Step>)
    requires Below(Run(n, ls))
    ensures Below(n) && IssuedMore(n, Run(n, ls))
    decreases ls
  {
    hide Next;
    if ls != [] {
      NextIssuesMore(n, ls[0]);
      WasBelow(Next(n, ls[0]), ls[1..]);
    }
  }

  lemma StartSound(start: Node)
    requires Start(start)
    ensures Sound(start)
  {
  }

  lemma StartIsSound(start: Node, ls: seq<Step>)
    requires Start(start) && Below(Run(start, ls))
    ensures Sound(Run(start, ls))
  {
    StartSound(start);
    hide Sound, Start;
    RunKeepsSound(start, ls);
  }

  // ---------------------------------------------------------------- theorems

  /**
   Client tables, in any run below overflow: no two upgrades were given the same client id and
   no two actors have the same one, a table entry under an id is the actor with that id in that
   cospace, and every Connect on its way is for an id that is not in the table and that no
   other Connect is for, so that none overwrites another client.
   */
  lemma TableIntegrity(start: Node, ls: seq<Step>, u: Uuid)
    requires Start(start) && Below(Run(start, ls)) && u in Run(start, ls).cospaces
    ensures var n := Run(start, ls); var c := n.cospaces[u];
            && (forall k, j :: HasId(n, k) && HasId(n, j) && n.upgrades[k].client == n.upgrades[j].client ==> k == j)
            && (forall a, b :: a in n.actors && b in n.actors && n.actors[a].client == n.actors[b].client ==> a == b)
            && (forall id :: id in c.clients ==>
                  c.clients[id] in n.actors && n.actors[c.clients[id]].client == ClientId(id, u))
            && (forall i :: 0 <= i < |c.mailbox| && c.mailbox[i].Connect? ==> c.mailbox[i].client.id !in c.clients)
            && (forall i, j :: 0 <= i < j < |c.mailbox| && c.mailbox[i].Connect? && c.mailbox[j].Connect? ==>
                  c.mailbox[i].client.id != c.mailbox[j].client.id)
  {
    StartIsSound(start, ls);
    hide Run;
    var n := Run(start, ls);
    var c := n.cospaces[u];
    assert CospaceLocal(n, u);
    forall id | id in c.clients
      ensures c.clients[id] in n.actors && n.actors[c.clients[id]].client == ClientId(id, u)
    {
      assert EntryLocal(n, u, id, c.clients[id]);
    }
    forall i | 0 <= i < |c.mailbox| && c.mailbox[i].Connect?
      ensures c.mailbox[i].client.id !in c.clients
      ensures forall j :: 0 <= j < |c.mailbox| && j != i && c.mailbox[j].Connect? ==>
                            c.mailbox[j].client.id != c.mailbox[i].client.id
    {
      ConnectIsNew(n, u, i);
    }
  }

  /**
   Texts, in any run below overflow: four times the texts that arrived on a client's socket
   are the replies that left on it, those in its actor's inbox, four for every text still in
   the inbox or the cospace's mailbox, one for every text in a service's queue and every reply
   in the mailbox, and those dropped.
   */
  lemma TextConservation(start: Node, ls: seq<Step>, a: Addr)
    requires Start(start) && Below(Run(start, ls)) && a in Run(start, ls).actors
    ensures var n := Run(start, ls);
            var x := n.actors[a];
            && x.client.cospace in n.cospaces
            && var s := n.cospaces[x.client.cospace];
               4 * x.accepted ==
               |x.socket| + Count(x.inbox, IsReply) + 4 * Count(x.inbox, IsText)
               + 4 * Count(s.mailbox, TextFrom(x.client)) + PoolLoad(n.pool, x.client)
               + Count(s.mailbox, ReplyTo(x.client)) + s.dropped[x.client.id]
  {
    StartIsSound(start, ls);
    hide Run, Count, PoolLoad;
    assert Balanced(Run(start, ls), a);
  }

  predicate IsLinked(n: Node, a: Addr) { a in n.actors && n.actors[a].link.Linked? }

  /** Once its Connect is handled, a client loses nothing more. */
  lemma {:induction false} NoDropOnceLinked(n: Node, ls: seq<Step>, a: Addr)
    requires Sound(n) && Below(Run(n, ls)) && IsLinked(n, a)
    ensures IsLinked(Run(n, ls), a) && Run(n, ls).actors[a].client == n.actors[a].client
    ensures StaysLinked(n, Run(n, ls), a)
    decreases ls
  {
    hide Sound, Below, Next;
    if ls != [] {
      WasBelow(Next(n, ls[0]), ls[1..]);
      NextKeepsSound(n, ls[0]);
      LinkedStep(n, ls[0], a);
      NoDropOnceLinked(Next(n, ls[0]), ls[1..], a);
    } else {
      LinkedCospace(n, a);
    }
  }

  /**
   Drops happen only before a client's Connect is handled. In particular a client that was
   linked before its first text gets, in every continuation, all the replies it is owed.
   */
  lemma DropsOnlyBeforeConnect(start: Node, ls: seq<Step>, more: seq<Step>, a: Addr)
    requires Start(start) && Below(Run(start, ls + more)) && IsLinked(Run(start, ls), a)
    ensures var n, n' := Run(start, ls), Run(start, ls + more);
            && StaysLinked(n, n', a)
            && (n.actors[a].accepted == 0 ==>
                  var c := n.actors[a].client; n'.cospaces[c.cospace].dropped[c.id] == 0)
  {
    RunAppend(start, ls, more);
    var n := Run(start, ls);
    WasBelow(n, more);
    StartIsSound(start, ls);
    NoDropOnceLinked(n, more, a);
    hide Run;
    assert Balanced(n, a);
  }

  lemma LinkedCospace(n: Node, a: Addr)
    requires Sound(n) && IsLinked(n, a)
    ensures var c := n.actors[a].client;
            c.cospace in n.cospaces && c.id in n.cospaces[c.cospace].clients
  {
    assert LinkOf(n, a);
  }

  /** What it means that nothing was dropped for `a` and it stayed linked. */
  predicate StaysLinked(n: Node, n': Node, a: Addr)
    requires a in n.actors
  {
    var c := n.actors[a].client;
    && IsLinked(n', a) && n'.actors[a].client == c
    && c.cospace in n.cospaces && c.cospace in n'.cospaces
    && n'.cospaces[c.cospace].dropped[c.id] == n.cospaces[c.cospace].dropped[c.id]
  }

  lemma LinkedStep(n: Node, l: Step, a: Addr)
    requires Sound(n) && IsLinked(n, a)
    ensures StaysLinked(n, Next(n, l), a)
  {
    LinkedCospace(n, a);
    hide Sound, StaysLinked;
    if l.CospaceStep? && Enabled(n, l) {
      if n.cospaces[l.u].mailbox[0].Connect? { LinkedConnect(n, l.u, a); } else { LinkedHandle(n, l.u, a); }
      hide StepCospace;
    } else if l.ActorStep? || l.ServiceStep? {
      LinkedForward(n, l, a);
    } else {
      LinkedPlain(n, l, a);
    }
  }

  lemma LinkedPlain(n: Node, l: Step, a: Addr)
    requires IsLinked(n, a) && n.actors[a].client.cospace in n.cospaces
    requires Enabled(n, l) ==> !l.CospaceStep? && !l.ActorStep? && !l.ServiceStep?
    ensures StaysLinked(n, Next(n, l), a)
  {
  }

  lemma LinkedForward(n: Node, l: Step, a: Addr)
    requires IsLinked(n, a) && n.actors[a].client.cospace in n.cospaces && (l.ActorStep? || l.ServiceStep?)
    ensures StaysLinked(n, Next(n, l), a)
  {
    hide Forward, Mocker, Queue, WithQueue, Remove;
  }

  lemma LinkedConnect(n: Node, u: Uuid, a: Addr)
    requires IsLinked(n, a) && n.actors[a].client.cospace in n.cospaces
    requires Enabled(n, CospaceStep(u)) && n.cospaces[u].mailbox[0].Connect?
    ensures StaysLinked(n, StepCospace(n, u), a)
  {
    hide Broadcast;
  }

  /** A linked client is in its cospace's table, so a message to it is not dropped. */
  lemma LinkedHandle(n: Node, u: Uuid, a: Addr)
    requires IsLinked(n, a) && Enabled(n, CospaceStep(u)) && !n.cospaces[u].mailbox[0].Connect?
    requires Sound(n)
    ensures StaysLinked(n, StepCospace(n, u), a)
  {
    hide Handle, Sound;
    LinkedCospace(n, a);
    HandleShape(Taken(n, u), u, n.cospaces[u].mailbox[0]);
    HandleLinks(Taken(n, u), u, n.cospaces[u].mailbox[0]);
  }

  // -------------------------------------------------------------------- drops

  /** Whether the connection actor of a client is in its cospace's table. */
  predicate ClientLinked(n: Node, c: ClientId) {
    exists a :: a in n.actors && n.actors[a].client == c && n.actors[a].link.Linked?
  }

  /** The reply at the head of a cospace's mailbox, if there is one. */
  function HeadReply(n: Node, u: Uuid): Option<ClientId>
    requires u in n.cospaces
  {
    var box := n.cospaces[u].mailbox;
    if box != [] && box[0].FromService? && box[0].s.recipient.ToClient? then Some(box[0].s.recipient.client) else None
  }

  lemma LinkedInTable(n: Node, c: ClientId)
    requires Sound(n) && c.cospace in n.cospaces && Known(n, c)
    ensures ClientLinked(n, c) <==> c.id in n.cospaces[c.cospace].clients
  {
    var a :| a in n.actors && n.actors[a].client == c;
    var table := n.cospaces[c.cospace].clients;
    assert CospaceLocal(n, c.cospace);
    assert c.id in table ==> EntryLocal(n, c.cospace, c.id, table[c.id]);
    assert c.id in table ==> LinkOf(n, table[c.id]);
    forall b | b in n.actors && n.actors[b].client == c && n.actors[b].link.Linked? ensures c.id in table {
      assert LinkOf(n, b);
    }
  }

  /** Steps other than a cospace's own drop nothing for it. */
  lemma OthersDropNothing(n: Node, l: Step, u: Uuid)
    requires u in n.cospaces && l != CospaceStep(u)
    ensures u in Next(n, l).cospaces && Next(n, l).cospaces[u].dropped == n.cospaces[u].dropped
  {
    hide Handle, Forward, Mocker, Queue, WithQueue, Remove;
  }

  lemma HeadReplyIsKnown(n: Node, u: Uuid)
    requires Local(n) && Sourced(n) && u in n.cospaces && HeadReply(n, u).Some?
    ensures Known(n, HeadReply(n, u).value) && HeadReply(n, u).value.cospace == u
  {
    var m := n.cospaces[u].mailbox[0];
    assert CospaceLocal(n, u) && MailLocal(n, u, m) && MailKnown(n, m);
  }

  /**
   Drops, exactly, in any run below overflow: a step drops something in a cospace if and only
   if it has the cospace handle a reply to a client that is not linked, and it then drops that
   reply and nothing else.
   */
  lemma DropExactly(start: Node, ls: seq<Step>, l: Step, u: Uuid)
    requires Start(start) && Below(Run(start, ls)) && u in Run(start, ls).cospaces
    ensures var n := Run(start, ls); var n' := Next(n, l);
            && u in n'.cospaces
            && n'.cospaces[u].dropped == n.cospaces[u].dropped +
               (if l == CospaceStep(u) && HeadReply(n, u).Some? && !ClientLinked(n, HeadReply(n, u).value)
                then multiset{HeadReply(n, u).value.id} else multiset{})
  {
    StartIsSound(start, ls);
    hide Run;
    var n := Run(start, ls);
    if l == CospaceStep(u) && Enabled(n, l) {
      HandleShape(Taken(n, u), u, n.cospaces[u].mailbox[0]);
      if HeadReply(n, u).Some? {
        HeadReplyIsKnown(n, u);
        LinkedInTable(n, HeadReply(n, u).value);
      }
      hide Handle, Sound, ClientLinked;
    } else if l != CospaceStep(u) {
      OthersDropNothing(n, l, u);
    }
  }

  const EARLY: ClientId := ClientId(1, 7)
  const EARLY_TEXT: ClientMessage := ClientMessage(TellAll, EARLY, Text([]))
  const EARLY_REPLY: ServiceMessage := ServiceMessage(WireService(Core), ToClient(EARLY), Text(REPLY))

  /** A client is let in and its actor created; the cospace has not heard of it. */
  const ARRIVAL: seq<Step> := [CreateCospace(7), Register(7), BeginUpgrade(0, 7), CospaceStep(7), CreateActor(0, 1)]
  /** It sends a text, and the first service replies. */
  const EARLY_BIRD: seq<Step> := [SocketIn(1, Text([])), ActorStep(1), CospaceStep(7), ServiceStep(Core, 0), CospaceStep(7)]

  /** The node with that client in it, not yet announced to its cospace. */
  function Early(c: Cospace, p: Pool, inbox: seq<ActorMsg>, accepted: nat): Node {
    Node(Shared, map[7 := c], {7}, p, map[1 := Actor(EARLY, inbox, [], Unannounced, accepted)], map[0 := Done(EARLY)])
  }

  const ONE_ISSUED: Cospace := NEW_COSPACE.(counter := 2, issued := 1)

  lemma StepOff(n: Node, ls: seq<Step>)
    requires ls != []
    ensures Run(n, ls) == Run(Next(n, ls[0]), ls[1..])
  {
  }

  lemma ArrivalRun()
    ensures Run(SHARED_NODE, ARRIVAL) == Early(ONE_ISSUED, EMPTY_POOL, [], 0)
  {
    var ls := ARRIVAL;
    var n2 := Next(Next(SHARED_NODE, ls[0]), ls[1]);
    assert n2 == SHARED_NODE.(cospaces := map[7 := NEW_COSPACE], registry := {7});
    var n3 := Next(n2, ls[2]);
    assert n3 == n2.(cospaces := map[7 := Mail(NEW_COSPACE, GenerateId(0))], upgrades := map[0 := Waiting(7)]);
    var n4 := Next(n3, ls[3]);
    assert n3.cospaces[7].mailbox == [GenerateId(0)] && n3.cospaces[7].mailbox[1..] == [];
    assert n3.cospaces[7 := ONE_ISSUED] == map[7 := ONE_ISSUED] && n3.upgrades[0 := Ready(EARLY)] == map[0 := Ready(EARLY)];
    assert n4 == n2.(cospaces := map[7 := ONE_ISSUED], upgrades := map[0 := Ready(EARLY)]);
    assert n4.upgrades[0 := Done(EARLY)] == map[0 := Done(EARLY)];
    assert Next(n4, ls[4]) == Early(ONE_ISSUED, EMPTY_POOL, [], 0);
    hide Next;
    StepOff(SHARED_NODE, ls);
    StepOff(Next(SHARED_NODE, ls[0]), ls[1..]);
    StepOff(n2, ls[2..]);
    StepOff(n3, ls[3..]);
    StepOff(n4, ls[4..]);
    assert ls[1..][1..] == ls[2..] && ls[2..][1..] == ls[3..] && ls[3..][1..] == ls[4..] && ls[4..][1..] == [];
  }

  lemma TextForwarded(c: Cospace, p: Pool)
    ensures Next(Early(c, p, [], 0), SocketIn(1, Text([]))) == Early(c, p, [FromSocket(Text([]))], 1)
    ensures Next(Early(c, p, [FromSocket(Text([]))], 1), ActorStep(1)) ==
            Early(Mail(c, FromClient(EARLY_TEXT)), p, [], 1)
  {
    var x := FromSocket(Text([]));
    assert [] + [x] == [x] && [x][1..] == [];
    var n := Early(c, p, [x], 1);
    assert Early(c, p, [], 0).actors[1 := n.actors[1]] == n.actors;
    assert n.actors[1 := n.actors[1].(inbox := [])] == Early(c, p, [], 1).actors;
    assert n.cospaces[7 := Mail(c, FromClient(EARLY_TEXT))] == map[7 := Mail(c, FromClient(EARLY_TEXT))];
  }

  lemma TextBroadcast(c: Cospace, p: Pool)
    requires c.mailbox == [FromClient(EARLY_TEXT)]
    ensures Next(Early(c, p, [], 1), CospaceStep(7)) ==
            Early(c.(mailbox := []), Broadcast(p, Incoming(EARLY_TEXT)), [], 1)
  {
    hide Broadcast;
    assert c.mailbox[1..] == [];
    var c' := c.(mailbox := []);
    assert map[7 := c][7 := c'] == map[7 := c'];
  }

  lemma TextAnswered(c: Cospace, p: Pool)
    requires p.core == [Incoming(EARLY_TEXT)]
    ensures Next(Early(c, p, [], 1), ServiceStep(Core, 0)) ==
            Early(Mail(c, FromService(EARLY_REPLY)), p.(core := []), [], 1)
  {
    assert Remove(p.core, 0) == [];
    var c' := Mail(c, FromService(EARLY_REPLY));
    assert map[7 := c][7 := c'] == map[7 := c'];
  }

  lemma ReplyDropped(c: Cospace, p: Pool)
    requires c.mailbox == [FromService(EARLY_REPLY)] && c.clients == map[] && c.dropped == multiset{}
    ensures Next(Early(c, p, [], 1), CospaceStep(7)) == Early(c.(mailbox := [], dropped := multiset{1}), p, [], 1)
  {
    assert c.mailbox[1..] == [];
    assert c.dropped + multiset{EARLY.id} == multiset{1};
    var c' := c.(mailbox := [], dropped := multiset{1});
    assert map[7 := c][7 := c'] == map[7 := c'];
  }

  lemma EarlyBirdRun()
    ensures Run(Early(ONE_ISSUED, EMPTY_POOL, [], 0), EARLY_BIRD) ==
            Early(ONE_ISSUED.(dropped := multiset{1}), Broadcast(EMPTY_POOL, Incoming(EARLY_TEXT)).(core := []), [], 1)
  {
    hide Next, Early;
    var ls, c, p := EARLY_BIRD, ONE_ISSUED, Broadcast(EMPTY_POOL, Incoming(EARLY_TEXT));
    TextForwarded(c, EMPTY_POOL);
    TextBroadcast(Mail(c, FromClient(EARLY_TEXT)), EMPTY_POOL);
    TextAnswered(c, p);
    ReplyDropped(Mail(c, FromService(EARLY_REPLY)), p.(core := []));
    StepOff(Early(c, EMPTY_POOL, [], 0), ls);
    StepOff(Early(c, EMPTY_POOL, [FromSocket(Text([]))], 1), ls[1..]);
    StepOff(Early(Mail(c, FromClient(EARLY_TEXT)), EMPTY_POOL, [], 1), ls[2..]);
    StepOff(Early(c, p, [], 1), ls[3..]);
    StepOff(Early(Mail(c, FromService(EARLY_REPLY)), p.(core := []), [], 1), ls[4..]);
    assert ls[1..][1..] == ls[2..] && ls[2..][1..] == ls[3..] && ls[3..][1..] == ls[4..] && ls[4..][1..] == [];
  }

  /** Drops do happen: this client's text was answered before its Connect was even sent, and the reply is lost. */
  lemma DropHappens()
    ensures var n := Run(SHARED_NODE, ARRIVAL + EARLY_BIRD);
            && Below(n) && 1 in n.actors && n.actors[1].client == EARLY && n.actors[1].accepted == 1
            && 7 in n.cospaces && n.cospaces[7].dropped[1] == 1
  {
    RunAppend(SHARED_NODE, ARRIVAL, EARLY_BIRD);
    ArrivalRun();
    EarlyBirdRun();
    hide Run;
  }

  // ------------------------------------------------------------------ content

  /** What the repository's service sends: its fixed text, from a service that has a pool, to one client. */
  predicate Genuine(m: ServiceMessage) {
    m.payload == Text(REPLY) && PoolService(m.sender).Some? && m.recipient.ToClient?
  }

  predicate MailGenuine(c: Cospace) {
    forall m :: m in c.mailbox && m.FromService? ==> Genuine(m.s)
  }

  predicate ActorGenuine(x: Actor) {
    && (forall m :: m in x.inbox && m.FromCospace? ==> Genuine(m.m))
    && (forall p :: p in x.socket ==> p == Text(REPLY))
  }

  predicate ActorsGenuine(actors: map<Addr, Actor>) { forall a :: a in actors ==> ActorGenuine(actors[a]) }

  predicate AllGenuine(n: Node) {
    (forall u :: u in n.cospaces ==> MailGenuine(n.cospaces[u])) && ActorsGenuine(n.actors)
  }

  lemma HandleGenuine(x: Scope, u: Uuid, m: CospaceMsg)
    requires ActorsGenuine(x.actors) && (m.FromService? ==> Genuine(m.s))
    ensures ActorsGenuine(Handle(x, u, m).actors)
  {
    hide Broadcast, Tell, Genuine;
  }

  lemma CospaceStepGenuine(n: Node, u: Uuid)
    requires AllGenuine(n) && Enabled(n, CospaceStep(u))
    ensures AllGenuine(StepCospace(n, u))
  {
    var m := n.cospaces[u].mailbox[0];
    assert MailGenuine(n.cospaces[u]);
    HandleGenuine(Taken(n, u), u, m);
    HandleShape(Taken(n, u), u, m);
    hide Handle, Genuine, ActorsGenuine;
  }

  lemma NextKeepsGenuine(n: Node, l: Step)
    requires AllGenuine(n)
    ensures AllGenuine(Next(n, l))
  {
    hide Forward, Queue, WithQueue, Remove;
    if l.CospaceStep? && Enabled(n, l) {
      CospaceStepGenuine(n, l.u);
      hide StepCospace, AllGenuine;
    }
  }

  lemma {:induction false} RunKeepsGenuine(n: Node, ls: seq<Step>)
    requires AllGenuine(n)
    ensures AllGenuine(Run(n, ls))
    decreases ls
  {
    hide AllGenuine, Next;
    if ls != [] {
      NextKeepsGenuine(n, ls[0]);
      RunKeepsGenuine(Next(n, ls[0]), ls[1..]);
    }
  }

  /** Everything a client's socket ever carries is the service's reply. */
  lemma SocketsCarryReplies(start: Node, ls: seq<Step>, a: Addr)
    requires Start(start) && a in Run(start, ls).actors
    ensures forall p :: p in Run(start, ls).actors[a].socket ==> p == Text(REPLY)
  {
    RunKeepsGenuine(start, ls);
    hide Run;
    assert ActorGenuine(Run(start, ls).actors[a]);
  }
}
