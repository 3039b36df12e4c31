/**
 What a node can always still do: make every client known to its cospace, and deliver every
 reply that is owed. The continuations are given as runs.
 */
module Progress {
  import opened Base
  import opened Wire
  import opened Counting
  import opened Routing
  import opened Projection
  import opened Delivery

  function Repeat(l: Step, k: nat): seq<Step> {
    if k == 0 then [] else [l] + Repeat(l, k - 1)
  }

  lemma RepeatStep(n: Node, l: Step, k: nat)
    requires k > 0
    ensures Run(n, Repeat(l, k)) == Run(Next(n, l), Repeat(l, k - 1))
  {
    hide Next;
    assert Repeat(l, k)[1..] == Repeat(l, k - 1);
  }

  /** The actor and what it is owed by its cospace are still there; it has accepted no more texts. */
  predicate Keeps(n: Node, n': Node, a: Addr)
    requires a in n.actors
  {
    && a in n'.actors && n'.actors[a].client == n.actors[a].client && n'.actors[a].accepted == n.actors[a].accepted
    && n'.cospaces.Keys == n.cospaces.Keys
  }

  // ------------------------------------------------------------------ linking

  lemma MailTaken(n: Node, u: Uuid, a: Addr)
    requires Enabled(n, CospaceStep(u)) && a in n.actors
    ensures var n', c := Next(n, CospaceStep(u)), n.cospaces[u];
            && Keeps(n, n', a) && n'.cospaces[u].mailbox == c.mailbox[1..]
            && (forall v :: v in n.cospaces && v != u ==> n'.cospaces[v] == n.cospaces[v])
            && (c.mailbox[0].Connect? && c.mailbox[0].addr == a ==>
                  && n'.actors[a].link.Linked?
                  && c.mailbox[0].client.id in n'.cospaces[u].clients && n'.cospaces[u].clients[c.mailbox[0].client.id] == a)
  {
    HandleShape(Taken(n, u), u, n.cospaces[u].mailbox[0]);
    HandleAccepts(Taken(n, u), u, n.cospaces[u].mailbox[0], a);
    hide Handle;
  }

  lemma HandleAccepts(x: Scope, u: Uuid, m: CospaceMsg, a: Addr)
    requires a in x.actors
    ensures a in Handle(x, u, m).actors && Handle(x, u, m).actors[a].accepted == x.actors[a].accepted
    ensures m.Connect? && m.addr == a ==> Handle(x, u, m).actors[a].link.Linked?
    ensures var inbox, inbox' := x.actors[a].inbox, Handle(x, u, m).actors[a].inbox;
            inbox' == inbox || (m.FromService? && inbox' == inbox + [FromCospace(m.s)])
  {
    hide Broadcast, Tell;
  }

  /** A Connect in the mailbox is handled once the cospace has come to it. */
  lemma {:induction false} ConnectComesUp(n: Node, u: Uuid, a: Addr, i: nat)
    requires u in n.cospaces && i < |n.cospaces[u].mailbox| && a in n.actors
    requires n.cospaces[u].mailbox[i].Connect? && n.cospaces[u].mailbox[i].addr == a
    ensures var n', id := Run(n, Repeat(CospaceStep(u), i + 1)), n.cospaces[u].mailbox[i].client.id;
            && Keeps(n, n', a) && n'.actors[a].link.Linked?
            && id in n'.cospaces[u].clients && n'.cospaces[u].clients[id] == a
    decreases i
  {
    hide Next;
    var l := CospaceStep(u);
    RepeatStep(n, l, i + 1);
    MailTaken(n, u, a);
    if i > 0 { ConnectComesUp(Next(n, l), u, a, i - 1); }
  }

  /** Every connection actor can be made known to its cospace, under its own id. */
  lemma LinksUp(start: Node, ls: seq<Step>, a: Addr) returns (more: seq<Step>)
    requires Start(start) && Below(Run(start, ls)) && a in Run(start, ls).actors
    ensures var n, n' := Run(start, ls), Run(start, ls + more);
            var c := n.actors[a].client;
            && Keeps(n, n', a) && IsLinked(n', a)
            && c.cospace in n'.cospaces && c.id in n'.cospaces[c.cospace].clients
            && n'.cospaces[c.cospace].clients[c.id] == a
  {
    StartIsSound(start, ls);
    var n := Run(start, ls);
    hide Run, Start;
    more := LinksFrom(n, a);
    RunAppend(start, ls, more);
  }

  lemma LinkFacts(n: Node, a: Addr)
    requires Sound(n) && a in n.actors
    ensures var x := n.actors[a]; var u := x.client.cospace;
            && u in n.cospaces
            && (x.link.Announced? ==> Count(n.cospaces[u].mailbox, ConnectFor(a)) > 0)
            && (x.link.Linked? ==> x.client.id in n.cospaces[u].clients && n.cospaces[u].clients[x.client.id] == a)
            && (forall m :: m in n.cospaces[u].mailbox && m.Connect? && m.addr == a ==> m.client == x.client)
  {
    hide Count;
    var u := n.actors[a].client.cospace;
    assert LinkOf(n, a) && CospaceLocal(n, u);
    forall m | m in n.cospaces[u].mailbox && m.Connect? && m.addr == a ensures m.client == n.actors[a].client {
      assert MailLocal(n, u, m);
    }
  }

  lemma AnnounceMails(n: Node, a: Addr)
    requires Enabled(n, Announce(a))
    ensures var n', u := Next(n, Announce(a)), n.actors[a].client.cospace; var i := |n.cospaces[u].mailbox|;
            Keeps(n, n', a) && |n'.cospaces[u].mailbox| == i + 1 && n'.cospaces[u].mailbox[i] == Connect(n.actors[a].client, a)
  {
  }

  lemma LinksFrom(n: Node, a: Addr) returns (more: seq<Step>)
    requires Sound(n) && a in n.actors
    ensures var n', c := Run(n, more), n.actors[a].client;
            && Keeps(n, n', a) && IsLinked(n', a)
            && c.cospace in n'.cospaces && c.id in n'.cospaces[c.cospace].clients
            && n'.cospaces[c.cospace].clients[c.id] == a
  {
    hide Sound, Next, Count;
    LinkFacts(n, a);
    var u := n.actors[a].client.cospace;
    more := [];
    if n.actors[a].link.Announced? {
      var i := CountedElement(n.cospaces[u].mailbox, ConnectFor(a));
      more := Repeat(CospaceStep(u), i + 1);
      ConnectComesUp(n, u, a, i);
    } else if n.actors[a].link.Unannounced? {
      AnnounceMails(n, a);
      var rest := Repeat(CospaceStep(u), |n.cospaces[u].mailbox| + 1);
      ConnectComesUp(Next(n, Announce(a)), u, a, |n.cospaces[u].mailbox|);
      more := [Announce(a)] + rest;
      assert more[1..] == rest;
    }
  }

  // ----------------------------------------------------------------- draining

  predicate IsGenerate(m: CospaceMsg) { m.GenerateId? }

  /** Nothing but replies: what is left of a mailbox or inbox once the rest is done. */
  predicate OnlyReplies(box: seq<CospaceMsg>) { forall m :: m in box ==> m.FromService? }
  predicate OnlyOutgoing(inbox: seq<ActorMsg>) { forall m :: m in inbox ==> m.FromCospace? }

  lemma InboxTaken(n: Node, a: Addr)
    requires Enabled(n, ActorStep(a))
    ensures var n', u, x := Next(n, ActorStep(a)), n.actors[a].client.cospace, n.actors[a];
            && Keeps(n, n', a) && n'.actors[a].inbox == x.inbox[1..] && n'.pool == n.pool
            && (forall v :: v in n.cospaces ==> n'.cospaces[v].issued == n.cospaces[v].issued)
            && Count(n'.cospaces[u].mailbox, IsGenerate) == Count(n.cospaces[u].mailbox, IsGenerate)
            && (x.inbox[0].FromCospace? ==> n'.cospaces == n.cospaces)
  {
    hide Forward, Count;
    var x := n.actors[a];
    if x.inbox[0].FromSocket? && Forward(x.client, x.inbox[0].payload).Some? {
      CountPush(n.cospaces[x.client.cospace].mailbox, FromClient(Forward(x.client, x.inbox[0].payload).value), IsGenerate);
    }
  }

  /** The actor works off its inbox. */
  lemma {:induction false} DrainInbox(n: Node, a: Addr)
    requires a in n.actors && n.actors[a].client.cospace in n.cospaces
    ensures var n', u := Run(n, Repeat(ActorStep(a), |n.actors[a].inbox|)), n.actors[a].client.cospace;
            && Keeps(n, n', a) && n'.actors[a].inbox == [] && n'.pool == n.pool
            && (forall v :: v in n.cospaces ==> n'.cospaces[v].issued == n.cospaces[v].issued)
            && Count(n'.cospaces[u].mailbox, IsGenerate) == Count(n.cospaces[u].mailbox, IsGenerate)
            && (OnlyOutgoing(n.actors[a].inbox) ==> n'.cospaces == n.cospaces)
    decreases |n.actors[a].inbox|
  {
    hide Next, Count;
    var k := |n.actors[a].inbox|;
    if k > 0 {
      RepeatStep(n, ActorStep(a), k);
      InboxTaken(n, a);
      DrainInbox(Next(n, ActorStep(a)), a);
    }
  }

  lemma MailWorked(n: Node, u: Uuid, a: Addr)
    requires Enabled(n, CospaceStep(u)) && a in n.actors
    ensures var n', c := Next(n, CospaceStep(u)), n.cospaces[u]; var m := c.mailbox[0];
            && n'.cospaces[u].issued == c.issued + One(IsGenerate(m))
            && (m.FromService? ==> n'.pool == n.pool)
            && (OnlyOutgoing(n.actors[a].inbox) ==> OnlyOutgoing(n'.actors[a].inbox))
  {
    HandleAccepts(Taken(n, u), u, n.cospaces[u].mailbox[0], a);
    HandleIssuesOne(Taken(n, u), u, n.cospaces[u].mailbox[0]);
    hide Handle;
  }

  lemma HandleIssuesOne(x: Scope, u: Uuid, m: CospaceMsg)
    ensures Handle(x, u, m).cospace.issued == x.cospace.issued + One(IsGenerate(m))
    ensures m.FromService? ==> Handle(x, u, m).pool == x.pool
  {
    hide Broadcast, Tell;
  }

  /** The cospace works off its mailbox. */
  lemma {:induction false} DrainMailbox(n: Node, u: Uuid, a: Addr)
    requires u in n.cospaces && a in n.actors
    ensures var n', c := Run(n, Repeat(CospaceStep(u), |n.cospaces[u].mailbox|)), n.cospaces[u];
            && Keeps(n, n', a) && n'.cospaces[u].mailbox == []
            && (forall v :: v in n.cospaces && v != u ==> n'.cospaces[v] == n.cospaces[v])
            && n'.cospaces[u].issued == c.issued + Count(c.mailbox, IsGenerate)
            && (OnlyReplies(c.mailbox) ==> n'.pool == n.pool)
            && (OnlyOutgoing(n.actors[a].inbox) ==> OnlyOutgoing(n'.actors[a].inbox))
    decreases |n.cospaces[u].mailbox|
  {
    hide Next;
    var k := |n.cospaces[u].mailbox|;
    if k > 0 {
      RepeatStep(n, CospaceStep(u), k);
      MailTaken(n, u, a);
      MailWorked(n, u, a);
      DrainMailbox(Next(n, CospaceStep(u)), u, a);
    }
  }

  lemma ServiceWorked(n: Node, s: Service, u: Uuid)
    requires Enabled(n, ServiceStep(s, 0)) && u in n.cospaces
    ensures var n' := Next(n, ServiceStep(s, 0));
            && n'.pool == WithQueue(n.pool, s, Queue(n.pool, s)[1..]) && n'.actors == n.actors
            && n'.cospaces.Keys == n.cospaces.Keys
            && (forall v :: v in n.cospaces ==> n'.cospaces[v].issued == n.cospaces[v].issued)
            && (OnlyReplies(n.cospaces[u].mailbox) ==> OnlyReplies(n'.cospaces[u].mailbox))
  {
    assert Remove(Queue(n.pool, s), 0) == Queue(n.pool, s)[1..];
    hide Queue, WithQueue, Mocker, CospaceAddr, Remove;
  }

  lemma QueueSet(p: Pool, s: Service, q: seq<PoolMsg>)
    ensures Queue(WithQueue(p, s, q), s) == q
    ensures forall t: Service :: t != s ==> Queue(WithQueue(p, s, q), t) == Queue(p, t)
  {
  }

  /** A service works off its queue. */
  lemma {:induction false} DrainQueue(n: Node, s: Service, u: Uuid)
    requires u in n.cospaces
    ensures var n' := Run(n, Repeat(ServiceStep(s, 0), |Queue(n.pool, s)|));
            && Queue(n'.pool, s) == [] && (forall t: Service :: t != s ==> Queue(n'.pool, t) == Queue(n.pool, t))
            && n'.actors == n.actors && n'.cospaces.Keys == n.cospaces.Keys
            && (forall v :: v in n.cospaces ==> n'.cospaces[v].issued == n.cospaces[v].issued)
            && (OnlyReplies(n.cospaces[u].mailbox) ==> OnlyReplies(n'.cospaces[u].mailbox))
    decreases |Queue(n.pool, s)|
  {
    hide Next, Queue, WithQueue, OnlyReplies;
    var k := |Queue(n.pool, s)|;
    if k > 0 {
      RepeatStep(n, ServiceStep(s, 0), k);
      ServiceWorked(n, s, u);
      QueueSet(n.pool, s, Queue(n.pool, s)[1..]);
      DrainQueue(Next(n, ServiceStep(s, 0)), s, u);
    }
  }

  /** Two services do, one after the other. */
  lemma DrainTwo(n: Node, s: Service, t: Service, u: Uuid) returns (more: seq<Step>)
    requires u in n.cospaces && s != t
    ensures var n' := Run(n, more);
            && Queue(n'.pool, s) == [] && Queue(n'.pool, t) == []
            && (forall r: Service :: r != s && r != t ==> Queue(n'.pool, r) == Queue(n.pool, r))
            && n'.actors == n.actors && n'.cospaces.Keys == n.cospaces.Keys
            && (forall v :: v in n.cospaces ==> n'.cospaces[v].issued == n.cospaces[v].issued)
            && (OnlyReplies(n.cospaces[u].mailbox) ==> OnlyReplies(n'.cospaces[u].mailbox))
  {
    hide Run, OnlyReplies, Queue;
    var first := Repeat(ServiceStep(s, 0), |Queue(n.pool, s)|);
    DrainQueue(n, s, u);
    var mid := Run(n, first);
    var second := Repeat(ServiceStep(t, 0), |Queue(mid.pool, t)|);
    DrainQueue(mid, t, u);
    RunAppend(n, first, second);
    more := first + second;
  }

  /** All four services do. */
  lemma DrainPool(n: Node, u: Uuid) returns (more: seq<Step>)
    requires u in n.cospaces
    ensures var n' := Run(n, more);
            && n'.pool == EMPTY_POOL && n'.actors == n.actors && n'.cospaces.Keys == n.cospaces.Keys
            && (forall v :: v in n.cospaces ==> n'.cospaces[v].issued == n.cospaces[v].issued)
            && (OnlyReplies(n.cospaces[u].mailbox) ==> OnlyReplies(n'.cospaces[u].mailbox))
  {
    hide Run, OnlyReplies;
    var first := DrainTwo(n, Core, Presence, u);
    var second := DrainTwo(Run(n, first), Activity, Model, u);
    RunAppend(n, first, second);
    more := first + second;
    var p := Run(n, more).pool;
    assert Queue(p, Core) == [] && Queue(p, Presence) == [] && Queue(p, Activity) == [] && Queue(p, Model) == [];
  }

  /** Nothing is on its way to or from the client any more. */
  predicate Quiet(n: Node, a: Addr) {
    && a in n.actors && n.actors[a].inbox == [] && n.pool == EMPTY_POOL
    && n.actors[a].client.cospace in n.cospaces && n.cospaces[n.actors[a].client.cospace].mailbox == []
  }

  /** The ids already asked for do not overflow the cospace's counter. */
  predicate Room(n: Node, u: Uuid)
    requires u in n.cospaces
  {
    n.cospaces[u].issued + Count(n.cospaces[u].mailbox, IsGenerate) < U32
  }

  /** First what came in is worked off, up to the services' queues. */
  lemma DrainIn(n: Node, a: Addr) returns (more: seq<Step>)
    requires a in n.actors && n.actors[a].client.cospace in n.cospaces
    ensures var n', u := Run(n, more), n.actors[a].client.cospace;
            && Keeps(n, n', a) && n'.cospaces[u].mailbox == [] && OnlyOutgoing(n'.actors[a].inbox)
            && (forall v :: v in n.cospaces && v != u ==> n'.cospaces[v].issued == n.cospaces[v].issued)
            && n'.cospaces[u].issued == n.cospaces[u].issued + Count(n.cospaces[u].mailbox, IsGenerate)
  {
    hide Run, Count;
    var u := n.actors[a].client.cospace;
    var first := Repeat(ActorStep(a), |n.actors[a].inbox|);
    DrainInbox(n, a);
    var mid := Run(n, first);
    var second := Repeat(CospaceStep(u), |mid.cospaces[u].mailbox|);
    DrainMailbox(mid, u, a);
    RunAppend(n, first, second);
    more := first + second;
  }

  /** Then the services answer, and the answers go out. */
  lemma DrainOut(n: Node, a: Addr) returns (more: seq<Step>)
    requires a in n.actors && n.actors[a].client.cospace in n.cospaces
    requires n.cospaces[n.actors[a].client.cospace].mailbox == [] && OnlyOutgoing(n.actors[a].inbox)
    ensures var n' := Run(n, more);
            && Keeps(n, n', a) && Quiet(n', a)
            && (forall v :: v in n.cospaces ==> n'.cospaces[v].issued == n.cospaces[v].issued)
  {
    hide Run;
    var u := n.actors[a].client.cospace;
    var first := DrainPool(n, u);
    var n1 := Run(n, first);
    OnlyRepliesIssueNothing(n1.cospaces[u].mailbox);
    var second := Repeat(CospaceStep(u), |n1.cospaces[u].mailbox|);
    DrainMailbox(n1, u, a);
    var n2 := Run(n1, second);
    var third := Repeat(ActorStep(a), |n2.actors[a].inbox|);
    DrainInbox(n2, a);
    RunAppend(n, first, second);
    RunAppend(n, first + second, third);
    more := first + second + third;
  }

  lemma OnlyRepliesIssueNothing(box: seq<CospaceMsg>)
    requires OnlyReplies(box)
    ensures Count(box, IsGenerate) == 0
  {
    CountNone(box, IsGenerate);
  }

  lemma DrainAll(n: Node, a: Addr) returns (more: seq<Step>)
    requires a in n.actors && n.actors[a].client.cospace in n.cospaces
    ensures var n', u := Run(n, more), n.actors[a].client.cospace;
            && Keeps(n, n', a) && Quiet(n', a)
            && (forall v :: v in n.cospaces && v != u ==> n'.cospaces[v].issued == n.cospaces[v].issued)
            && n'.cospaces[u].issued == n.cospaces[u].issued + Count(n.cospaces[u].mailbox, IsGenerate)
  {
    hide Run, Count, Quiet, OnlyOutgoing;
    var first := DrainIn(n, a);
    var second := DrainOut(Run(n, first), a);
    RunAppend(n, first, second);
    more := first + second;
  }

  lemma QuietIsPaid(n: Node, a: Addr)
    requires Sound(n) && Quiet(n, a)
    ensures var x := n.actors[a];
            |x.socket| + n.cospaces[x.client.cospace].dropped[x.client.id] == 4 * x.accepted
  {
    assert Balanced(n, a);
    hide Sound;
  }

  // ----------------------------------------------------------------- theorems

  /**
   From every state that can be reached below overflow there is a continuation in which all
   that is on its way to or from a client has arrived. Unless the ids already asked for overflow
   the counter, the replies on its socket and the drops are then four for every text; and once
   the client is known to its cospace there are no further drops.
   */
  lemma DeliversAll(start: Node, ls: seq<Step>, a: Addr) returns (more: seq<Step>)
    requires Start(start) && Below(Run(start, ls)) && a in Run(start, ls).actors
    ensures var n, n' := Run(start, ls), Run(start, ls + more);
            && Keeps(n, n', a) && Quiet(n', a)
            && var x, socket := n.actors[a], n'.actors[a].socket; var c := x.client;
            && c.cospace in n.cospaces
            && (Room(n, c.cospace) ==>
                  && Below(n')
                  && |socket| + n'.cospaces[c.cospace].dropped[c.id] == 4 * x.accepted
                  && (IsLinked(n, a) ==> |socket| + n.cospaces[c.cospace].dropped[c.id] == 4 * x.accepted))
  {
    hide Run, Sound, Count, Start, Below, Room, IsLinked;
    var n := Run(start, ls);
    StartIsSound(start, ls);
    LinkFacts(n, a);
    more := DrainAll(n, a);
    RunAppend(start, ls, more);
    var n' := Run(start, ls + more);
    if Room(n, n.actors[a].client.cospace) {
      StillBelow(n, n', n.actors[a].client.cospace);
      StartIsSound(start, ls + more);
      QuietIsPaid(n', a);
      if IsLinked(n, a) { DropsOnlyBeforeConnect(start, ls, more, a); }
    }
  }

  lemma StillBelow(n: Node, n': Node, u: Uuid)
    requires Below(n) && u in n.cospaces && Room(n, u) && n'.cospaces.Keys == n.cospaces.Keys
    requires forall v :: v in n.cospaces && v != u ==> n'.cospaces[v].issued == n.cospaces[v].issued
    requires n'.cospaces[u].issued == n.cospaces[u].issued + Count(n.cospaces[u].mailbox, IsGenerate)
    ensures Below(n')
  {
  }

  /** The client of the dropped reply, announced to its cospace before it sends its text. */
  const GREETING: seq<Step> := [Announce(1), CospaceStep(7), SocketIn(1, Text([]))]

  lemma Greeted()
    ensures var n := Run(SHARED_NODE, ARRIVAL + GREETING);
            && Below(n) && IsLinked(n, 1) && n.actors[1].client == EARLY && n.actors[1].accepted == 1
            && 7 in n.cospaces && n.cospaces[7].mailbox == [] && n.cospaces[7].issued == 1
            && n.cospaces[7].dropped == multiset{}
  {
    RunAppend(SHARED_NODE, ARRIVAL, GREETING);
    ArrivalRun();
    hide ARRIVAL;
    var ls, n := GREETING, Early(ONE_ISSUED, EMPTY_POOL, [], 0);
    AnnounceMails(n, 1);
    var n1 := Next(n, ls[0]);
    assert n1.cospaces[7] == Mail(ONE_ISSUED, Connect(EARLY, 1)) && n1.cospaces.Keys == {7};
    assert n1.actors[1] == n.actors[1].(link := Announced);
    ConnectShape(n1, 7);
    var n2 := Next(n1, ls[1]);
    assert n2.cospaces[7] == ONE_ISSUED.(clients := map[1 := 1]) && n2.cospaces.Keys == {7};
    assert n2.actors[1] == n.actors[1].(link := Linked);
    var n3 := Next(n2, ls[2]);
    assert n3.cospaces == n2.cospaces && n3.actors[1].link.Linked? && n3.actors[1].accepted == 1;
    hide Next;
    StepOff(n, ls);
    StepOff(n1, ls[1..]);
    StepOff(n2, ls[2..]);
    assert ls[1..][1..] == ls[2..] && ls[2..][1..] == [];
  }

  /** A run that ends with four replies on a socket: one text, answered by every service. */
  lemma RepliesArrive() returns (more: seq<Step>)
    ensures var n := Run(SHARED_NODE, ARRIVAL + GREETING + more);
            1 in n.actors && n.actors[1].client == EARLY
            && n.actors[1].socket == [Text(REPLY), Text(REPLY), Text(REPLY), Text(REPLY)]
  {
    hide Run, Quiet;
    Greeted();
    more := DeliversAll(SHARED_NODE, ARRIVAL + GREETING, 1);
    SocketsCarryReplies(SHARED_NODE, ARRIVAL + GREETING + more, 1);
    FourOf(Run(SHARED_NODE, ARRIVAL + GREETING + more).actors[1].socket);
  }

  lemma FourOf(socket: seq<SocketMessage>)
    requires |socket| == 4 && forall p :: p in socket ==> p == Text(REPLY)
    ensures socket == [Text(REPLY), Text(REPLY), Text(REPLY), Text(REPLY)]
  {
    assert socket[0] in socket && socket[1] in socket && socket[2] in socket && socket[3] in socket;
  }
}
