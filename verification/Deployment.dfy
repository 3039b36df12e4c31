/**
 Hosting and routing together, for the shared node: the steps of the hosting tasks that reach
 the node, and the gate through which clients get in. A client is let in if the hosting maps
 hold an address when it asks; its connection begins later, whatever happened in between.
 */
module Deployment {
  import opened Base
  import H = Hosting
  import R = Routing

  /** `granted` are the connection requests that were given an address and have not begun. */
  datatype State = State(hosting: H.State, node: R.Node, granted: map<nat, Uuid>)

  const INIT := State(H.INIT, R.SHARED_NODE, map[])

  datatype Step =
    | Hosting(l: H.Step)
    | LookUp(k: nat, u: Uuid)
    | Begin(k: nat)
    | Routing(r: R.Step)

  /** The id's task is at, or past, asking the shared node. */
  predicate OnShared(h: H.State, u: Uuid) {
    u in h.phases &&
    var p := h.phases[u];
    !p.Failing? && !p.Removed? && !p.Failed? && !p.Stuck? && p.node == H.SharedNode
  }

  /** What a hosting step does on the shared node: the actor is run, or entered in the table. */
  function OnNode(h: H.State, n: R.Node, l: H.Step): R.Node {
    if !H.Enabled(h, l) || !OnShared(h, l.u) then n
    else if l.RunActor? then R.Next(n, R.CreateCospace(l.u))
    else if l.Enroll? then R.Next(n, R.Register(l.u))
    else n
  }

  function Next(d: State, l: Step): State {
    match l
    case Hosting(h) => d.(hosting := H.Next(d.hosting, h), node := OnNode(d.hosting, d.node, h))
    case LookUp(k, u) =>
      if u in d.hosting.maps.cospaces && OnShared(d.hosting, u) && k !in d.granted && k !in d.node.upgrades
      then d.(granted := d.granted[k := u]) else d
    case Begin(k) =>
      if k in d.granted then d.(node := R.Next(d.node, R.BeginUpgrade(k, d.granted[k])), granted := d.granted - {k}) else d
    case Routing(r) =>
      if r.CreateCospace? || r.Register? || r.BeginUpgrade? then d else d.(node := R.Next(d.node, r))
  }

  function Run(d: State, ls: seq<Step>): State
    decreases ls
  {
    if ls == [] then d else Run(Next(d, ls[0]), ls[1..])
  }

  // ------------------------------------------------------------- invariants

  /** Where an id is on the node, by the phase of its task; the table of the node is the manager's. */
  predicate Agrees(d: State, u: Uuid) {
    var h, n := d.hosting, d.node;
    && (u in n.registry <==> u in H.Manager(h, H.SharedNode))
    && (u in n.registry ==> u in n.cospaces)
    && (u !in h.phases || h.phases[u].Scheduled? || h.phases[u].Asking? ==> u !in n.cospaces)
    && (OnShared(h, u) && h.phases[u].Running? ==> u in n.cospaces && u !in n.registry)
  }

  ghost predicate Inv(d: State) {
    && H.Inv(d.hosting) && R.Local(d.node) && d.node.alloc == R.Shared
    && (forall u: Uuid :: Agrees(d, u))
    && (forall k :: k in d.granted ==> d.granted[k] in d.node.registry && k !in d.node.upgrades)
  }

  /** A step of the node that is not the manager's leaves the table and the set of cospaces alone. */
  lemma NodeStep(n: R.Node, r: R.Step)
    requires !r.CreateCospace? && !r.Register?
    ensures R.Next(n, r).registry == n.registry && R.Next(n, r).cospaces.Keys == n.cospaces.Keys
    ensures R.Next(n, r).alloc == n.alloc
    ensures !r.BeginUpgrade? && R.Local(n) ==> R.Next(n, r).upgrades.Keys == n.upgrades.Keys
  {
    if R.Local(n) && r.CospaceStep? && R.Enabled(n, r) { R.HandleExtends(n, r.u); }
    hide R.Handle, R.Forward, R.Mocker, R.Local, R.Queue, R.WithQueue;
  }

  lemma OwnAgrees(d: State, l: H.Step)
    requires Agrees(d, l.u) && d.node.alloc == R.Shared
    ensures Agrees(Next(d, Hosting(l)), l.u)
  {
  }

  lemma OtherAgrees(d: State, l: H.Step, u: Uuid)
    requires Agrees(d, u) && u != l.u
    ensures Agrees(Next(d, Hosting(l)), u)
  {
    H.OtherUntouched(d.hosting, l, u);
    OtherManager(d.hosting, l, u);
    hide H.Next, H.Enabled, H.Manager;
  }

  lemma OtherManager(h: H.State, l: H.Step, u: Uuid)
    requires u != l.u
    ensures u in H.Manager(H.Next(h, l), H.SharedNode) <==> u in H.Manager(h, H.SharedNode)
  {
  }

  lemma HostingShape(d: State, l: H.Step)
    ensures var n, n' := d.node, Next(d, Hosting(l)).node;
            n.registry <= n'.registry && n'.upgrades == n.upgrades && n'.alloc == n.alloc
  {
    hide H.Next, H.Enabled;
  }

  lemma HostingKeepsInv(d: State, l: H.Step)
    requires Inv(d)
    ensures Inv(Next(d, Hosting(l)))
  {
    H.NextKeepsInv(d.hosting, l);
    R.NextKeepsLocal(d.node, R.CreateCospace(l.u));
    R.NextKeepsLocal(d.node, R.Register(l.u));
    HostingShape(d, l);
    forall u: Uuid ensures Agrees(Next(d, Hosting(l)), u) {
      assert Agrees(d, u) && Agrees(d, l.u);
      hide Agrees;
      if u == l.u { OwnAgrees(d, l); } else { OtherAgrees(d, l, u); }
    }
    hide H.Inv, R.Local, H.Next, R.Next, Agrees;
  }

  lemma LookUpKeepsInv(d: State, k: nat, u: Uuid)
    requires Inv(d)
    ensures Inv(Next(d, LookUp(k, u)))
  {
    assert Agrees(d, u) && H.Placed(d.hosting, u);
    hide H.Inv, R.Local;
    forall v: Uuid ensures Agrees(Next(d, LookUp(k, u)), v) { assert Agrees(d, v); }
  }

  lemma NodeKeepsInv(d: State, d': State, r: R.Step)
    requires Inv(d) && !r.CreateCospace? && !r.Register?
    requires d' == d.(node := R.Next(d.node, r), granted := d'.granted)
    requires forall k :: k in d'.granted ==> k in d.granted && d'.granted[k] == d.granted[k]
    requires r.BeginUpgrade? ==> r.k !in d'.granted
    ensures Inv(d')
  {
    hide R.Next, H.Inv, R.Local;
    R.NextKeepsLocal(d.node, r);
    NodeStep(d.node, r);
    if r.BeginUpgrade? { UpgradesOf(d.node, r); }
    forall u: Uuid ensures Agrees(d', u) { assert Agrees(d, u); }
  }

  lemma UpgradesOf(n: R.Node, r: R.Step)
    requires r.BeginUpgrade?
    ensures R.Next(n, r).upgrades.Keys <= n.upgrades.Keys + {r.k}
  {
  }

  lemma NextKeepsInv(d: State, l: Step)
    requires Inv(d)
    ensures Inv(Next(d, l))
  {
    hide Inv, R.Next;
    match l
    case Hosting(h) => HostingKeepsInv(d, h);
    case LookUp(k, u) => LookUpKeepsInv(d, k, u);
    case Begin(k) => if k in d.granted { NodeKeepsInv(d, Next(d, l), R.BeginUpgrade(k, d.granted[k])); }
    case Routing(r) =>
      if !(r.CreateCospace? || r.Register? || r.BeginUpgrade?) { NodeKeepsInv(d, Next(d, l), r); }
  }

  lemma {:induction false} RunKeepsInv(d: State, ls: seq<Step>)
    requires Inv(d)
    ensures Inv(Run(d, ls))
    decreases ls
  {
    hide Inv, Next;
    if ls != [] {
      NextKeepsInv(d, ls[0]);
      RunKeepsInv(Next(d, ls[0]), ls[1..]);
    }
  }

  // ---------------------------------------------------------------- theorems

  /**
   Registration precedes reachability, across both models: the table of the shared node is its
   manager's; a client that was given an address finds the cospace running and registered, even
   if it was terminated since; and whenever a service of the node answers a client, the lookup
   of that client's cospace succeeds.
   */
  lemma AdmittedAreFound(ls: seq<Step>, k: nat, s: R.Service, i: nat)
    ensures var d := Run(INIT, ls); var n := d.node;
            && n.registry == H.Manager(d.hosting, H.SharedNode).Keys
            && (k in d.granted ==> R.Enabled(n, R.BeginUpgrade(k, d.granted[k])))
            && (i < |R.Queue(n.pool, s)| && R.Mocker(s, R.Queue(n.pool, s)[i]).Some? ==>
                  var r := R.Mocker(s, R.Queue(n.pool, s)[i]).value.recipient;
                  R.CospaceAddr(n.alloc, n.registry, r) == Some(R.CospaceOf(r)) && R.CospaceOf(r) in n.cospaces)
  {
    assert Inv(INIT);
    RunKeepsInv(INIT, ls);
    hide Run;
    var d := Run(INIT, ls);
    if i < |R.Queue(d.node.pool, s)| && R.Mocker(s, R.Queue(d.node.pool, s)[i]).Some? {
      R.ReplyFindsCospace(d.node, s, i);
    }
    assert forall u: Uuid :: u in d.node.registry <==> u in H.Manager(d.hosting, H.SharedNode) by {
      forall u: Uuid ensures u in d.node.registry <==> u in H.Manager(d.hosting, H.SharedNode) { assert Agrees(d, u); }
    }
    if k in d.granted { assert Agrees(d, d.granted[k]); }
  }

  /** Connecting, exactly: an address is handed out if and only if the id is hosted on the node, and then the upgrade begins. */
  lemma AdmittedGetIn(ls: seq<Step>, k: nat, u: Uuid)
    requires var d := Run(INIT, ls); k !in d.granted && k !in d.node.upgrades
    ensures var d := Run(INIT, ls); var d1 := Next(d, LookUp(k, u)); var d2 := Next(d1, Begin(k));
            && (k in d1.granted <==> u in d.hosting.maps.cospaces && OnShared(d.hosting, u))
            && (k in d1.granted ==> d1.granted[k] == u)
            && (k in d2.node.upgrades <==> k in d1.granted)
            && (k in d1.granted ==>
                  d2.node == R.Next(d.node, R.BeginUpgrade(k, u)) && d2.node.upgrades[k] == R.Waiting(u))
  {
    assert Inv(INIT);
    RunKeepsInv(INIT, ls);
    hide Run, OnShared;
    var d := Run(INIT, ls);
    var d1 := Next(d, LookUp(k, u));
    NextKeepsInv(d, LookUp(k, u));
    if k in d1.granted { assert Agrees(d1, u); }
  }

  /** The steps of the node itself are free: whatever the node can do on its own it can do in the deployment. */
  function Routed(rs: seq<R.Step>): seq<Step> {
    if rs == [] then [] else [Routing(rs[0])] + Routed(rs[1..])
  }

  lemma {:induction false} RoutesFreely(d: State, rs: seq<R.Step>)
    requires forall i :: 0 <= i < |rs| ==> !rs[i].CreateCospace? && !rs[i].Register? && !rs[i].BeginUpgrade?
    ensures Run(d, Routed(rs)).node == R.Run(d.node, rs) && Run(d, Routed(rs)).hosting == d.hosting
    decreases rs
  {
    hide R.Next;
    if rs != [] {
      assert Routed(rs)[1..] == Routed(rs[1..]);
      assert !rs[0].CreateCospace? && !rs[0].Register? && !rs[0].BeginUpgrade?;
      RoutesFreely(Next(d, Routing(rs[0])), rs[1..]);
    }
  }
}
