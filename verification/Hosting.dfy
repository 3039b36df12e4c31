/**
 Hosting a cospace. Three concurrent maps say where an id stands; asynchronous tasks move an
 id through them in two steps, and a status request reads them one after the other. Every
 map operation is a step of its own, so all interleavings are covered. Ids are fresh.
 */
module Hosting {
  import opened Base

  // --------------------------------------------------------------- the maps

  /** Scheduled and failed requests carry the time they were made. */
  datatype Maps = Maps(scheduled: map<Uuid, nat>, failed: map<Uuid, nat>, cospaces: map<Uuid, Addr>)

  function PutScheduled(m: Maps, u: Uuid, time: nat): Maps { m.(scheduled := m.scheduled[u := time]) }
  function DropScheduled(m: Maps, u: Uuid): Maps { m.(scheduled := m.scheduled - {u}) }
  function PutFailed(m: Maps, u: Uuid, time: nat): Maps { m.(failed := m.failed[u := time]) }
  function PutCospace(m: Maps, u: Uuid, addr: Addr): Maps { m.(cospaces := m.cospaces[u := addr]) }
  function DropCospace(m: Maps, u: Uuid): Maps { m.(cospaces := m.cospaces - {u}) }

  /** The maps of the server. Others may look at them after every single operation: `history` is what they saw. */
  class HostedCospaces {
    var scheduled: map<Uuid, nat>
    var failed: map<Uuid, nat>
    var cospaces: map<Uuid, Addr>
    ghost var history: seq<Maps>

    ghost function Model(): Maps reads this { Maps(scheduled, failed, cospaces) }

    constructor ()
      ensures Model() == Maps(map[], map[], map[]) && history == []
    {
      scheduled, failed, cospaces, history := map[], map[], map[], [];
    }

    method GetCospaceAddr(u: Uuid) returns (addr: Option<Addr>)
      ensures addr.Some? <==> u in cospaces
      ensures addr.Some? ==> addr.value == cospaces[u]
    {
      addr := if u in cospaces then Some(cospaces[u]) else None;
    }

    method RemoveScheduled(u: Uuid) returns (time: Option<nat>)
      modifies this
      ensures Model() == DropScheduled(old(Model()), u) && history == old(history) + [Model()]
      ensures time == if u in old(scheduled) then Some(old(scheduled)[u]) else None
    {
      time := if u in scheduled then Some(scheduled[u]) else None;
      scheduled := scheduled - {u};
      history := history + [Model()];
    }

    method InsertFailed(u: Uuid, time: nat)
      modifies this
      ensures Model() == PutFailed(old(Model()), u, time) && history == old(history) + [Model()]
    {
      failed := failed[u := time];
      history := history + [Model()];
    }

    method InsertHosted(u: Uuid, addr: Addr)
      modifies this
      ensures Model() == PutCospace(old(Model()), u, addr) && history == old(history) + [Model()]
    {
      cospaces := cospaces[u := addr];
      history := history + [Model()];
    }

    method Scheduled(u: Uuid, time: nat)
      modifies this
      ensures Model() == PutScheduled(old(Model()), u, time) && history == old(history) + [Model()]
    {
      scheduled := scheduled[u := time];
      history := history + [Model()];
    }

    /** Removes first, inserts second; an id that is not scheduled is left alone. */
    method Failed(u: Uuid)
      modifies this
      ensures u in old(scheduled) ==>
                var removed := DropScheduled(old(Model()), u);
                && Model() == PutFailed(removed, u, old(scheduled)[u])
                && history == old(history) + [removed, Model()]
      ensures u !in old(scheduled) ==> Model() == old(Model()) && history == old(history) + [Model()]
    {
      var time := RemoveScheduled(u);
      if time.Some? {
        InsertFailed(u, time.value);
      }
    }

    /** Inserts first, removes second. */
    method InsertCospace(u: Uuid, addr: Addr)
      modifies this
      ensures var inserted := PutCospace(old(Model()), u, addr);
              && Model() == DropScheduled(inserted, u)
              && history == old(history) + [inserted, Model()]
    {
      InsertHosted(u, addr);
      var _ := RemoveScheduled(u);
    }

    method RemoveCospace(u: Uuid)
      modifies this
      ensures Model() == DropCospace(old(Model()), u) && history == old(history) + [Model()]
    {
      cospaces := cospaces - {u};
      history := history + [Model()];
    }
  }

  // -------------------------------------------------------------- the tasks

  datatype Node = MainNode | SharedNode | Worker(u: Uuid)

  /**
   Where the task of an id is. Only a dedicated node has to be spawned, and may fail. On the
   node the manager runs the cospace actor, enters it in its table and replies.
   */
  datatype Phase =
    | Scheduled(node: Node)
    | Asking(node: Node)
    | Running(node: Node, addr: Addr)
    | Enrolled(node: Node, addr: Addr)
    | Created(node: Node, addr: Addr)
    | Inserted(node: Node, addr: Addr)
    | Hosted(node: Node, addr: Addr)
    | Failing
    | Removed(time: nat)
    | Failed
    | Stuck

  datatype State = State(
    maps: Maps,
    phases: map<Uuid, Phase>,
    times: map<Uuid, nat>,
    managers: map<Node, map<Uuid, Addr>>,
    actors: map<Addr, Uuid>,
    terminated: set<Uuid>)

  const INIT := State(Maps(map[], map[], map[]), map[], map[], map[], map[], {})

  datatype Step =
    | Schedule(u: Uuid, node: Node, time: nat)
    | SpawnTaskFails(u: Uuid)
    | NodeFails(u: Uuid)
    | NodeReady(u: Uuid)
    | RunActor(u: Uuid, addr: Addr)
    | Enroll(u: Uuid)
    | Reply(u: Uuid)
    | AskFails(u: Uuid)
    | HostInsert(u: Uuid)
    | HostRemove(u: Uuid)
    | FailRemove(u: Uuid)
    | FailInsert(u: Uuid)
    | Terminate(u: Uuid)

  predicate Enabled(s: State, l: Step) {
    match l
    case Schedule(u, node, _) => u !in s.phases && (node.Worker? ==> node.u == u)
    case SpawnTaskFails(u) => u in s.phases && s.phases[u].Scheduled? && s.phases[u].node.Worker?
    case NodeFails(u) => u in s.phases && s.phases[u].Scheduled? && s.phases[u].node.Worker?
    case NodeReady(u) => u in s.phases && s.phases[u].Scheduled?
    case RunActor(u, addr) => u in s.phases && s.phases[u].Asking? && addr !in s.actors
    case Enroll(u) => u in s.phases && s.phases[u].Running?
    case Reply(u) => u in s.phases && s.phases[u].Enrolled?
    case AskFails(u) => u in s.phases && (s.phases[u].Asking? || s.phases[u].Created?)
    case HostInsert(u) => u in s.phases && s.phases[u].Created?
    case HostRemove(u) => u in s.phases && s.phases[u].Inserted?
    case FailRemove(u) => u in s.phases && s.phases[u].Failing?
    case FailInsert(u) => u in s.phases && s.phases[u].Removed?
    case Terminate(u) => u in s.maps.cospaces
  }

  function Manager(s: State, node: Node): map<Uuid, Addr> {
    if node in s.managers then s.managers[node] else map[]
  }

  function Next(s: State, l: Step): State {
    if !Enabled(s, l) then s
    else
      match l
      case Schedule(u, node, time) =>
        s.(maps := PutScheduled(s.maps, u, time), phases := s.phases[u := Phase.Scheduled(node)],
           times := s.times[u := time])
      case SpawnTaskFails(u) => s.(phases := s.phases[u := Stuck])
      case NodeFails(u) => s.(phases := s.phases[u := Failing])
      case NodeReady(u) => s.(phases := s.phases[u := Asking(s.phases[u].node)])
      case RunActor(u, addr) =>
        s.(phases := s.phases[u := Running(s.phases[u].node, addr)], actors := s.actors[addr := u])
      case Enroll(u) =>
        var p := s.phases[u];
        s.(phases := s.phases[u := Enrolled(p.node, p.addr)],
           managers := s.managers[p.node := Manager(s, p.node)[u := p.addr]])
      case Reply(u) => s.(phases := s.phases[u := Created(s.phases[u].node, s.phases[u].addr)])
      case AskFails(u) => s.(phases := s.phases[u := Stuck])
      case HostInsert(u) =>
        var p := s.phases[u];
        s.(maps := PutCospace(s.maps, u, p.addr), phases := s.phases[u := Inserted(p.node, p.addr)])
      case HostRemove(u) =>
        var p := s.phases[u];
        s.(maps := DropScheduled(s.maps, u), phases := s.phases[u := Hosted(p.node, p.addr)])
      case FailRemove(u) =>
        if u in s.maps.scheduled then
          s.(maps := DropScheduled(s.maps, u), phases := s.phases[u := Removed(s.maps.scheduled[u])])
        else s.(phases := s.phases[u := Stuck])
      case FailInsert(u) =>
        s.(maps := PutFailed(s.maps, u, s.phases[u].time), phases := s.phases[u := Phase.Failed])
      case Terminate(u) => s.(maps := DropCospace(s.maps, u), terminated := s.terminated + {u})
  }

  function Run(s: State, ls: seq<Step>): State
    decreases ls
  {
    if ls == [] then s else Run(Next(s, ls[0]), ls[1..])
  }

  // ------------------------------------------------------------- invariants

  predicate InScheduled(p: Phase) {
    p.Scheduled? || p.Asking? || p.Running? || p.Enrolled? || p.Created? || p.Inserted? || p.Failing? || p.Stuck?
  }

  predicate InCospaces(p: Phase) { p.Inserted? || p.Hosted? }

  /** The node manager that created an actor knows it under the id the actor carries. */
  predicate Registered(s: State, node: Node, u: Uuid, addr: Addr) {
    && node in s.managers && u in s.managers[node] && s.managers[node][u] == addr
    && addr in s.actors && s.actors[addr] == u
  }

  /** The maps an id is in are those of its phase. */
  predicate Mapped(s: State, u: Uuid) {
    && (u in s.maps.scheduled <==> u in s.phases && InScheduled(s.phases[u]))
    && (u in s.maps.failed <==> u in s.phases && s.phases[u].Failed?)
    && (u in s.maps.cospaces <==> u in s.phases && InCospaces(s.phases[u]) && u !in s.terminated)
    && (u in s.terminated ==> u in s.phases && InCospaces(s.phases[u]))
  }

  /** What the maps hold about an id is what its task knows. */
  predicate Backed(s: State, u: Uuid) {
    u in s.phases ==>
      var p := s.phases[u];
      && u in s.times
      && (u in s.maps.scheduled ==> s.maps.scheduled[u] == s.times[u])
      && (u in s.maps.failed ==> s.maps.failed[u] == s.times[u])
      && (p.Removed? ==> p.time == s.times[u])
      && (p.Running? ==> p.addr in s.actors && s.actors[p.addr] == u)
      && (p.Enrolled? || p.Created? || p.Inserted? || p.Hosted? ==> Registered(s, p.node, u, p.addr))
      && (u in s.maps.cospaces && InCospaces(p) ==> s.maps.cospaces[u] == p.addr)
  }

  predicate Placed(s: State, u: Uuid) { Mapped(s, u) && Backed(s, u) }

  ghost predicate Inv(s: State) { forall u: Uuid :: Placed(s, u) }

  lemma NextKeepsInv(s: State, l: Step)
    requires Inv(s)
    ensures Inv(Next(s, l))
  {
    forall u: Uuid ensures Placed(Next(s, l), u) {
      assert Placed(s, u) && Placed(s, l.u);
      hide Inv;
      if u == l.u { OwnStep(s, l); } else { OtherStep(s, l, u); }
    }
  }

  lemma OwnStep(s: State, l: Step)
    requires Placed(s, l.u)
    ensures Placed(Next(s, l), l.u)
  {
    OwnStepMapped(s, l);
    OwnStepBacked(s, l);
    hide Next, Mapped, Backed;
  }

  lemma OwnStepMapped(s: State, l: Step)
    requires Mapped(s, l.u)
    ensures Mapped(Next(s, l), l.u)
  {
  }

  lemma OwnStepBacked(s: State, l: Step)
    requires Placed(s, l.u)
    ensures Backed(Next(s, l), l.u)
  {
  }

  /** The step of one id's task leaves every other id in its place. */
  lemma OtherStep(s: State, l: Step, u: Uuid)
    requires Placed(s, u) && u != l.u
    ensures Placed(Next(s, l), u)
  {
    OtherUntouched(s, l, u);
    OtherRegistered(s, l, u);
    hide Next;
  }

  lemma OtherUntouched(s: State, l: Step, u: Uuid)
    requires u != l.u
    ensures var s' := Next(s, l); var m, m' := s.maps, s'.maps;
            && (u in s'.phases <==> u in s.phases) && (u in s.phases ==> s'.phases[u] == s.phases[u])
            && (u in s'.times <==> u in s.times) && (u in s.times ==> s'.times[u] == s.times[u])
            && (u in s'.terminated <==> u in s.terminated)
            && OtherMaps(m, m', u)
  {
    OtherMapsUntouched(s, l, u);
    hide OtherMaps;
  }

  predicate OtherMaps(m: Maps, m': Maps, u: Uuid) {
    && (u in m'.scheduled <==> u in m.scheduled) && (u in m.scheduled ==> m'.scheduled[u] == m.scheduled[u])
    && (u in m'.failed <==> u in m.failed) && (u in m.failed ==> m'.failed[u] == m.failed[u])
    && (u in m'.cospaces <==> u in m.cospaces) && (u in m.cospaces ==> m'.cospaces[u] == m.cospaces[u])
  }

  lemma OtherMapsUntouched(s: State, l: Step, u: Uuid)
    requires u != l.u
    ensures OtherMaps(s.maps, Next(s, l).maps, u)
  {
  }

  lemma OtherRegistered(s: State, l: Step, u: Uuid)
    requires u != l.u
    ensures forall a :: a in s.actors ==> a in Next(s, l).actors && Next(s, l).actors[a] == s.actors[a]
    ensures forall node, a :: Registered(s, node, u, a) ==> Registered(Next(s, l), node, u, a)
  {
  }

  lemma {:induction false} RunKeepsInv(s: State, ls: seq<Step>)
    requires Inv(s)
    ensures Inv(Run(s, ls))
    decreases ls
  {
    hide Inv, Next;
    if ls != [] {
      NextKeepsInv(s, ls[0]);
      RunKeepsInv(Next(s, ls[0]), ls[1..]);
    }
  }

  /** The state after the first k steps of a run. */
  function At(ls: seq<Step>, k: nat): State
    requires k <= |ls|
  {
    Run(INIT, ls[..k])
  }

  lemma Reached(ls: seq<Step>, k: nat, u: Uuid)
    requires k <= |ls|
    ensures Placed(At(ls, k), u)
  {
    RunKeepsInv(INIT, ls[..k]);
  }

  // --------------------------------------------------------------- lifecycle

  /**
   In every reachable interleaving no id is both failed and hosted or both failed and
   scheduled; it is both hosted and scheduled only between the two steps of the insertion, and
   once issued and not terminated it is in no map only between the two steps of the failure.
   A failed id keeps the time it was scheduled at.
   */
  lemma Lifecycle(ls: seq<Step>, u: Uuid)
    ensures var s := Run(INIT, ls); var m := s.maps;
            && !(u in m.failed && u in m.cospaces)
            && !(u in m.failed && u in m.scheduled)
            && (u in m.cospaces && u in m.scheduled <==> u in s.phases && s.phases[u].Inserted? && u !in s.terminated)
            && (u in s.phases && u !in s.terminated ==>
                  (u !in m.scheduled && u !in m.failed && u !in m.cospaces <==> s.phases[u].Removed?))
            && (u in m.failed ==> u in s.times && m.failed[u] == s.times[u])
  {
    hide Run;
    RunKeepsInv(INIT, ls);
    assert Placed(Run(INIT, ls), u);
  }

  /**
   A hosted id is already registered with the manager of its node, under the address the
   server hands out, and the actor there carries that id: whoever is let in to connect can
   be reached by the services of that node.
   */
  lemma RegisteredBeforeReachable(ls: seq<Step>, u: Uuid)
    requires u in Run(INIT, ls).maps.cospaces
    ensures var s := Run(INIT, ls);
            u in s.phases && InCospaces(s.phases[u]) && Registered(s, s.phases[u].node, u, s.maps.cospaces[u])
  {
    hide Run;
    RunKeepsInv(INIT, ls);
    assert Placed(Run(INIT, ls), u);
  }

  // ------------------------------------------------------------------ status

  datatype Status = NotFound | Waiting | IsHosted | HasFailed

  /** A status request: up to three reads, after t1, t2 and t3 steps of the run. */
  function StatusCall(ls: seq<Step>, u: Uuid, t1: nat, t2: nat, t3: nat): Status
    requires t1 <= t2 <= t3 <= |ls|
  {
    if u in At(ls, t1).maps.cospaces then IsHosted
    else if u in At(ls, t2).maps.scheduled then Waiting
    else if u in At(ls, t3).maps.failed then HasFailed
    else NotFound
  }

  /** How the phase of an id can change: hosting and failing are one-way streets. */
  predicate Later(p: Phase, q: Phase) {
    && (p.Inserted? ==> q.Inserted? || q.Hosted?)
    && (p.Hosted? ==> q.Hosted?)
    && (p.Removed? ==> q.Removed? || q.Failed?)
    && (p.Failed? ==> q.Failed?)
    && (p.Stuck? ==> q.Stuck?)
  }

  lemma PhaseMovesOn(s: State, l: Step, u: Uuid)
    requires u in s.phases
    ensures u in Next(s, l).phases && Later(s.phases[u], Next(s, l).phases[u])
    ensures u in s.terminated ==> u in Next(s, l).terminated
  {
  }

  lemma {:induction false} PhasesMoveOn(s: State, ls: seq<Step>, u: Uuid)
    requires u in s.phases
    ensures u in Run(s, ls).phases && Later(s.phases[u], Run(s, ls).phases[u])
    ensures u in s.terminated ==> u in Run(s, ls).terminated
    decreases ls
  {
    hide Next;
    if ls != [] {
      PhaseMovesOn(s, ls[0], u);
      PhasesMoveOn(Next(s, ls[0]), ls[1..], u);
    }
  }

  lemma {:induction false} RunAppend(s: State, ls: seq<Step>, more: seq<Step>)
    ensures Run(s, ls + more) == Run(Run(s, ls), more)
    decreases ls
  {
    hide Next;
    if ls == [] {
      assert ls + more == more;
    } else {
      assert (ls + more)[0] == ls[0] && (ls + more)[1..] == ls[1..] + more;
      RunAppend(Next(s, ls[0]), ls[1..], more);
    }
  }

  lemma Progress(ls: seq<Step>, t: nat, t': nat, u: Uuid)
    requires t <= t' <= |ls| && u in At(ls, t).phases
    ensures u in At(ls, t').phases && Later(At(ls, t).phases[u], At(ls, t').phases[u])
    ensures u in At(ls, t).terminated ==> u in At(ls, t').terminated
  {
    assert ls[..t'] == ls[..t] + ls[t..t'];
    RunAppend(INIT, ls[..t], ls[t..t']);
    PhasesMoveOn(At(ls, t), ls[t..t'], u);
  }

  /**
   What a status request answers for an issued id that is not terminated, in terms of where
   the id's task was at each read. NOT_FOUND happens exactly when the whole insertion fell
   between the first and the second read, or the second and the third read both fell between
   the two steps of the failure.
   */
  lemma StatusExactly(ls: seq<Step>, u: Uuid, t1: nat, t2: nat, t3: nat)
    requires t1 <= t2 <= t3 <= |ls| && u in At(ls, t1).phases && u !in At(ls, t3).terminated
    ensures u in At(ls, t2).phases && u in At(ls, t3).phases
    ensures var p1, p2, p3 := At(ls, t1).phases[u], At(ls, t2).phases[u], At(ls, t3).phases[u];
            match StatusCall(ls, u, t1, t2, t3)
            case IsHosted => InCospaces(p1)
            case Waiting => !InCospaces(p1) && InScheduled(p2)
            case HasFailed => !InCospaces(p1) && !InScheduled(p2) && p3.Failed?
            case NotFound => (!InCospaces(p1) && p2.Hosted?) || (p2.Removed? && p3.Removed?)
    ensures var p1, p2, p3 := At(ls, t1).phases[u], At(ls, t2).phases[u], At(ls, t3).phases[u];
            (!InCospaces(p1) && p2.Hosted?) || (p2.Removed? && p3.Removed?) ==>
              StatusCall(ls, u, t1, t2, t3) == NotFound
  {
    hide Run;
    Reached(ls, t1, u);
    Reached(ls, t2, u);
    Reached(ls, t3, u);
    Progress(ls, t1, t2, u);
    Progress(ls, t2, t3, u);
  }

  /** An answer HOSTED or FAILED is final: every request that starts later gives the same answer. */
  lemma StatusIsStable(ls: seq<Step>, u: Uuid, t1: nat, t2: nat, t3: nat, r1: nat, r2: nat, r3: nat)
    requires t1 <= t2 <= t3 <= |ls| && r1 <= r2 <= r3 <= |ls| && u !in At(ls, r3).terminated
    requires StatusCall(ls, u, t1, t2, t3) == IsHosted ==> t1 <= r1
    requires StatusCall(ls, u, t1, t2, t3) == HasFailed ==> t3 <= r1
    ensures StatusCall(ls, u, t1, t2, t3) in {IsHosted, HasFailed} ==>
              StatusCall(ls, u, r1, r2, r3) == StatusCall(ls, u, t1, t2, t3)
  {
    hide Run;
    var status := StatusCall(ls, u, t1, t2, t3);
    if status in {IsHosted, HasFailed} {
      var t := if status == IsHosted then t1 else t3;
      Reached(ls, t, u);
      Progress(ls, t, r1, u);
      Progress(ls, r1, r2, u);
      Progress(ls, r2, r3, u);
      Reached(ls, r1, u);
      Reached(ls, r2, u);
      Reached(ls, r3, u);
    }
  }

  /** A stuck id is stuck for ever, and every request for its status says that it is being created. */
  lemma StuckForEver(ls: seq<Step>, u: Uuid, t: nat, t1: nat, t2: nat, t3: nat)
    requires t <= t1 <= t2 <= t3 <= |ls| && u in At(ls, t).phases && At(ls, t).phases[u].Stuck?
    ensures u in At(ls, t3).phases && At(ls, t3).phases[u].Stuck?
    ensures StatusCall(ls, u, t1, t2, t3) == Waiting
  {
    hide Run;
    Progress(ls, t, t1, u);
    Progress(ls, t1, t2, u);
    Progress(ls, t2, t3, u);
    Reached(ls, t1, u);
    Reached(ls, t2, u);
  }

  // ---------------------------------------------------------------- settling

  /** The task has come to its end: the id is hosted or has failed. */
  predicate Settled(s: State, u: Uuid) { u in s.phases && (s.phases[u].Hosted? || s.phases[u].Failed?) }

  /** How many steps the task still has to make. */
  function Remaining(p: Phase): nat {
    match p
    case Scheduled(_) => 6
    case Asking(_) => 5
    case Running(_, _) => 4
    case Enrolled(_, _) => 3
    case Created(_, _) => 2
    case Inserted(_, _) => 1
    case Failing => 2
    case Removed(_) => 1
    case _ => 0
  }

  lemma {:induction false} FreshAddr(used: set<Addr>) returns (addr: Addr)
    ensures forall a :: a in used ==> a < addr
    decreases |used|
  {
    if used == {} {
      addr := 0;
    } else {
      var a :| a in used;
      var above := FreshAddr(used - {a});
      assert forall b :: b in used ==> b == a || b in used - {a};
      addr := if above > a then above else a + 1;
    }
  }

  /** The next step of an id's task, when nothing goes wrong any more. */
  lemma TaskStep(s: State, u: Uuid) returns (l: Step)
    requires Placed(s, u) && u in s.phases && !s.phases[u].Stuck? && !Settled(s, u)
    ensures var s' := Next(s, l);
            && u in s'.phases && !s'.phases[u].Stuck? && Remaining(s'.phases[u]) < Remaining(s.phases[u])
            && s'.terminated == s.terminated
  {
    match s.phases[u]
    case Scheduled(_) => l := NodeReady(u);
    case Asking(_) =>
      var addr := FreshAddr(s.actors.Keys);
      l := RunActor(u, addr);
    case Running(_, _) => l := Enroll(u);
    case Enrolled(_, _) => l := Reply(u);
    case Created(_, _) => l := HostInsert(u);
    case Inserted(_, _) => l := HostRemove(u);
    case Failing => l := FailRemove(u);
    case Removed(_) => l := FailInsert(u);
  }

  lemma {:induction false} Settles(s: State, u: Uuid) returns (more: seq<Step>)
    requires Inv(s) && u in s.phases && !s.phases[u].Stuck?
    ensures Settled(Run(s, more), u) && Run(s, more).terminated == s.terminated
    decreases Remaining(s.phases[u])
  {
    more := [];
    if !Settled(s, u) {
      assert Placed(s, u);
      var l := TaskStep(s, u);
      hide Inv, Next, Settled;
      NextKeepsInv(s, l);
      var rest := Settles(Next(s, l), u);
      more := [l] + rest;
      assert more[1..] == rest;
    }
  }

  /** An issued id can still be hosted or fail, in some continuation, exactly if it is not stuck. */
  lemma SettlesExactly(ls: seq<Step>, u: Uuid)
    requires u in Run(INIT, ls).phases
    ensures var s := Run(INIT, ls);
            (exists more :: Settled(Run(s, more), u)) <==> !s.phases[u].Stuck?
  {
    RunKeepsInv(INIT, ls);
    var s := Run(INIT, ls);
    hide Run, Inv;
    if s.phases[u].Stuck? {
      forall more ensures !Settled(Run(s, more), u) { PhasesMoveOn(s, more, u); }
    } else {
      var more := Settles(s, u);
    }
  }

  // ---------------------------------------------------------------- outcomes

  /** From where an id can still come to be hosted, to fail, or to be stuck. */
  predicate CanHost(p: Phase) {
    p.Scheduled? || p.Asking? || p.Running? || p.Enrolled? || p.Created? || p.Inserted? || p.Hosted?
  }

  predicate CanFail(p: Phase) { (p.Scheduled? && p.node.Worker?) || p.Failing? || p.Removed? || p.Failed? }

  predicate CanStick(p: Phase) {
    p.Scheduled? || p.Asking? || p.Running? || p.Enrolled? || p.Created? || p.Stuck?
  }

  lemma OutcomesNarrow(s: State, l: Step, u: Uuid)
    requires Placed(s, u) && u in s.phases
    ensures u in Next(s, l).phases
    ensures CanHost(Next(s, l).phases[u]) ==> CanHost(s.phases[u])
    ensures CanFail(Next(s, l).phases[u]) ==> CanFail(s.phases[u])
    ensures CanStick(Next(s, l).phases[u]) ==> CanStick(s.phases[u])
  {
  }

  lemma {:induction false} OutcomesOnlyNarrow(s: State, ls: seq<Step>, u: Uuid)
    requires Inv(s) && u in s.phases
    ensures u in Run(s, ls).phases
    ensures CanHost(Run(s, ls).phases[u]) ==> CanHost(s.phases[u])
    ensures CanFail(Run(s, ls).phases[u]) ==> CanFail(s.phases[u])
    ensures CanStick(Run(s, ls).phases[u]) ==> CanStick(s.phases[u])
    decreases ls
  {
    if ls != [] {
      assert Placed(s, u);
      hide Inv, Next, CanHost, CanFail, CanStick;
      OutcomesNarrow(s, ls[0], u);
      NextKeepsInv(s, ls[0]);
      OutcomesOnlyNarrow(Next(s, ls[0]), ls[1..], u);
    }
  }

  lemma {:induction false} Sticks(s: State, u: Uuid) returns (more: seq<Step>)
    requires Inv(s) && u in s.phases && CanStick(s.phases[u])
    ensures u in Run(s, more).phases && Run(s, more).phases[u].Stuck?
    decreases Remaining(s.phases[u])
  {
    var p := s.phases[u];
    if p.Stuck? {
      more := [];
    } else if p.Asking? || p.Created? {
      more := [AskFails(u)];
      RunStep(s, more);
      assert more[1..] == [];
    } else {
      var l := if p.Scheduled? then NodeReady(u) else if p.Running? then Enroll(u) else Reply(u);
      assert CanStick(Next(s, l).phases[u]) && Remaining(Next(s, l).phases[u]) < Remaining(p);
      hide Inv, Next;
      NextKeepsInv(s, l);
      var rest := Sticks(Next(s, l), u);
      more := [l] + rest;
      assert more[1..] == rest;
    }
  }

  lemma Ends(s: State, l: Step, u: Uuid) returns (more: seq<Step>)
    requires Inv(s) && u in Next(s, l).phases && !Next(s, l).phases[u].Stuck?
    ensures Settled(Run(s, more), u) && Run(s, more).terminated == Next(s, l).terminated
    ensures !CanFail(Next(s, l).phases[u]) ==> Run(s, more).phases[u].Hosted?
    ensures !CanHost(Next(s, l).phases[u]) ==> Run(s, more).phases[u].Failed?
  {
    hide Inv, Next;
    NextKeepsInv(s, l);
    var rest := Settles(Next(s, l), u);
    OutcomesOnlyNarrow(Next(s, l), rest, u);
    more := [l] + rest;
    assert more[1..] == rest;
  }

  lemma HostsFrom(s: State, u: Uuid) returns (more: seq<Step>)
    requires Inv(s) && u in s.phases && CanHost(s.phases[u])
    ensures u in Run(s, more).phases && Run(s, more).phases[u].Hosted? && Run(s, more).terminated == s.terminated
  {
    if s.phases[u].Scheduled? {
      assert Next(s, NodeReady(u)).phases[u].Asking? && Next(s, NodeReady(u)).terminated == s.terminated;
      hide Inv, Next;
      more := Ends(s, NodeReady(u), u);
    } else {
      hide Inv;
      more := Settles(s, u);
      OutcomesOnlyNarrow(s, more, u);
    }
  }

  lemma FailsFrom(s: State, u: Uuid) returns (more: seq<Step>)
    requires Inv(s) && u in s.phases && CanFail(s.phases[u])
    ensures u in Run(s, more).phases && Run(s, more).phases[u].Failed?
  {
    if s.phases[u].Scheduled? {
      assert Next(s, NodeFails(u)).phases[u].Failing?;
      hide Inv, Next;
      more := Ends(s, NodeFails(u), u);
    } else {
      hide Inv;
      more := Settles(s, u);
      OutcomesOnlyNarrow(s, more, u);
    }
  }

  /**
   What can still become of an issued id, exactly, by the phase of its task: it can be hosted
   until something has gone wrong, it can fail only if its node has to be spawned, and it can
   get stuck until the answer to the creation request is in.
   */
  lemma OutcomesExactly(ls: seq<Step>, u: Uuid)
    requires u in Run(INIT, ls).phases
    ensures var s := Run(INIT, ls); var p := s.phases[u];
            && ((exists more :: u in Run(s, more).phases && Run(s, more).phases[u].Hosted?) <==> CanHost(p))
            && ((exists more :: u in Run(s, more).phases && Run(s, more).phases[u].Failed?) <==> CanFail(p))
            && ((exists more :: u in Run(s, more).phases && Run(s, more).phases[u].Stuck?) <==> CanStick(p))
  {
    RunKeepsInv(INIT, ls);
    var s := Run(INIT, ls);
    hide Run, Inv;
    forall more
      ensures u in Run(s, more).phases
      ensures Run(s, more).phases[u].Hosted? ==> CanHost(s.phases[u])
      ensures Run(s, more).phases[u].Failed? ==> CanFail(s.phases[u])
      ensures Run(s, more).phases[u].Stuck? ==> CanStick(s.phases[u])
    {
      OutcomesOnlyNarrow(s, more, u);
    }
    if CanHost(s.phases[u]) { var more := HostsFrom(s, u); }
    if CanFail(s.phases[u]) { var more := FailsFrom(s, u); }
    if CanStick(s.phases[u]) { var more := Sticks(s, u); }
  }

  /** A new id can be issued at any time; from then on it is being created, wherever its task is to run it. */
  lemma IssuedIsWaiting(ls: seq<Step>, u: Uuid, node: Node, time: nat)
    requires u !in Run(INIT, ls).phases && (node.Worker? ==> node.u == u)
    ensures var all := ls + [Schedule(u, node, time)]; var s := Run(INIT, all);
            && u in s.phases && s.phases[u] == Phase.Scheduled(node)
            && u in s.maps.scheduled && s.maps.scheduled[u] == time
            && StatusCall(all, u, |all|, |all|, |all|) == Waiting
  {
    var all := ls + [Schedule(u, node, time)];
    RunAppend(INIT, ls, [Schedule(u, node, time)]);
    assert [Schedule(u, node, time)][1..] == [] && all[..|all|] == all;
    RunKeepsInv(INIT, ls);
    assert Placed(Run(INIT, ls), u);
  }

  /** What a failure does to the task it strikes. */
  lemma FailureStrikes(s: State, u: Uuid)
    requires u in s.phases
    ensures s.phases[u].Scheduled? && s.phases[u].node.Worker? ==>
              Next(s, SpawnTaskFails(u)).phases[u] == Stuck && Next(s, NodeFails(u)).phases[u] == Failing
    ensures s.phases[u].Asking? || s.phases[u].Created? ==> Next(s, AskFails(u)).phases[u] == Stuck
  {
  }

  /** A hosted id that is terminated is gone for good: every later request for its status answers NOT_FOUND. */
  lemma TerminatedIsGone(ls: seq<Step>, u: Uuid, t: nat, t1: nat, t2: nat, t3: nat)
    requires t < t1 <= t2 <= t3 <= |ls| && ls[t] == Terminate(u)
    requires u in At(ls, t).maps.cospaces && u in At(ls, t).phases && At(ls, t).phases[u].Hosted?
    ensures StatusCall(ls, u, t1, t2, t3) == NotFound
  {
    var s := At(ls, t);
    assert ls[..t + 1] == ls[..t] + [ls[t]] && [ls[t]][1..] == [];
    RunAppend(INIT, ls[..t], [ls[t]]);
    assert At(ls, t + 1) == Next(s, Terminate(u));
    assert u in At(ls, t + 1).terminated && At(ls, t + 1).phases == s.phases;
    hide Run, Next;
    Progress(ls, t + 1, t1, u);
    Progress(ls, t1, t2, u);
    Progress(ls, t2, t3, u);
    Reached(ls, t1, u);
    Reached(ls, t2, u);
    Reached(ls, t3, u);
  }

  /** The two operations of the failure and of the insertion are the two steps of the task. */
  lemma TwoSteps(s: State, u: Uuid)
    requires Placed(s, u) && u in s.phases
    ensures s.phases[u].Failing? ==>
              var s1 := Next(s, FailRemove(u)); var s2 := Next(s1, FailInsert(u));
              && u in s.maps.scheduled
              && [s1.maps, s2.maps] == [DropScheduled(s.maps, u), PutFailed(DropScheduled(s.maps, u), u, s.maps.scheduled[u])]
    ensures s.phases[u].Created? ==>
              var s1 := Next(s, HostInsert(u)); var s2 := Next(s1, HostRemove(u));
              var inserted := PutCospace(s.maps, u, s.phases[u].addr);
              [s1.maps, s2.maps] == [inserted, DropScheduled(inserted, u)]
  {
    if s.phases[u].Failing? {
      assert Next(s, FailRemove(u)).maps == DropScheduled(s.maps, u);
    } else if s.phases[u].Created? {
      assert Next(s, HostInsert(u)).maps == PutCospace(s.maps, u, s.phases[u].addr);
    }
  }

  /**
   NOT_FOUND does happen: every issued id that is not hosted yet but can still be has a
   continuation in which a request that reads the first map now, and the others once the id is
   hosted, answers NOT_FOUND.
   */
  lemma NotFoundHappens(ls: seq<Step>, u: Uuid) returns (more: seq<Step>)
    requires u in Run(INIT, ls).phases && CanHost(Run(INIT, ls).phases[u]) && !InCospaces(Run(INIT, ls).phases[u])
    ensures var all := ls + more; var end := Run(INIT, all);
            && u in end.maps.cospaces && u in end.phases && end.phases[u].Hosted?
            && StatusCall(all, u, |ls|, |all|, |all|) == NotFound
  {
    RunKeepsInv(INIT, ls);
    hide Run, Inv;
    more := HostsFrom(Run(INIT, ls), u);
    RunAppend(INIT, ls, more);
    var all := ls + more;
    assert all[..|ls|] == ls && all[..|all|] == all;
    Reached(all, |ls|, u);
    Reached(all, |all|, u);
  }

  lemma RunStep(s: State, ls: seq<Step>)
    requires ls != []
    ensures Run(s, ls) == Run(Next(s, ls[0]), ls[1..])
  {
  }
}
