/** The transfer tool together with the controllers it enrols at: tokens, nodes and their
    approval, other agents, lost answers, killed commands and the clock. */
module RebindWorld {
  import opened Text
  import opened BindingRecord
  import opened Rebind
  import opened RebindInvariant
  import opened RebindResults
  import opened RebindProgress
  import opened Enrollment

  /** What `prepare` fixes for the enrolment of an operation. */
  datatype Ticket = Ticket(token: string, environment: string)

  /** `granted` are the nodes whose session grant has reached this host, and until when the
      last grant is good. */
  datatype World = World(
    attempts: seq<Attempt>,
    tickets: map<string, Ticket>,
    controllers: map<string, Controller>,
    granted: map<string, int>,
    clock: int)

  function DiskOf(original: Binding, w: World): Disk {
    Run(original, w.attempts).disk
  }

  /** `sent` and `heard`: the request goes out, the answer comes back. A `commit` that waits for
      its session is a `RunCommit`, then `Connect`, then a `RunCommit`. */
  datatype Event =
    | RunPrepare(id: string, controller: string, key: string, ticket: Ticket, preflight: bool, kill: nat)
    | RunEnrol(id: string, staged: Option<Identity>, sent: bool, heard: bool, now: int, node: string, full: bool,
        kill: nat)
    | RunCommit(id: string, unresolved: bool, session: bool, now: int, kill: nat)
    | Connect(id: string, now: int)
    | Issue(controller: string, value: string, token: Token)
    | Approve(controller: string, node: string)
    | Revoke(controller: string, node: string)
    | Other(controller: string, ask: Ask)

  // ---------- one event ----------

  /** The number of writes before the controller is asked; none if it is not. */
  function WritesBeforeAsking(original: Binding, d: Disk, id: string, staged: Option<Identity>): Option<nat> {
    if !Has(d, id) || StateOf(d, id).phase !in {Prepared, Enrolling}
        || Current(original, d) != Some(StateOf(d, id).source) then None
    else
      var identity := if id in d.staged then Some(d.staged[id]) else staged;
      if identity != Some(Complete(StateOf(d, id).source.binding.endpoint)) then None
      else Some(if id in d.staged then 1 else 2)
  }

  function Question(w: World, d: Disk, e: Event): Ask
    requires e.RunEnrol? && Has(d, e.id) && e.id in w.tickets
  {
    var t := w.tickets[e.id];
    Ask(t.token, t.environment, StateOf(d, e.id).source.binding.endpoint, e.now, e.node, e.full)
  }

  predicate Asks(original: Binding, w: World, e: Event)
    requires e.RunEnrol?
  {
    var d := DiskOf(original, w);
    var writes := WritesBeforeAsking(original, d, e.id, e.staged);
    e.sent && writes.Some? && writes.value <= e.kill && e.id in w.tickets
        && StateOf(d, e.id).controller in w.controllers
  }

  /** The controller afterwards, and its answer. */
  function Reply(original: Binding, w: World, e: Event): (Controller, Option<string>)
    requires e.RunEnrol? && Asks(original, w, e)
  {
    var d := DiskOf(original, w);
    EnrolStep(w.controllers[StateOf(d, e.id).controller], Question(w, d, e))
  }

  function Given(original: Binding, w: World, e: Event): Option<string>
    requires e.RunEnrol?
  {
    if Asks(original, w, e) && e.heard then Reply(original, w, e).1 else None
  }

  function NodeAt(w: World, controller: string, node: string): Option<Node> {
    if controller in w.controllers && node in w.controllers[controller].nodes
        then Some(w.controllers[controller].nodes[node])
    else None
  }

  function SetNode(w: World, controller: string, node: string, n: Node): World
    requires controller in w.controllers
  {
    var c := w.controllers[controller];
    w.(controllers := w.controllers[controller := c.(nodes := c.nodes[node := n])])
  }

  predicate GrantedAt(w: World, node: string, now: int) {
    node in w.granted && now < w.granted[node]
  }

  function TheCommand(original: Binding, w: World, e: Event): Command
    requires e.RunPrepare? || e.RunEnrol? || e.RunCommit?
  {
    match e
    case RunPrepare(id, controller, key, _, preflight, _) => Prepare(id, controller, key, preflight)
    case RunEnrol(id, staged, _, _, _, _, _, _) => Enrol(id, Enrolment(staged, Given(original, w, e)))
    case RunCommit(id, unresolved, session, now, _) =>
      var d := DiskOf(original, w);
      Commit(id, unresolved, session && Has(d, id) && GrantedAt(w, StateOf(d, id).node, now))
  }

  function Tried(original: Binding, w: World, e: Event): seq<Attempt>
    requires e.RunPrepare? || e.RunEnrol? || e.RunCommit?
  {
    w.attempts + [Attempt(TheCommand(original, w, e), e.kill)]
  }

  function Next(original: Binding, w: World, e: Event): World {
    var d := DiskOf(original, w);
    match e
    case RunPrepare(id, controller, key, ticket, preflight, kill) =>
      w.(attempts := Tried(original, w, e),
         tickets := if PreparePlan(original, d, id, controller, key, preflight) != [] then w.tickets[id := ticket]
             else w.tickets)
    case RunEnrol(id, _, _, _, now, _, _, _) =>
      w.(attempts := Tried(original, w, e), clock := now,
         controllers := if Asks(original, w, e) then w.controllers[StateOf(d, id).controller := Reply(original, w, e).0]
                        else w.controllers)
    case RunCommit(_, _, _, now, _) => w.(attempts := Tried(original, w, e), clock := now)
    case Connect(id, now) =>
      w.(granted := if CanConnect(d, w, id) then w.granted[StateOf(d, id).node := now + GRANT_SECONDS]
          else w.granted, clock := now)
    case Issue(controller, value, token) =>
      if controller !in w.controllers then w
      else
        var c := w.controllers[controller];
        w.(controllers := w.controllers[controller := c.(tokens := c.tokens[value := token])])
    case Approve(controller, node) =>
      var n := NodeAt(w, controller, node);
      if n.Some? && n.value.status == Pending then SetNode(w, controller, node, n.value.(status := Active)) else w
    case Revoke(controller, node) =>
      var n := NodeAt(w, controller, node);
      if n.Some? then SetNode(w, controller, node, n.value.(status := Revoked)) else w
    case Other(controller, ask) =>
      if controller !in w.controllers then w
      else w.(controllers := w.controllers[controller := EnrolStep(w.controllers[controller], ask).0], clock := ask.now)
  }

  const GRANT_SECONDS := 300

  /** The operation has the key of its controller. */
  predicate KeyRight(w: World, d: Disk, id: string)
    requires Has(d, id)
  {
    StateOf(d, id).controller in w.controllers && w.controllers[StateOf(d, id).controller].key == StateOf(d, id).key
  }

  /** The new binding is active here with the right key, and its node is approved. */
  predicate CanConnect(d: Disk, w: World, id: string) {
    && Has(d, id) && Published(d, StateOf(d, id)) && KeyRight(w, d, id)
    && var n := NodeAt(w, StateOf(d, id).controller, StateOf(d, id).node);
       n.Some? && n.value.status == Active
  }

  predicate Fresh(w: World, node: string) {
    NodeId(node) && forall c | c in w.controllers :: node !in w.controllers[c].nodes
  }

  /** The clock does not go back, new identifiers and new secrets are new, and other agents
      have other endpoints. */
  predicate Possible(original: Binding, w: World, e: Event) {
    match e
    case RunEnrol(_, _, _, _, now, node, _, _) => w.clock <= now && Fresh(w, node)
    case RunCommit(_, _, _, now, _) => w.clock <= now
    case Connect(_, now) => w.clock <= now
    case Issue(controller, value, token) =>
      && token.used.None? && (forall id | id in w.tickets :: w.tickets[id].token != value)
      && (controller in w.controllers ==> value !in w.controllers[controller].tokens)
    case Other(_, ask) => w.clock <= ask.now && Fresh(w, ask.node) && ask.endpoint != original.endpoint
    case _ => true
  }

  function After(original: Binding, w: World, events: seq<Event>): World
    decreases |events|
  {
    if events == [] then w else After(original, Next(original, w, events[0]), events[1..])
  }

  predicate Feasible(original: Binding, w: World, events: seq<Event>)
    decreases |events|
  {
    events == [] || (Possible(original, w, events[0]) && Feasible(original, Next(original, w, events[0]), events[1..]))
  }

  // ---------- what every world keeps ----------

  predicate Issued(cs: map<string, Controller>, controller: string, node: string, endpoint: string) {
    controller in cs && node in cs[controller].nodes && cs[controller].nodes[node].endpoint == endpoint
  }

  predicate AllSound(cs: map<string, Controller>) {
    && (forall c | c in cs :: Sound(cs[c]))
    && (forall b, c, n | b in cs && c in cs && n in cs[b].nodes && n in cs[c].nodes :: b == c)
  }

  predicate OperationOk(w: World, d: Disk, id: string)
    requires Has(d, id)
  {
    var s := StateOf(d, id);
    && id in w.tickets
    && (s.phase in {Enrolled, Committing, Committed, Verified}
       ==> Issued(w.controllers, s.controller, s.node, s.source.binding.endpoint))
    && (s.phase == Verified ==> s.node in w.granted)
  }

  /** The operation that put the identity there. */
  predicate Placed(d: Disk, id: string, n: string) {
    Has(d, id) && StateOf(d, id).node == n && StateOf(d, id).phase in {Committing, Committed, Verified}
  }

  ghost predicate DiskOk(original: Binding, w: World, d: Disk) {
    && (forall id | Has(d, id) :: OperationOk(w, d, id))
    && (forall n | n in d.identities :: exists id :: Placed(d, id, n))
    && Current(original, d).Some?
    && var b := Current(original, d).value.binding; Issued(w.controllers, b.controller, b.node, b.endpoint)
  }

  /** A node with a grant was given out, and is no longer pending. */
  predicate GrantsOk(w: World) {
    && (forall n | n in w.granted :: exists c | c in w.controllers :: n in w.controllers[c].nodes)
    && (forall n, c | n in w.granted && c in w.controllers && n in w.controllers[c].nodes ::
          w.controllers[c].nodes[n].status != Pending)
  }

  ghost predicate WorldInv(original: Binding, w: World) {
    && Valid(original) && AllSound(w.controllers) && GrantsOk(w)
    && DiskOk(original, w, DiskOf(original, w)) && GivesNewNodes(original, w.attempts)
  }

  /** No transfer yet; the controllers may hold anything, the agent's own enrolment included. */
  predicate Begins(original: Binding, w: World) {
    && Valid(original) && w.attempts == [] && w.tickets == map[] && w.granted == map[] && AllSound(w.controllers)
    && Issued(w.controllers, original.controller, original.node, original.endpoint)
  }

  lemma BeginsWell(original: Binding, w: World)
    requires Begins(original, w)
    ensures WorldInv(original, w)
  {
    hide Valid, NodeId, Sound;
    AtFirst(original);
  }

  // ---------- the disk under one write ----------

  predicate WriteOk(w: World, d: Disk, wr: Write) {
    && (wr.SavePrepared? ==> wr.id in w.tickets)
    && (wr.SaveEnrolled? && Has(d, wr.id) ==>
          Issued(w.controllers, StateOf(d, wr.id).controller, wr.node, StateOf(d, wr.id).source.binding.endpoint))
    && (wr.SaveVerified? && Has(d, wr.id) ==> StateOf(d, wr.id).node in w.granted)
  }

  lemma OperationsStayOk(original: Binding, w: World, d: Disk, wr: Write, id: string)
    requires DiskOk(original, w, d) && Allowed(original, d, wr) && WriteOk(w, d, wr) && Has(Do(original, d, wr), id)
    ensures OperationOk(w, Do(original, d, wr), id)
  {
    hide Current, Encode, NodeId, Hex64, Issued;
    if Has(d, id) {
      assert OperationOk(w, d, id);
    }
  }

  lemma PlacesStay(original: Binding, w: World, d: Disk, wr: Write, n: string) returns (id: string)
    requires DiskOk(original, w, d) && Allowed(original, d, wr) && n in Do(original, d, wr).identities
    ensures Placed(Do(original, d, wr), id, n)
  {
    hide Current, Encode, NodeId, Hex64, Issued, OperationOk;
    if n in d.identities {
      id :| Placed(d, id, n);
    } else {
      id := wr.id;
    }
  }

  lemma CurrentStaysIssued(original: Binding, w: World, h: Host, wr: Write)
    requires Inv(original, h) && DiskOk(original, w, h.disk) && Allowed(original, h.disk, wr)
    ensures var d := Do(original, h.disk, wr);
            && Current(original, d).Some?
            && var b := Current(original, d).value.binding; Issued(w.controllers, b.controller, b.node, b.endpoint)
  {
    if wr.Publish? {
      PublishInv(original, h, wr);
      StepInv(original, h, wr);
      hide Do, Encode, NodeId, Hex64, Decode, Current, OperationsSound, Chained;
      assert OperationOk(w, h.disk, wr.id);
    } else {
      hide Encode, NodeId, Hex64, Decode;
      SameCurrent(original, h.disk, Do(original, h.disk, wr));
    }
  }

  lemma StepOk(original: Binding, w: World, h: Host, wr: Write)
    requires Inv(original, h) && DiskOk(original, w, h.disk) && Allowed(original, h.disk, wr) && WriteOk(w, h.disk, wr)
    ensures DiskOk(original, w, Do(original, h.disk, wr))
  {
    hide Do, Allowed, Inv, Current, WriteOk, OperationOk, Issued;
    var d := Do(original, h.disk, wr);
    forall id | Has(d, id) ensures OperationOk(w, d, id) {
      OperationsStayOk(original, w, h.disk, wr, id);
    }
    forall n | n in d.identities ensures exists id :: Placed(d, id, n) {
      var id := PlacesStay(original, w, h.disk, wr, n);
    }
    CurrentStaysIssued(original, w, h, wr);
  }

  /** The writes of one command, from a state whose controller, endpoint and node are these. */
  predicate Backed(w: World, writes: seq<Write>, id: string, controller: string, endpoint: string, node: string) {
    forall wr | wr in writes ::
      && wr.id == id && (wr.SavePrepared? ==> id in w.tickets)
      && (wr.SaveEnrolled? ==> Issued(w.controllers, controller, wr.node, endpoint))
      && (wr.SaveVerified? ==> node in w.granted)
  }

  /** The fields a later write of the same command relies on. */
  predicate Stable(d: Disk, writes: seq<Write>, id: string, controller: string, endpoint: string, node: string) {
    Has(d, id) ==>
      var s := StateOf(d, id);
      && (forall wr | wr in writes ::
            wr.SaveEnrolled? ==> s.controller == controller && s.source.binding.endpoint == endpoint)
      && (forall wr | wr in writes ::
            wr.SaveVerified? ==> s.node == node && s.phase in {Enrolled, Committing, Committed, Verified})
  }

  /** One command does not mix the writes of different phases. */
  predicate OneKind(writes: seq<Write>) {
    && (forall x, y | x in writes && y in writes && x.SaveVerified? :: !y.SaveEnrolled? && !y.SavePrepared?)
    && (forall x, y | x in writes && y in writes && x.SaveEnrolled? :: !y.SavePrepared?)
  }

  lemma StableStep(original: Binding, d: Disk, writes: seq<Write>, id: string, controller: string, endpoint: string,
                   node: string)
    requires writes != [] && writes[0].id == id && Stable(d, writes, id, controller, endpoint, node) && OneKind(writes)
    ensures Stable(Do(original, d, writes[0]), writes[1..], id, controller, endpoint, node)
  {
    hide Current, Encode, NodeId, Hex64;
    assert forall wr | wr in writes[1..] :: wr in writes;
    assert writes[0] in writes;
  }

  lemma {:induction false} PlayOk(original: Binding, w: World, h: Host, writes: seq<Write>, id: string,
                                  controller: string, endpoint: string, node: string)
    requires Inv(original, h) && DiskOk(original, w, h.disk) && OneKind(writes)
    requires Backed(w, writes, id, controller, endpoint, node) && Stable(h.disk, writes, id, controller, endpoint, node)
    ensures DiskOk(original, w, Play(original, h, writes).disk)
    decreases |writes|
  {
    hide Do, Allowed, Inv, DiskOk, Current, Issued, OneKind, Backed, Stable, WriteOk;
    if writes != [] {
      var wr, rest := writes[0], writes[1..];
      FirstWrite(w, h.disk, writes, id, controller, endpoint, node);
      StableStep(original, h.disk, writes, id, controller, endpoint, node);
      if Allowed(original, h.disk, wr) {
        StepOk(original, w, h, wr);
        StepInv(original, h, wr);
        PlayOk(original, w, Step(original, h, wr), rest, id, controller, endpoint, node);
      } else {
        NotAllowed(original, h.disk, wr);
        PlayOk(original, w, h, rest, id, controller, endpoint, node);
      }
    }
  }

  lemma FirstWrite(w: World, d: Disk, writes: seq<Write>, id: string, controller: string, endpoint: string,
                   node: string)
    requires writes != [] && OneKind(writes)
    requires Backed(w, writes, id, controller, endpoint, node) && Stable(d, writes, id, controller, endpoint, node)
    ensures writes[0].id == id && WriteOk(w, d, writes[0])
    ensures OneKind(writes[1..]) && Backed(w, writes[1..], id, controller, endpoint, node)
  {
    hide Issued;
    assert writes[0] in writes && forall x | x in writes[1..] :: x in writes;
  }

  // ---------- the disk under one command ----------

  /** Which of these writes a command makes. */
  predicate Milestones(writes: seq<Write>, c: Command) {
    forall wr | wr in writes ::
      && wr.id == c.id
      && (wr.SavePrepared? ==> c.Prepare?)
      && (wr.SaveEnrolled? ==> c.Enrol? && c.agent.node == Some(wr.node))
      && (wr.SaveVerified? ==> c.Commit? && c.session)
  }

  lemma CommitMilestones(original: Binding, d: Disk, id: string, unresolved: bool, session: bool)
    ensures Milestones(CommitPlan(original, d, id, unresolved, session), Commit(id, unresolved, session))
  {
    hide Current, Published, TransferWorks;
    var c := Commit(id, unresolved, session);
    if Has(d, id) {
      RestMilestones(d, id, unresolved, session);
      assert Milestones(LastPlan(id, session), c);
      hide LastPlan, RestPlan;
      assert Milestones(PublishPlan(original, d, id, unresolved, session), c);
    }
  }

  lemma RestMilestones(d: Disk, id: string, unresolved: bool, session: bool)
    requires Has(d, id)
    ensures Milestones(RestPlan(d, id, unresolved, session), Commit(id, unresolved, session))
  {
    hide TransferWorks;
    var c := Commit(id, unresolved, session);
    assert Milestones(TransferPlan(d, id, unresolved), c) && Milestones(LastPlan(id, session), c);
  }

  lemma PlanMilestones(original: Binding, d: Disk, c: Command)
    ensures Milestones(Plan(original, d, c), c)
  {
    hide Current, NodeId, Hex64, AllFinished, CommitPlan;
    if c.Commit? {
      CommitMilestones(original, d, c.id, c.unresolved, c.session);
    }
  }

  /** What is planned past enrolment is planned for an operation that is. */
  lemma LatePhase(original: Binding, d: Disk, c: Command)
    ensures (exists wr | wr in Plan(original, d, c) :: wr.SaveVerified?) ==>
              Has(d, c.id) && StateOf(d, c.id).phase in {Enrolled, Committing, Committed}
  {
    hide Current, NodeId, Hex64, AllFinished, PublishPlan;
  }

  /** The disk stays in order if what the command was told is so. */
  lemma CommandOk(original: Binding, w: World, attempts: seq<Attempt>, c: Command, kill: nat)
    requires Valid(original) && DiskOk(original, w, Run(original, attempts).disk)
    requires c.Prepare? && Plan(original, Run(original, attempts).disk, c) != [] ==> c.id in w.tickets
    requires c.Enrol? && c.agent.node.Some? ==>
               var d := Run(original, attempts).disk;
               Has(d, c.id) && Issued(w.controllers, StateOf(d, c.id).controller, c.agent.node.value,
                   StateOf(d, c.id).source.binding.endpoint)
    requires c.Commit? && c.session
             ==> Has(Run(original, attempts).disk, c.id)
                 && StateOf(Run(original, attempts).disk, c.id).node in w.granted
    ensures DiskOk(original, w, Run(original, attempts + [Attempt(c, kill)]).disk)
  {
    var h, a := Run(original, attempts), Attempt(c, kill);
    var d, writes := h.disk, Until(Plan(original, h.disk, c), kill);
    RunInv(original, attempts);
    PlanMilestones(original, d, c);
    LatePhase(original, d, c);
    UntilIsPart(Plan(original, d, c), kill);
    assert (attempts + [a])[..|attempts|] == attempts;
    hide Valid, Inv, DiskOk, Plan, Run, Until, Current, Issued;
    var controller, endpoint, node := "", "", "";
    if Has(d, c.id) {
      controller, endpoint, node := StateOf(d, c.id).controller, StateOf(d, c.id).source.binding.endpoint,
          StateOf(d, c.id).node;
    }
    PlayOk(original, w, h, writes, c.id, controller, endpoint, node);
    LastPlayed(original, attempts, a);
  }

  lemma LastPlayed(original: Binding, attempts: seq<Attempt>, a: Attempt)
    ensures var h := Run(original, attempts);
            Run(original, attempts + [a]) == Play(original, h, Until(Plan(original, h.disk, a.command), a.kill))
  {
    hide Plan, Until, Play;
    assert (attempts + [a])[..|attempts|] == attempts;
  }

  // ---------- one event keeps it all ----------

  predicate Grows(cs: map<string, Controller>, cs': map<string, Controller>) {
    cs'.Keys == cs.Keys && forall c | c in cs :: NodesLater(cs[c], cs'[c])
  }

  lemma DiskOkLater(original: Binding, w: World, w': World, d: Disk)
    requires DiskOk(original, w, d) && Grows(w.controllers, w'.controllers) && w.granted.Keys <= w'.granted.Keys
    requires w.tickets.Keys <= w'.tickets.Keys
    ensures DiskOk(original, w', d)
  {
    hide Current;
    forall id | Has(d, id) ensures OperationOk(w', d, id) {
      assert OperationOk(w, d, id);
    }
  }

  /** A controller that gives out at most one node, and a new one. */
  lemma ControllerStep(w: World, name: string, c: Controller, node: string)
    requires AllSound(w.controllers) && GrantsOk(w) && name in w.controllers && Sound(c)
             && NodesLater(w.controllers[name], c)
    requires Fresh(w, node) && c.nodes.Keys <= w.controllers[name].nodes.Keys + {node}
    ensures var w' := w.(controllers := w.controllers[name := c]);
            AllSound(w'.controllers) && Grows(w.controllers, w'.controllers) && GrantsOk(w')
  {
    hide NodeId, Sound;
    var cs := w.controllers[name := c];
    forall b, k, n | b in cs && k in cs && n in cs[b].nodes && n in cs[k].nodes ensures b == k {
      if n != node {
        assert n in w.controllers[b].nodes && n in w.controllers[k].nodes;
      }
    }
    forall n | n in w.granted ensures exists k | k in cs :: n in cs[k].nodes {
      var k :| k in w.controllers && n in w.controllers[k].nodes;
      assert n in cs[k].nodes;
    }
  }

  /** A controller that gives out none. */
  lemma ControllerKept(w: World, name: string, c: Controller)
    requires AllSound(w.controllers) && GrantsOk(w) && name in w.controllers && Sound(c)
             && NodesLater(w.controllers[name], c)
    requires c.nodes.Keys == w.controllers[name].nodes.Keys
    ensures var w' := w.(controllers := w.controllers[name := c]);
            AllSound(w'.controllers) && Grows(w.controllers, w'.controllers) && GrantsOk(w')
  {
    hide NodeId, Sound;
    var cs := w.controllers[name := c];
    forall b, k, n | b in cs && k in cs && n in cs[b].nodes && n in cs[k].nodes ensures b == k {
      assert n in w.controllers[b].nodes && n in w.controllers[k].nodes;
    }
    forall n | n in w.granted ensures exists k | k in cs :: n in cs[k].nodes {
      var k :| k in w.controllers && n in w.controllers[k].nodes;
      assert n in cs[k].nodes;
    }
  }

  lemma GivesMore(original: Binding, attempts: seq<Attempt>, a: Attempt)
    requires GivesNewNodes(original, attempts)
    requires a.command.Enrol? && a.command.agent.node.Some?
             ==> a.command.agent.node.value !in Run(original, attempts).disk.identities
    ensures GivesNewNodes(original, attempts + [a])
  {
    hide Run;
    var all := attempts + [a];
    assert all[..|attempts|] == attempts;
    forall k | 0 <= k < |all| && all[k].command.Enrol? && all[k].command.agent.node.Some?
      ensures all[k].command.agent.node.value !in Run(original, all[..k]).disk.identities
    {
      if k < |attempts| {
        assert all[..k] == attempts[..k];
      }
    }
  }

  lemma AsksMeans(original: Binding, w: World, e: Event)
    requires e.RunEnrol? && Asks(original, w, e)
    ensures var d := DiskOf(original, w);
            && Has(d, e.id) && StateOf(d, e.id).phase in {Prepared, Enrolling} && e.id in w.tickets
            && StateOf(d, e.id).controller in w.controllers
  {
    hide Run, Current;
  }

  /** With an operation waiting for enrolment, no identity in place is that of a pending node. */
  lemma PlacedIsNotPending(original: Binding, w: World, id: string, n: string, c: string)
    requires WorldInv(original, w) && Has(DiskOf(original, w), id)
             && StateOf(DiskOf(original, w), id).phase in {Prepared, Enrolling}
    requires n in DiskOf(original, w).identities
    ensures exists k :: k in w.controllers && n in w.controllers[k].nodes
    ensures c in w.controllers && n in w.controllers[c].nodes ==> w.controllers[c].nodes[n].status != Pending
  {
    hide Run, Current, NodeId, Sound, GivesNewNodes;
    var d := DiskOf(original, w);
    var i :| Placed(d, i, n);
    assert OperationOk(w, d, i);
    if StateOf(d, i).phase != Verified {
      OneUnfinished(original, w.attempts, i, id);
    }
  }

  /** The answer to an enrolment is a node whose place is free here: a new one, or one that is
      still pending, while no identity in place is that of a pending node. */
  lemma AnswerIsNew(original: Binding, w: World, e: Event)
    requires WorldInv(original, w) && e.RunEnrol? && Possible(original, w, e) && Given(original, w, e).Some?
    ensures Given(original, w, e).value !in DiskOf(original, w).identities
  {
    AsksMeans(original, w, e);
    var d, n := DiskOf(original, w), Given(original, w, e).value;
    var c := StateOf(d, e.id).controller;
    AnswerIsOwn(w.controllers[c], Question(w, d, e));
    hide Run, Current, EnrolStep, NodeId, WorldInv, Asks;
    if n in d.identities {
      PlacedIsNotPending(original, w, e.id, n, c);
    }
  }

  /** What the controllers are after an enrolment. */
  lemma AfterAsking(original: Binding, w: World, e: Event)
    requires WorldInv(original, w) && e.RunEnrol? && Possible(original, w, e)
    ensures var w' := Next(original, w, e);
            && AllSound(w'.controllers) && Grows(w.controllers, w'.controllers) && GrantsOk(w')
            && (Given(original, w, e).Some? ==>
                  var d := DiskOf(original, w);
                  Has(d, e.id) && Issued(w'.controllers, StateOf(d, e.id).controller, Given(original, w, e).value,
                      StateOf(d, e.id).source.binding.endpoint))
  {
    hide Run, Current, EnrolStep, NodeId, Sound, DiskOk, GivesNewNodes, WritesBeforeAsking, Valid, TheCommand,
         NodesLater, TokensLater;
    hide GrantsOk, AllSound, Grows, Issued, Question;
    var d := DiskOf(original, w);
    SameGrows(w.controllers);
    if Asks(original, w, e) {
      AsksMeans(original, w, e);
      var name := StateOf(d, e.id).controller;
      hide Asks, Fresh;
      QuestionIs(w, d, e);
      Replied(w, name, Question(w, d, e));
      GrantsAlike(w, Next(original, w, e), w.controllers[name := Reply(original, w, e).0]);
    } else {
      GrantsAlike(w, Next(original, w, e), w.controllers);
    }
  }

  lemma QuestionIs(w: World, d: Disk, e: Event)
    requires e.RunEnrol? && Has(d, e.id) && e.id in w.tickets
    ensures Question(w, d, e).endpoint == StateOf(d, e.id).source.binding.endpoint && Question(w, d, e).node == e.node
  {}

  lemma GrantsAlike(w: World, w': World, cs: map<string, Controller>)
    requires w'.granted == w.granted && w'.controllers == cs
    ensures GrantsOk(w') <==> GrantsOk(w.(controllers := cs))
  {}

  /** A controller that has answered, among the others. */
  lemma Replied(w: World, name: string, ask: Ask)
    requires AllSound(w.controllers) && GrantsOk(w) && name in w.controllers && Fresh(w, ask.node)
    ensures var w' := w.(controllers := w.controllers[name := EnrolStep(w.controllers[name], ask).0]);
            && AllSound(w'.controllers) && Grows(w.controllers, w'.controllers) && GrantsOk(w')
            && var answer := EnrolStep(w.controllers[name], ask).1;
               answer.Some? ==> Issued(w'.controllers, name, answer.value, ask.endpoint)
  {
    hide NodeId, EnrolStep, Sound, NodesLater, TokensLater;
    FreshIsNew(w, name, ask.node);
    EnrolKeeps(w.controllers[name], ask);
    ControllerStep(w, name, EnrolStep(w.controllers[name], ask).0, ask.node);
    if EnrolStep(w.controllers[name], ask).1.Some? {
      AnswerIsOwn(w.controllers[name], ask);
    }
  }

  lemma FreshIsNew(w: World, name: string, node: string)
    requires Fresh(w, node) && AllSound(w.controllers) && name in w.controllers
    ensures New(w.controllers[name], node) && Sound(w.controllers[name])
  {}

  lemma EnrolEventInv(original: Binding, w: World, e: Event)
    requires WorldInv(original, w) && e.RunEnrol? && Possible(original, w, e)
    ensures WorldInv(original, Next(original, w, e))
  {
    hide Run, Current, EnrolStep, NodeId, Sound, DiskOk, GivesNewNodes, Asks, Reply, Given, Valid, AllSound, GrantsOk,
         Issued, Grows;
    var d, w' := DiskOf(original, w), Next(original, w, e);
    if Given(original, w, e).Some? {
      AnswerIsNew(original, w, e);
    }
    AfterAsking(original, w, e);
    GivesMore(original, w.attempts, Attempt(TheCommand(original, w, e), e.kill));
    DiskOkLater(original, w, w', d);
    CommandOk(original, w', w.attempts, TheCommand(original, w, e), e.kill);
  }

  lemma SameGrows(cs: map<string, Controller>)
    ensures Grows(cs, cs)
  {}

  lemma ToolEventInv(original: Binding, w: World, e: Event)
    requires WorldInv(original, w) && (e.RunPrepare? || e.RunCommit?)
    ensures WorldInv(original, Next(original, w, e))
  {
    hide Run, Current, NodeId, Sound, DiskOk, GivesNewNodes, Valid, AllSound, PreparePlan, Grows, Hex64;
    var d, w', c := DiskOf(original, w), Next(original, w, e), TheCommand(original, w, e);
    GivesMore(original, w.attempts, Attempt(c, e.kill));
    SameGrows(w.controllers);
    DiskOkLater(original, w, w', d);
    CommandOk(original, w', w.attempts, c, e.kill);
  }

  lemma ConnectInv(original: Binding, w: World, id: string, now: int)
    requires WorldInv(original, w)
    ensures WorldInv(original, Next(original, w, Connect(id, now)))
  {
    hide Run, Current, NodeId, Sound, Valid, OperationOk, DiskOk, GivesNewNodes, KeyRight, Published, Grows;
    var d, w' := DiskOf(original, w), Next(original, w, Connect(id, now));
    SameGrows(w.controllers);
    DiskOkLater(original, w, w', d);
    if CanConnect(d, w, id) {
      var s := StateOf(d, id);
      assert s.node in w.controllers[s.controller].nodes;
      forall n, c | n in w'.granted && c in w.controllers
          && n in w.controllers[c].nodes ensures w.controllers[c].nodes[n].status != Pending {
        if n == s.node {
          assert c == s.controller;
        }
      }
    }
  }

  /** The controller after an event of its own. */
  lemma OwnStep(w: World, e: Event, original: Binding)
    requires AllSound(w.controllers) && GrantsOk(w) && Possible(original, w, e)
    requires (e.Issue? || e.Approve? || e.Revoke? || e.Other?) && e.controller in w.controllers
    ensures var w' := Next(original, w, e);
            AllSound(w'.controllers) && Grows(w.controllers, w'.controllers) && GrantsOk(w')
  {
    hide NodeId, Run, EnrolStep, Sound, NodesLater, TokensLater;
    var c := w.controllers[e.controller];
    SameGrows(w.controllers);
    match e
    case Issue(name, value, token) =>
      TokenAdded(c, value, token);
      ControllerKept(w, name, c.(tokens := c.tokens[value := token]));
    case Approve(name, node) =>
      if node in c.nodes && c.nodes[node].status == Pending {
        StatusChanged(c, node, Active);
        ControllerKept(w, name, c.(nodes := c.nodes[node := c.nodes[node].(status := Active)]));
      }
    case Revoke(name, node) =>
      if node in c.nodes {
        StatusChanged(c, node, Revoked);
        ControllerKept(w, name, c.(nodes := c.nodes[node := c.nodes[node].(status := Revoked)]));
      }
    case Other(name, ask) =>
      Replied(w, name, ask);
      GrantsAlike(w, Next(original, w, e), w.controllers[name := EnrolStep(c, ask).0]);
  }

  lemma ControllerEventInv(original: Binding, w: World, e: Event)
    requires WorldInv(original, w) && Possible(original, w, e) && (e.Issue? || e.Approve? || e.Revoke? || e.Other?)
    ensures WorldInv(original, Next(original, w, e)) && Grows(w.controllers, Next(original, w, e).controllers)
  {
    hide Run, Current, NodeId, Sound, Valid, DiskOk, AllSound, GrantsOk, EnrolStep, GivesNewNodes, Possible, Grows;
    var w' := Next(original, w, e);
    if e.controller in w.controllers {
      OwnStep(w, e, original);
    } else {
      SameGrows(w.controllers);
    }
    DiskOkLater(original, w, w', DiskOf(original, w));
  }

  lemma NextInv(original: Binding, w: World, e: Event)
    requires WorldInv(original, w) && Possible(original, w, e)
    ensures WorldInv(original, Next(original, w, e))
  {
    hide WorldInv, Possible, Next;
    match e
    case RunEnrol(_, _, _, _, _, _, _, _) => EnrolEventInv(original, w, e);
    case RunPrepare(_, _, _, _, _, _) => ToolEventInv(original, w, e);
    case RunCommit(_, _, _, _, _) => ToolEventInv(original, w, e);
    case Connect(id, now) => ConnectInv(original, w, id, now);
    case _ => ControllerEventInv(original, w, e);
  }

  lemma {:induction false} RunsInv(original: Binding, w: World, events: seq<Event>)
    requires WorldInv(original, w) && Feasible(original, w, events)
    ensures WorldInv(original, After(original, w, events))
    decreases |events|
  {
    hide WorldInv, Possible, Next;
    if events != [] {
      NextInv(original, w, events[0]);
      RunsInv(original, Next(original, w, events[0]), events[1..]);
    }
  }
}
