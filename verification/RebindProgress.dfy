/** When a controller transfer can go on, when it can still be finished, and the histories
    after which it cannot. */
module RebindProgress {
  import opened Text
  import opened BindingRecord
  import opened Rebind
  import opened RebindInvariant
  import opened RebindResults

  lemma RunSnoc(original: Binding, attempts: seq<Attempt>, a: Attempt)
    requires Valid(original)
    ensures var d := Run(original, attempts).disk;
            Run(original, attempts + [a]).disk == Exec(original, d, Until(Plan(original, d, a.command), a.kill))
  {
    hide Plan, Inv, Exec, Until, Valid;
    var h := Run(original, attempts);
    assert (attempts + [a])[..|attempts|] == attempts;
    RunInv(original, attempts);
    PlayInv(original, h, Until(Plan(original, h.disk, a.command), a.kill));
  }

  // ---------- no command does anything ----------

  /** Staging was cut short, or the staged identity is not the source's. */
  predicate Unusable(d: Disk, id: string)
    requires Has(d, id)
  {
    var s := StateOf(d, id);
    s.phase == Prepared && id in d.staged && d.staged[id] != Complete(s.source.binding.endpoint)
  }

  predicate Stopped(d: Disk, id: string) {
    id in d.operations && (d.operations[id].Unsaved? || Unusable(d, id))
  }

  lemma StoppedPlansNothing(original: Binding, h: Host, id: string, c: Command)
    requires Inv(original, h) && Stopped(h.disk, id)
    ensures Plan(original, h.disk, c) == []
  {
    hide Current, Hex64, NodeId, Encode, Chained, OperationsSound;
    var d := h.disk;
    assert !Finished(d.operations[id]);
    if c.id in d.operations && c.id != id {
      assert Finished(d.operations[c.id]);
    }
  }

  /** Otherwise the next command of its phase has something to write. */
  lemma Continues(original: Binding, h: Host, id: string) returns (c: Command)
    requires Inv(original, h) && id in h.disk.operations && !Finished(h.disk.operations[id]) && !Stopped(h.disk, id)
    ensures Plan(original, h.disk, c) != []
  {
    hide Current, Hex64, NodeId, Encode, StateSound, Chained;
    var s := StateOf(h.disk, id);
    assert InPlace(original, h.disk, id);
    c := if s.phase in {Prepared, Enrolling} then Enrol(id, Enrolment(Some(Complete(s.source.binding.endpoint)), None))
         else Commit(id, false, true);
  }

  /** With an operation unfinished, no command writes anything exactly when that operation
      has no `state.json` yet, or waits for enrolment with an unusable staged identity. */
  lemma StopsExactlyWhen(original: Binding, attempts: seq<Attempt>, id: string)
    requires Valid(original) && id in Run(original, attempts).disk.operations
    requires !Finished(Run(original, attempts).disk.operations[id])
    ensures (forall c :: Plan(original, Run(original, attempts).disk, c) == [])
            <==> Stopped(Run(original, attempts).disk, id)
  {
    hide Plan, Inv, Run, Valid, Stopped, Finished;
    RunInv(original, attempts);
    var h := Run(original, attempts);
    if Stopped(h.disk, id) {
      forall c ensures Plan(original, h.disk, c) == [] {
        StoppedPlansNothing(original, h, id, c);
      }
    } else {
      var c := Continues(original, h, id);
    }
  }

  lemma {:induction false} StoppedForGood(original: Binding, attempts: seq<Attempt>, more: seq<Attempt>, id: string)
    requires Valid(original) && Stopped(Run(original, attempts).disk, id)
    ensures Run(original, attempts + more).disk == Run(original, attempts).disk
    decreases |more|
  {
    hide Plan, Inv, Run, Valid, Stopped;
    if more == [] {
      assert attempts + more == attempts;
    } else {
      var before, last := more[..|more| - 1], more[|more| - 1];
      StoppedForGood(original, attempts, before, id);
      assert attempts + more == (attempts + before) + [last];
      RunSnoc(original, attempts + before, last);
      RunInv(original, attempts + before);
      StoppedPlansNothing(original, Run(original, attempts + before), id, last.command);
    }
  }

  // ---------- the place of the identity is taken ----------

  predicate Blocked(d: Disk, id: string) {
    Has(d, id) && StateOf(d, id).phase in {Enrolled, Committing} && PlaceTaken(d, id)
  }

  lemma BlockedStep(original: Binding, h: Host, w: Write, id: string)
    requires Inv(original, h) && Blocked(h.disk, id) && Allowed(original, h.disk, w)
    ensures Blocked(Do(original, h.disk, w), id) && Do(original, h.disk, w).active == h.disk.active
  {
    hide Encode, NodeId, Hex64, Decode, Current, StateSound;
    OnlyThis(original, h, w);
    assert !Finished(h.disk.operations[id]);
    assert w.id == id && InPlace(original, h.disk, id);
  }

  lemma {:induction false} BlockedPlay(original: Binding, h: Host, writes: seq<Write>, id: string)
    requires Inv(original, h) && Blocked(h.disk, id)
    ensures Blocked(Play(original, h, writes).disk, id) && Play(original, h, writes).disk.active == h.disk.active
    decreases |writes|
  {
    hide Inv, Allowed, Do, Current, Blocked;
    if writes != [] {
      if Allowed(original, h.disk, writes[0]) {
        StepInv(original, h, writes[0]);
        BlockedStep(original, h, writes[0], id);
        BlockedPlay(original, Step(original, h, writes[0]), writes[1..], id);
      } else {
        BlockedPlay(original, h, writes[1..], id);
      }
    }
  }

  lemma BlockedPlan(original: Binding, h: Host, id: string, unresolved: bool, session: bool)
    requires Inv(original, h) && Blocked(h.disk, id)
    ensures CommitPlan(original, h.disk, id, unresolved, session) == [SaveCommitting(id)]
  {
    hide Encode, NodeId, Hex64, Decode, Current, StateSound;
    assert StateSound(StateOf(h.disk, id)) && InPlace(original, h.disk, id);
    PublishedIsMoved(original, h, id);
    assert !TransferWorks(h.disk, id) && TransferPlan(h.disk, id, unresolved) == [];
  }

  lemma PublishedIsMoved(original: Binding, h: Host, id: string)
    requires Inv(original, h) && Has(h.disk, id) && StateOf(h.disk, id).phase in {Enrolled, Committing}
             && id in h.disk.staged
    ensures !Published(h.disk, StateOf(h.disk, id)) && Current(original, h.disk) == Some(StateOf(h.disk, id).source)
  {
    hide Current, Encode, NodeId, Hex64;
    assert StateSound(StateOf(h.disk, id)) && InPlace(original, h.disk, id);
  }

  /** Once the place is taken it stays taken: whatever is run and killed afterwards, every
      `commit` of the operation only notes the attempt, and the authority never changes. */
  lemma {:induction false} BlockedForGood(original: Binding, attempts: seq<Attempt>, more: seq<Attempt>, id: string)
    requires Valid(original) && Blocked(Run(original, attempts).disk, id)
    ensures var d, d' := Run(original, attempts).disk, Run(original, attempts + more).disk;
            && Blocked(d', id) && d'.active == d.active
            && forall unresolved, session :: CommitPlan(original, d', id, unresolved, session) == [SaveCommitting(id)]
    decreases |more|
  {
    hide Plan, Inv, Valid, Blocked, CommitPlan;
    if more == [] {
      assert attempts + more == attempts;
    } else {
      var before, last := more[..|more| - 1], more[|more| - 1];
      BlockedForGood(original, attempts, before, id);
      assert (attempts + more)[..|attempts + more| - 1] == attempts + before;
      RunInv(original, attempts + before);
      var h := Run(original, attempts + before);
      BlockedPlay(original, h, Until(Plan(original, h.disk, last.command), last.kill), id);
    }
    RunInv(original, attempts + more);
    forall unresolved, session
      ensures CommitPlan(original, Run(original, attempts + more).disk, id, unresolved, session) == [SaveCommitting(id)]
    {
      BlockedPlan(original, Run(original, attempts + more), id, unresolved, session);
    }
  }

  /** No operation waits for a place that is taken. */
  ghost predicate NoneTaken(d: Disk) {
    forall id | Has(d, id) && StateOf(d, id).phase in {Enrolled, Committing} :: !PlaceTaken(d, id)
  }

  lemma StepNoneTaken(original: Binding, h: Host, w: Write)
    requires Inv(original, h) && NoneTaken(h.disk) && Allowed(original, h.disk, w)
    requires w.SaveEnrolled? ==> w.node !in h.disk.identities
    ensures NoneTaken(Do(original, h.disk, w))
  {
    hide Encode, NodeId, Hex64, Decode, Current, StateSound, InPlace;
    OnlyThis(original, h, w);
    var d' := Do(original, h.disk, w);
    assert forall id | Has(d', id) && id != w.id :: StateOf(d', id).phase == Verified;
  }

  predicate Enrols(w: Write) {
    w.SaveEnrolled?
  }

  /** The writes move no identity, and every node they save is new. */
  predicate EnrolsNew(d: Disk, writes: seq<Write>) {
    forall w | w in writes :: !w.MoveIdentity? && (Enrols(w) ==> w.node !in d.identities)
  }

  predicate EnrolsNothing(writes: seq<Write>) {
    forall w | w in writes :: !Enrols(w)
  }

  lemma {:induction false} PlayNoneTaken(original: Binding, h: Host, writes: seq<Write>)
    requires Inv(original, h) && NoneTaken(h.disk) && (EnrolsNothing(writes) || EnrolsNew(h.disk, writes))
    ensures NoneTaken(Play(original, h, writes).disk)
    decreases |writes|
  {
    hide Inv, NoneTaken, Allowed, Do, Current;
    if writes != [] {
      var w, rest := writes[0], writes[1..];
      assert w in writes && forall x | x in rest :: x in writes;
      if Allowed(original, h.disk, w) {
        StepNoneTaken(original, h, w);
        StepInv(original, h, w);
        if !w.MoveIdentity? {
          OnlyMovesAdd(original, h.disk, w);
        }
        PlayNoneTaken(original, Step(original, h, w), rest);
      } else {
        PlayNoneTaken(original, h, rest);
      }
    }
  }

  lemma OnlyMovesAdd(original: Binding, d: Disk, w: Write)
    requires !w.MoveIdentity?
    ensures Do(original, d, w).identities == d.identities
  {
    hide Encode, NodeId, Hex64, Decode, Current;
  }

  /** The controller gives out a node that has no identity here yet. */
  ghost predicate GivesNewNodes(original: Binding, attempts: seq<Attempt>) {
    forall k | 0 <= k < |attempts| && attempts[k].command.Enrol? && attempts[k].command.agent.node.Some? ::
      attempts[k].command.agent.node.value !in Run(original, attempts[..k]).disk.identities
  }

  lemma CommitEnrolsNothing(original: Binding, d: Disk, id: string, unresolved: bool, session: bool)
    ensures EnrolsNothing(CommitPlan(original, d, id, unresolved, session))
  {
    hide Current, Published, TransferWorks;
    if Has(d, id) {
      assert EnrolsNothing(TransferPlan(d, id, unresolved)) && EnrolsNothing(LastPlan(id, session));
      assert EnrolsNothing(RestPlan(d, id, unresolved, session));
      assert EnrolsNothing(PublishPlan(original, d, id, unresolved, session));
    }
  }

  lemma PlanNodes(original: Binding, d: Disk, c: Command)
    requires c.Enrol? && c.agent.node.Some? ==> c.agent.node.value !in d.identities
    ensures EnrolsNothing(Plan(original, d, c)) || EnrolsNew(d, Plan(original, d, c))
  {
    hide Current, NodeId, Hex64, AllFinished, CommitPlan;
    if c.Commit? {
      CommitEnrolsNothing(original, d, c.id, c.unresolved, c.session);
    }
  }

  lemma UntilIsPart(plan: seq<Write>, kill: nat)
    ensures forall w | w in Until(plan, kill) :: w in plan
  {}

  lemma {:induction false} RunNoneTaken(original: Binding, attempts: seq<Attempt>)
    requires Valid(original) && GivesNewNodes(original, attempts)
    ensures NoneTaken(Run(original, attempts).disk)
    decreases |attempts|
  {
    hide Plan, Valid, Inv;
    if attempts != [] {
      var before, last := attempts[..|attempts| - 1], attempts[|attempts| - 1];
      assert forall k | 0 <= k < |before| :: before[..k] == attempts[..k];
      RunNoneTaken(original, before);
      RunInv(original, before);
      var h := Run(original, before);
      PlanNodes(original, h.disk, last.command);
      UntilIsPart(Plan(original, h.disk, last.command), last.kill);
      PlayNoneTaken(original, h, Until(Plan(original, h.disk, last.command), last.kill));
    }
  }

  /** With a controller that gives out new nodes, `commit` run to its end always finishes
      the transfer, from wherever it was killed before. */
  lemma CommitAlwaysFinishes(original: Binding, attempts: seq<Attempt>, id: string, unresolved: bool)
    requires Valid(original) && GivesNewNodes(original, attempts) && Has(Run(original, attempts).disk, id)
    requires StateOf(Run(original, attempts).disk, id).phase in {Enrolled, Committing, Committed}
    ensures var d := Run(original, attempts).disk;
            var f := Exec(original, d, CommitPlan(original, d, id, unresolved, true));
            var s := StateOf(d, id);
            && Has(f, id) && StateOf(f, id).phase == Verified && Moved(f, id)
            && f.active == Some(Encode(Target(s, StateOf(f, id).blocked)))
  {
    hide Exec, CommitPlan, Encode;
    CommitResumes(original, attempts, id, unresolved, true);
    RunNoneTaken(original, attempts);
    if StateOf(Run(original, attempts).disk, id).phase == Committed {
      CommittedIsMoved(original, attempts, id);
    }
  }

  lemma CommittedIsMoved(original: Binding, attempts: seq<Attempt>, id: string)
    requires Valid(original) && Has(Run(original, attempts).disk, id)
    requires StateOf(Run(original, attempts).disk, id).phase == Committed
    ensures !PlaceTaken(Run(original, attempts).disk, id)
  {
    hide StateSound, Current;
    RunInv(original, attempts);
    assert InPlace(original, Run(original, attempts).disk, id);
  }

  // ---------- enrolment ----------

  function Offer(endpoint: string, node: string): Enrolment {
    Enrolment(Some(Complete(endpoint)), Some(node))
  }

  /** Enrolment with an agent and a controller that both answer. */
  lemma EnrolmentWorks(original: Binding, h: Host, id: string, node: string)
    requires Inv(original, h) && Has(h.disk, id) && StateOf(h.disk, id).phase in {Prepared, Enrolling}
             && !Unusable(h.disk, id)
    requires NodeId(node) && node != StateOf(h.disk, id).source.binding.node
    ensures var d, s := h.disk, StateOf(h.disk, id);
            var plan := EnrolPlan(original, d, id, Offer(s.source.binding.endpoint, node));
            var f := Exec(original, d, plan);
            && |plan| <= 3
            && f == d.(operations := d.operations[id := Saved(s.(phase := Enrolled, node := node))],
                       staged := d.staged[id := Complete(s.source.binding.endpoint)])
  {
    hide Current, NodeId, Exec, Do, Allowed, Encode, Hex64;
    var d, s := h.disk, StateOf(h.disk, id);
    var identity := Complete(s.source.binding.endpoint);
    assert InPlace(original, d, id);
    ExecNone(original, d);
    var stage := if id in d.staged then [] else [StageIdentity(id, identity)];
    var d1 := d.(staged := d.staged[id := identity]);
    EnrolSteps(original, d, id, identity, node);
    ExecOne(original, d, StageIdentity(id, identity));
    assert id in d.staged ==> d1 == d;
    assert Exec(original, d, stage) == d1;
    SameCurrent(original, d, d1);
    EnrolSteps(original, d1, id, identity, node);
    var d2 := SavePhase(d1, id, Enrolling);
    ExecOne(original, d1, SaveEnrolling(id));
    SameCurrent(original, d, d2);
    EnrolSteps(original, d2, id, identity, node);
    ExecSnoc(original, d1, [SaveEnrolling(id)], SaveEnrolled(id, node));
    assert [SaveEnrolling(id)] + [SaveEnrolled(id, node)] == NodePlan(d, id, Some(node));
    ExecAppend(original, d, stage, NodePlan(d, id, Some(node)));
  }

  // ---------- histories that end so ----------

  predicate Own(writes: seq<Write>, id: string) {
    forall w | w in writes :: w.id == id
  }

  lemma CommitIsOwn(original: Binding, d: Disk, id: string, unresolved: bool, session: bool)
    ensures Own(CommitPlan(original, d, id, unresolved, session), id)
  {
    hide Current, Published, TransferWorks;
    if Has(d, id) {
      assert Own(TransferPlan(d, id, unresolved), id) && Own(LastPlan(id, session), id);
      assert Own(RestPlan(d, id, unresolved, session), id);
      assert Own(PublishPlan(original, d, id, unresolved, session), id);
    }
  }

  lemma StepLeaves(original: Binding, d: Disk, w: Write, id: string)
    requires w.id != id
    ensures var f := Do(original, d, w);
            && (id in f.operations <==> id in d.operations)
               && (id in d.operations ==> f.operations[id] == d.operations[id])
            && (id in f.staged <==> id in d.staged)
  {
    hide Current, NodeId, Hex64, Encode, Finished;
  }

  lemma {:induction false} ExecLeaves(original: Binding, d: Disk, writes: seq<Write>, id: string)
    requires forall w | w in writes :: w.id != id
    ensures var f := Exec(original, d, writes);
            && (id in f.operations <==> id in d.operations)
               && (id in d.operations ==> f.operations[id] == d.operations[id])
            && (id in f.staged <==> id in d.staged)
    decreases |writes|
  {
    if writes != [] {
      assert writes[0] in writes && forall w | w in writes[1..] :: w in writes;
      StepLeaves(original, d, writes[0], id);
      hide Do;
      ExecLeaves(original, Do(original, d, writes[0]), writes[1..], id);
    }
  }

  predicate Pins(a: Authority, controller: string, key: string) {
    Hex64(controller) && controller != a.binding.controller && Hex64(key) && key != a.binding.key
  }

  /** Nothing is unfinished, and the identifier is new. */
  ghost predicate Ready(original: Binding, d: Disk, id: string, controller: string, key: string) {
    && AllFinished(d) && id !in d.operations && id !in d.staged
    && Current(original, d).Some? && Pins(Current(original, d).value, controller, key)
  }

  lemma PrepareWorks(original: Binding, d: Disk, id: string, controller: string, key: string)
    requires Ready(original, d, id, controller, key)
    ensures PreparePlan(original, d, id, controller, key, true)
            == [MakeDirectory(id), SavePrepared(id, controller, key)]
    ensures Exec(original, d, [MakeDirectory(id)]) == d.(operations := d.operations[id := Unsaved])
    ensures Exec(original, d, [MakeDirectory(id), SavePrepared(id, controller, key)])
            == Save(d, id, State(Prepared, Current(original, d).value, controller, key, "", None, false))
  {
    hide Hex64, Encode, NodeId, Exec, Current, Finished;
    var d1 := d.(operations := d.operations[id := Unsaved]);
    ExecOne(original, d, MakeDirectory(id));
    SameCurrent(original, d, d1);
    ExecSnoc(original, d, [MakeDirectory(id)], SavePrepared(id, controller, key));
    assert [MakeDirectory(id)] + [SavePrepared(id, controller, key)]
           == [MakeDirectory(id), SavePrepared(id, controller, key)];
  }

  /** `prepare` killed between the directory and its first `state.json`: from any host with
      nothing unfinished, and for ever. */
  lemma KilledPrepareStops(original: Binding, attempts: seq<Attempt>, id: string, controller: string, key: string,
                           more: seq<Attempt>)
    requires Valid(original) && Ready(original, Run(original, attempts).disk, id, controller, key)
    ensures var after := attempts + [Attempt(Prepare(id, controller, key, true), 1)];
            && Stopped(Run(original, after).disk, id)
            && Run(original, after + more).disk == Run(original, after).disk
  {
    hide Valid, Ready, Exec;
    var a := Attempt(Prepare(id, controller, key, true), 1);
    var d := Run(original, attempts).disk;
    PrepareWorks(original, d, id, controller, key);
    RunSnoc(original, attempts, a);
    assert [MakeDirectory(id), SavePrepared(id, controller, key)][..1] == [MakeDirectory(id)];
    StoppedForGood(original, attempts + [a], more, id);
  }

  /** Staging killed on its way, after `prepare` went through: the same. */
  lemma KilledStagingStops(original: Binding, attempts: seq<Attempt>, id: string, controller: string, key: string,
                           more: seq<Attempt>)
    requires Valid(original) && Ready(original, Run(original, attempts).disk, id, controller, key)
    ensures var after := attempts + [Attempt(Prepare(id, controller, key, true), 2),
            Attempt(Enrol(id, Enrolment(Some(Incomplete), None)), 1)];
            && Stopped(Run(original, after).disk, id) && Has(Run(original, after).disk, id)
            && Run(original, after + more).disk == Run(original, after).disk
  {
    hide Valid, Ready, Exec, Run, Current;
    var first, second := Attempt(Prepare(id, controller, key, true), 2),
        Attempt(Enrol(id, Enrolment(Some(Incomplete), None)), 1);
    var prepared := attempts + [first];
    PreparedRun(original, attempts, id, controller, key);
    var d := Run(original, prepared).disk;
    RunSnoc(original, prepared, second);
    EnrolSteps(original, d, id, Incomplete, "");
    ExecOne(original, d, StageIdentity(id, Incomplete));
    assert prepared + [second] == attempts + [first, second];
    StoppedForGood(original, prepared + [second], more, id);
  }

  /** The host after a whole `prepare`. */
  lemma PreparedRun(original: Binding, attempts: seq<Attempt>, id: string, controller: string, key: string)
    requires Valid(original) && Ready(original, Run(original, attempts).disk, id, controller, key)
    ensures var d, d' := Run(original, attempts).disk,
            Run(original, attempts + [Attempt(Prepare(id, controller, key, true), 2)]).disk;
            && d' == Save(d, id, State(Prepared, Current(original, d).value, controller, key, "", None, false))
            && id !in d'.staged && Current(original, d).Some? && Current(original, d') == Current(original, d)
  {
    hide Valid, Exec, Run, Hex64;
    var d := Run(original, attempts).disk;
    PrepareWorks(original, d, id, controller, key);
    RunSnoc(original, attempts, Attempt(Prepare(id, controller, key, true), 2));
    SameCurrent(original, d, Run(original, attempts + [Attempt(Prepare(id, controller, key, true), 2)]).disk);
  }

  /** The attempts of a transfer up to enrolment, and of a whole one. */
  function EnrolAttempts(id: string, controller: string, key: string, endpoint: string, node: string): seq<Attempt> {
    [Attempt(Prepare(id, controller, key, true), 2), Attempt(Enrol(id, Offer(endpoint, node)), 3)]
  }

  function TransferAttempts(id: string, controller: string, key: string, endpoint: string, node: string): seq<Attempt> {
    EnrolAttempts(id, controller, key, endpoint, node) + [Attempt(Commit(id, false, true), 6)]
  }

  lemma EnrolledRun(original: Binding, attempts: seq<Attempt>, id: string, controller: string, key: string,
                    node: string)
    requires Valid(original) && Ready(original, Run(original, attempts).disk, id, controller, key)
    requires NodeId(node) && node != Current(original, Run(original, attempts).disk).value.binding.node
    ensures var d := Run(original, attempts).disk;
            var source := Current(original, d).value;
            var d' := Run(original, attempts + EnrolAttempts(id, controller, key, source.binding.endpoint, node)).disk;
            var s := State(Enrolled, source, controller, key, node, None, false);
            && d' == d.(operations := d.operations[id := Saved(s)],
                        staged := d.staged[id := Complete(source.binding.endpoint)])
  {
    hide Valid, Ready, Exec, Run, NodeId, Current, EnrolPlan, Inv;
    PreparedRun(original, attempts, id, controller, key);
    var source := Current(original, Run(original, attempts).disk).value;
    var plan := EnrolAttempts(id, controller, key, source.binding.endpoint, node);
    var prepared := attempts + [plan[0]];
    RunInv(original, prepared);
    EnrolmentWorks(original, Run(original, prepared), id, node);
    RunSnoc(original, prepared, plan[1]);
    assert prepared + [plan[1]] == attempts + plan;
  }

  /** A whole transfer leaves nothing unfinished, the new binding active and the new identity
      in place beside the earlier ones. */
  lemma TransferRun(original: Binding, attempts: seq<Attempt>, id: string, controller: string, key: string,
                    node: string)
    requires Valid(original) && Ready(original, Run(original, attempts).disk, id, controller, key)
    requires NodeId(node) && node != Current(original, Run(original, attempts).disk).value.binding.node
    requires node !in Run(original, attempts).disk.identities
    ensures var d := Run(original, attempts).disk;
            var b := Current(original, d).value.binding;
            var d' := Run(original, attempts + TransferAttempts(id, controller, key, b.endpoint, node)).disk;
            && AllFinished(d')
            && Current(original, d') == Some(Authority(Binding(node, controller, b.endpoint, key, b.blocked), false))
            && (forall n :: n in d'.identities <==> n in d.identities || n == node)
  {
    hide Valid, Exec, Run, NodeId, Hex64, Encode, CommitPlan, Inv, Current, Decode;
    EnrolledRun(original, attempts, id, controller, key, node);
    var d := Run(original, attempts).disk;
    var b := Current(original, d).value.binding;
    var enrolled, last := attempts + EnrolAttempts(id, controller, key, b.endpoint, node),
        Attempt(Commit(id, false, true), 6);
    assert attempts + TransferAttempts(id, controller, key, b.endpoint, node) == enrolled + [last];
    var d1 := Run(original, enrolled).disk;
    CommitResumes(original, enrolled, id, false, true);
    CommitLength(original, d1, id);
    RunSnoc(original, enrolled, last);
    OthersFinished(original, d, d1, Run(original, enrolled + [last]).disk, id,
        CommitPlan(original, d1, id, false, true));
    PublishedReads(original, enrolled + [last], id);
    forall n | n !in d.identities && n != node ensures n !in Run(original, enrolled + [last]).disk.identities {
      ExecPlaces(original, d1, CommitPlan(original, d1, id, false, true), id, n);
    }
  }

  /** Committing puts an identity in the place of its own node only. */
  lemma {:induction false} ExecPlaces(original: Binding, d: Disk, writes: seq<Write>, id: string, n: string)
    requires Own(writes, id) && Has(d, id) && StateOf(d, id).phase in {Enrolled, Committing, Committed, Verified}
    requires n !in d.identities && n != StateOf(d, id).node
    ensures n !in Exec(original, d, writes).identities
    decreases |writes|
  {
    if writes != [] {
      assert writes[0] in writes && forall w | w in writes[1..] :: w in writes;
      StepFixes(original, d, writes[0], id);
      StepPlaces(original, d, writes[0], n);
      hide Do;
      ExecPlaces(original, Do(original, d, writes[0]), writes[1..], id, n);
    }
  }

  lemma StepPlaces(original: Binding, d: Disk, w: Write, n: string)
    requires Has(d, w.id) && n !in d.identities && n != StateOf(d, w.id).node
    ensures n !in Do(original, d, w).identities
  {
    hide Current, NodeId, Hex64, Encode;
  }

  lemma CommitLength(original: Binding, d: Disk, id: string)
    ensures |CommitPlan(original, d, id, false, true)| <= 6
    ensures Own(CommitPlan(original, d, id, false, true), id)
  {
    CommitIsOwn(original, d, id, false, true);
    hide Current, Published, TransferWorks, Own;
  }

  lemma OthersFinished(original: Binding, d: Disk, d1: Disk, f: Disk, id: string, writes: seq<Write>)
    requires AllFinished(d) && id in f.operations && Finished(f.operations[id]) && Own(writes, id)
    requires forall j | j != id ::
               && (j in d1.operations <==> j in d.operations)
               && (j in d.operations ==> d1.operations[j] == d.operations[j])
    requires f == Exec(original, d1, writes)
    ensures AllFinished(f)
  {
    hide Exec;
    forall j | j in f.operations ensures Finished(f.operations[j]) {
      if j != id {
        ExecLeaves(original, d1, writes, j);
      }
    }
  }

  /** The active record of a finished operation decodes to its target. */
  lemma PublishedReads(original: Binding, attempts: seq<Attempt>, id: string)
    requires Valid(original) && Has(Run(original, attempts).disk, id)
    requires Published(Run(original, attempts).disk, StateOf(Run(original, attempts).disk, id))
    ensures var d := Run(original, attempts).disk;
            var s := StateOf(d, id);
            Current(original, d) == Some(Authority(Target(s, s.blocked), false))
  {
    hide Run, Encode, Decode;
    BlockIsKept(original, attempts, id);
  }

  /** A node that an earlier transfer used is accepted at enrolment, and then the operation
      is blocked for good. */
  lemma UsedNodeIsStuck(original: Binding, attempts: seq<Attempt>, id: string, node: string, more: seq<Attempt>)
    requires Valid(original) && Has(Run(original, attempts).disk, id)
    requires StateOf(Run(original, attempts).disk, id).phase in {Prepared, Enrolling}
             && !Unusable(Run(original, attempts).disk, id)
    requires NodeId(node) && node != StateOf(Run(original, attempts).disk, id).source.binding.node
    requires node in Run(original, attempts).disk.identities
    ensures var endpoint := StateOf(Run(original, attempts).disk, id).source.binding.endpoint;
            var after := attempts + [Attempt(Enrol(id, Offer(endpoint, node)), 3)];
            && Blocked(Run(original, after).disk, id) && Blocked(Run(original, after + more).disk, id)
            && Run(original, after + more).disk.active == Run(original, attempts).disk.active
  {
    hide Valid, Run, NodeId, Exec, EnrolPlan, Inv;
    var a := Attempt(Enrol(id, Offer(StateOf(Run(original, attempts).disk, id).source.binding.endpoint, node)), 3);
    RunInv(original, attempts);
    EnrolmentWorks(original, Run(original, attempts), id, node);
    RunSnoc(original, attempts, a);
    EnrolledIsBlocked(original, attempts + [a], id);
    BlockedForGood(original, attempts + [a], more, id);
  }

  lemma AtFirst(original: Binding)
    ensures var d := Run(original, []).disk;
            d == Disk(None, map[], map[], map[]) && Current(original, d) == Some(Authority(original, true))
  {}

  lemma EnrolledIsBlocked(original: Binding, attempts: seq<Attempt>, id: string)
    requires var d := Run(original, attempts).disk;
             Has(d, id) && StateOf(d, id).phase == Enrolled && id in d.staged && StateOf(d, id).node in d.identities
    ensures Blocked(Run(original, attempts).disk, id)
  {
    hide Run;
  }
}
