/** Moving an agent to another controller. The tool works on durable files only: the
    `active-binding` file, one `state.json` per operation, and the identity directory
    that is staged and then moved under the new node. Every command is a series of
    atomic writes; it may be killed after any of them and is then run again.

    `Write` lists the atomic writes. A command is the plan of writes it would make from
    the files it finds, so a killed command is a prefix of its plan. */
module Rebind {
  import opened Text
  import opened BindingRecord

  /** The authority an agent obeys: the original enrolment, or an active binding. */
  datatype Authority = Authority(binding: Binding, original: bool)

  datatype Phase = Prepared | Enrolling | Enrolled | Committing | Committed | Verified

  /** `state.json`. `node` is set at enrolment; `record` and `blocked` before publication. */
  datatype State = State(phase: Phase, source: Authority, controller: string, key: string, node: string,
                         record: Option<string>, blocked: bool)

  /** An operation directory, which exists before its first `state.json` does. */
  datatype Operation = Unsaved | Saved(state: State)

  /** `Incomplete` is what a staging cut short leaves: it is never used and never replaced. */
  datatype Identity = Incomplete | Complete(endpoint: string)

  datatype Disk = Disk(active: Option<string>, operations: map<string, Operation>, staged: map<string, Identity>,
                       identities: map<string, Identity>)

  /** `current_binding`; `original` is the enrolment in the agent's environment file. */
  function Current(original: Binding, d: Disk): Option<Authority> {
    match d.active
    case None => Some(Authority(original, true))
    case Some(raw) =>
      var b := Decode(raw);
      if b.Some? then Some(Authority(b.value, false)) else None
  }

  function Target(s: State, blocked: bool): Binding {
    Binding(s.node, s.controller, s.source.binding.endpoint, s.key, blocked)
  }

  predicate Has(d: Disk, id: string) {
    id in d.operations && d.operations[id].Saved?
  }

  function StateOf(d: Disk, id: string): State
    requires Has(d, id)
  {
    d.operations[id].state
  }

  function Save(d: Disk, id: string, s: State): Disk {
    d.(operations := d.operations[id := Saved(s)])
  }

  predicate Finished(o: Operation) {
    o.Saved? && o.state.phase == Verified
  }

  predicate AllFinished(d: Disk) {
    forall id | id in d.operations :: Finished(d.operations[id])
  }

  /** The record in `state.json` is already the active one. */
  predicate Published(d: Disk, s: State) {
    s.record.Some? && d.active == s.record
  }

  // ---------- the atomic writes ----------

  datatype Write =
    | MakeDirectory(id: string)
    | SavePrepared(id: string, controller: string, key: string)
    | StageIdentity(id: string, identity: Identity)
    | SaveEnrolling(id: string)
    | SaveEnrolled(id: string, node: string)
    | SaveCommitting(id: string)
    | MoveIdentity(id: string)
    | SaveRecord(id: string, blocked: bool)
    | Publish(id: string)
    | SaveCommitted(id: string)
    | SaveVerified(id: string)

  /** The phase change of a write that only saves a new phase. */
  function SavePhase(d: Disk, id: string, phase: Phase): Disk
    requires Has(d, id)
  {
    Save(d, id, StateOf(d, id).(phase := phase))
  }

  /** When a command makes the write; every command reads these files first. */
  predicate Allowed(original: Binding, d: Disk, w: Write) {
    match w
    case MakeDirectory(id) => id !in d.operations && id !in d.staged && AllFinished(d)
    case SavePrepared(id, controller, key) =>
      && id in d.operations && d.operations[id].Unsaved?
         && (forall i | i in d.operations && i != id :: Finished(d.operations[i]))
      && Current(original, d).Some?
      && Hex64(controller) && controller != Current(original, d).value.binding.controller
      && Hex64(key) && key != Current(original, d).value.binding.key
    case StageIdentity(id, _) =>
      Has(d, id) && StateOf(d, id).phase in {Prepared, Enrolling}
          && Current(original, d) == Some(StateOf(d, id).source) && id !in d.staged
    case SaveEnrolling(id) => Has(d, id) && StateOf(d, id).phase in {Prepared, Enrolling}
        && ReadyToEnrol(original, d, id)
    case SaveEnrolled(id, node) =>
      && Has(d, id) && StateOf(d, id).phase == Enrolling && ReadyToEnrol(original, d, id)
      && NodeId(node) && node != StateOf(d, id).source.binding.node
    case SaveCommitting(id) =>
      && Has(d, id) && StateOf(d, id).phase in {Enrolled, Committing}
      && Current(original, d).Some? && (Published(d, StateOf(d, id))
         || Current(original, d) == Some(StateOf(d, id).source))
    case MoveIdentity(id) =>
      Has(d, id) && StateOf(d, id).phase == Committing && id in d.staged && StateOf(d, id).node !in d.identities
          && !Published(d, StateOf(d, id))
    case SaveRecord(id, blocked) =>
      && Has(d, id) && StateOf(d, id).phase == Committing && Current(original, d) == Some(StateOf(d, id).source)
      && Moved(d, id) && (StateOf(d, id).source.binding.blocked ==> blocked)
    case Publish(id) =>
      && Has(d, id) && StateOf(d, id).phase == Committing && Current(original, d) == Some(StateOf(d, id).source)
      && Moved(d, id) && StateOf(d, id).record.Some?
    case SaveCommitted(id) => Has(d, id) && StateOf(d, id).phase == Committing && Published(d, StateOf(d, id))
    case SaveVerified(id) => Has(d, id) && StateOf(d, id).phase == Committed && Published(d, StateOf(d, id))
  }

  predicate ReadyToEnrol(original: Binding, d: Disk, id: string)
    requires Has(d, id)
  {
    var s := StateOf(d, id);
    Current(original, d) == Some(s.source) && id in d.staged && d.staged[id] == Complete(s.source.binding.endpoint)
  }

  /** The identity is complete under the new node, and no longer staged. */
  predicate Moved(d: Disk, id: string)
    requires Has(d, id)
  {
    var s := StateOf(d, id);
    id !in d.staged && s.node in d.identities && d.identities[s.node] == Complete(s.source.binding.endpoint)
  }

  function Do(original: Binding, d: Disk, w: Write): Disk {
    if !Allowed(original, d, w) then d
    else
      match w
      case MakeDirectory(id) => d.(operations := d.operations[id := Unsaved])
      case SavePrepared(id, controller, key) =>
        Save(d, id, State(Prepared, Current(original, d).value, controller, key, "", None, false))
      case StageIdentity(id, identity) => d.(staged := d.staged[id := identity])
      case SaveEnrolling(id) => SavePhase(d, id, Enrolling)
      case SaveEnrolled(id, node) => Save(d, id, StateOf(d, id).(phase := Enrolled, node := node))
      case SaveCommitting(id) => SavePhase(d, id, Committing)
      case MoveIdentity(id) =>
        d.(staged := d.staged - {id}, identities := d.identities[StateOf(d, id).node := d.staged[id]])
      case SaveRecord(id, blocked) =>
        var s := StateOf(d, id);
        Save(d, id, s.(record := Some(Encode(Target(s, blocked))), blocked := blocked))
      case Publish(id) => d.(active := StateOf(d, id).record)
      case SaveCommitted(id) => SavePhase(d, id, Committed)
      case SaveVerified(id) => SavePhase(d, id, Verified)
  }

  // ---------- the commands ----------

  /** The writes of `commit`, given whether unresolved work was found at the source and
      whether the new session could be verified. */
  function CommitPlan(original: Binding, d: Disk, id: string, unresolved: bool, session: bool): seq<Write> {
    if !Has(d, id) then []
    else
      var s := StateOf(d, id);
      match s.phase
      case Committed => if Published(d, s) && session then [SaveVerified(id)] else []
      case Enrolled => PublishPlan(original, d, id, unresolved, session)
      case Committing => PublishPlan(original, d, id, unresolved, session)
      case _ => []
  }

  function LastPlan(id: string, session: bool): seq<Write> {
    if session then [SaveCommitted(id), SaveVerified(id)] else [SaveCommitted(id)]
  }

  function MovePlan(d: Disk, id: string): seq<Write> {
    if id in d.staged then [MoveIdentity(id)] else []
  }

  /** The staged or moved identity is complete, and no other one is in its place. */
  predicate TransferWorks(d: Disk, id: string)
    requires Has(d, id)
  {
    var s := StateOf(d, id);
    if id in d.staged then s.node !in d.identities && d.staged[id] == Complete(s.source.binding.endpoint)
    else s.node in d.identities && d.identities[s.node] == Complete(s.source.binding.endpoint)
  }

  function TransferPlan(d: Disk, id: string, unresolved: bool): seq<Write>
    requires Has(d, id)
  {
    var s := StateOf(d, id);
    if id in d.staged && s.node in d.identities then []
    else if !TransferWorks(d, id) then MovePlan(d, id)
    else MovePlan(d, id) + [SaveRecord(id, s.source.binding.blocked || unresolved), Publish(id)]
  }

  function PublishPlan(original: Binding, d: Disk, id: string, unresolved: bool, session: bool): seq<Write>
    requires Has(d, id)
  {
    var s := StateOf(d, id);
    if Current(original, d).None? || !(Published(d, s) || Current(original, d) == Some(s.source)) then []
    else if Published(d, s) then [SaveCommitting(id)] + LastPlan(id, session)
    else [SaveCommitting(id)] + RestPlan(d, id, unresolved, session)
  }

  function RestPlan(d: Disk, id: string, unresolved: bool, session: bool): seq<Write>
    requires Has(d, id)
  {
    TransferPlan(d, id, unresolved) + if TransferWorks(d, id) then LastPlan(id, session) else []
  }

  /** What the agent program does for `enroll`: the identity it stages, the node it is
      given. Either may fail. */
  datatype Enrolment = Enrolment(staged: Option<Identity>, node: Option<string>)

  function EnrolPlan(original: Binding, d: Disk, id: string, agent: Enrolment): seq<Write> {
    if !Has(d, id) then []
    else
      var s := StateOf(d, id);
      if s.phase !in {Prepared, Enrolling} || Current(original, d) != Some(s.source) then []
      else
        var stage := if id !in d.staged && agent.staged.Some? then [StageIdentity(id, agent.staged.value)] else [];
        var identity := if id in d.staged then Some(d.staged[id]) else agent.staged;
        if identity != Some(Complete(s.source.binding.endpoint)) then stage else stage + NodePlan(d, id, agent.node)
  }

  /** The attempt is noted before the controller is asked; the node must be a new one. */
  function NodePlan(d: Disk, id: string, node: Option<string>): seq<Write>
    requires Has(d, id)
  {
    if node.None? || !NodeId(node.value) || node.value == StateOf(d, id).source.binding.node then [SaveEnrolling(id)]
    else [SaveEnrolling(id), SaveEnrolled(id, node.value)]
  }

  /** The writes of `prepare` before it goes on to enrol; `id` is a new UUID, and
      `preflight` says whether the token, the binaries and the source identity are fit. */
  function PreparePlan(original: Binding, d: Disk, id: string, controller: string, key: string,
                       preflight: bool): seq<Write> {
    if !preflight || !AllFinished(d) || Current(original, d).None? || id in d.operations || id in d.staged then []
    else
      var source := Current(original, d).value.binding;
      if !Hex64(controller) || controller == source.controller || !Hex64(key) || key == source.key then []
      else [MakeDirectory(id), SavePrepared(id, controller, key)]
  }

  // ---------- runs of writes ----------

  ghost predicate AllAllowed(original: Binding, d: Disk, writes: seq<Write>)
    decreases |writes|
  {
    writes == [] || (Allowed(original, d, writes[0]) && AllAllowed(original, Do(original, d, writes[0]), writes[1..]))
  }

  function Exec(original: Binding, d: Disk, writes: seq<Write>): Disk
    decreases |writes|
  {
    if writes == [] then d else Exec(original, Do(original, d, writes[0]), writes[1..])
  }

  lemma {:induction false} ExecAppend(original: Binding, d: Disk, a: seq<Write>, b: seq<Write>)
    ensures Exec(original, d, a + b) == Exec(original, Exec(original, d, a), b)
    ensures AllAllowed(original, d, a + b)
            <==> AllAllowed(original, d, a) && AllAllowed(original, Exec(original, d, a), b)
    decreases |a|
  {
    hide Do, Allowed;
    if a == [] {
      assert a + b == b;
    } else {
      assert (a + b)[0] == a[0] && (a + b)[1..] == a[1..] + b;
      ExecAppend(original, Do(original, d, a[0]), a[1..], b);
    }
  }

  lemma ExecOne(original: Binding, d: Disk, w: Write)
    ensures Exec(original, d, [w]) == Do(original, d, w)
    ensures AllAllowed(original, d, [w]) <==> Allowed(original, d, w)
  {
    hide Do, Allowed;
    assert [w][1..] == [];
  }

  /** The part of a plan done before a kill. */
  function Until(plan: seq<Write>, kill: nat): seq<Write> {
    if kill < |plan| then plan[..kill] else plan
  }

  // ---------- the tool ----------

  lemma ExecNone(original: Binding, d: Disk)
    ensures Exec(original, d, []) == d
  {}

  lemma RecordAllowsPublish(original: Binding, d: Disk, id: string, blocked: bool)
    requires Allowed(original, d, SaveRecord(id, blocked))
    ensures Allowed(original, Do(original, d, SaveRecord(id, blocked)), Publish(id))
    ensures var d' := Do(original, d, SaveRecord(id, blocked));
            Has(d', id) && StateOf(d', id).record == Some(Encode(Target(StateOf(d, id), blocked)))
  {
    hide Encode, Decode, NodeId, Hex64;
  }

  /** Saving the phase changes nothing the transfer looks at. */
  lemma CommittingStep(original: Binding, d: Disk, id: string, unresolved: bool)
    requires Has(d, id) && StateOf(d, id).phase in {Enrolled, Committing} && Current(original, d).Some?
    requires Published(d, StateOf(d, id)) || Current(original, d) == Some(StateOf(d, id).source)
    ensures Allowed(original, d, SaveCommitting(id))
    ensures var s := StateOf(d, id).(phase := Committing);
            var d' := Do(original, d, SaveCommitting(id));
            && d' == Save(d, id, s) && Has(d', id) && StateOf(d', id) == s
            && Current(original, d') == Current(original, d) && (Published(d', s) <==> Published(d, StateOf(d, id)))
            && TransferPlan(d', id, unresolved) == TransferPlan(d, id, unresolved)
               && (TransferWorks(d', id) <==> TransferWorks(d, id))
  {
    hide Encode, Decode, NodeId, Hex64;
  }

  lemma MoveResult(original: Binding, d: Disk, id: string)
    requires Has(d, id) && StateOf(d, id).phase == Committing && !Published(d, StateOf(d, id))
    requires id in d.staged ==> StateOf(d, id).node !in d.identities
    ensures AllAllowed(original, d, MovePlan(d, id))
    ensures var f := Exec(original, d, MovePlan(d, id));
            && f.active == d.active && f.operations == d.operations
            && (forall n | n in d.identities :: n in f.identities && f.identities[n] == d.identities[n])
            && (TransferWorks(d, id) <==> Moved(f, id))
  {
    hide Encode, Decode, NodeId, Hex64, Exec;
    ExecNone(original, d);
    if id in d.staged {
      ExecOne(original, d, MoveIdentity(id));
    }
  }

  lemma PublishResult(original: Binding, d: Disk, id: string, blocked: bool)
    requires Allowed(original, d, SaveRecord(id, blocked))
    ensures var plan := [SaveRecord(id, blocked), Publish(id)];
            var s := StateOf(d, id).(record := Some(Encode(Target(StateOf(d, id), blocked))), blocked := blocked);
            && AllAllowed(original, d, plan)
            && Exec(original, d, plan) == Save(d, id, s).(active := s.record)
  {
    hide Encode, Decode, NodeId, Hex64;
    ExecOne(original, d, SaveRecord(id, blocked));
    RecordAllowsPublish(original, d, id, blocked);
    var d1 := Do(original, d, SaveRecord(id, blocked));
    ExecOne(original, d1, Publish(id));
    ExecAppend(original, d, [SaveRecord(id, blocked)], [Publish(id)]);
    assert [SaveRecord(id, blocked)] + [Publish(id)] == [SaveRecord(id, blocked), Publish(id)];
  }

  /** What the transfer leaves: the new record active and saved, or the authority untouched. */
  lemma TransferResult(original: Binding, d: Disk, id: string, unresolved: bool)
    requires Has(d, id) && StateOf(d, id).phase == Committing && !Published(d, StateOf(d, id))
    requires Current(original, d) == Some(StateOf(d, id).source)
    ensures AllAllowed(original, d, TransferPlan(d, id, unresolved))
    ensures var s, f := StateOf(d, id), Exec(original, d, TransferPlan(d, id, unresolved));
            var blocked := s.source.binding.blocked || unresolved;
            && Has(f, id)
            && (forall n | n in d.identities :: n in f.identities && f.identities[n] == d.identities[n])
            && if TransferWorks(d, id) then
                 && f.active == Some(Encode(Target(s, blocked))) && Moved(f, id)
                 && StateOf(f, id) == s.(record := f.active, blocked := blocked)
               else
                 f.active == d.active && StateOf(f, id) == s
  {
    hide Encode, Decode, NodeId, Hex64, Exec;
    var s := StateOf(d, id);
    ExecNone(original, d);
    if !(id in d.staged && s.node in d.identities) {
      MoveResult(original, d, id);
      if TransferWorks(d, id) {
        var blocked := s.source.binding.blocked || unresolved;
        var moved := Exec(original, d, MovePlan(d, id));
        PublishResult(original, moved, id, blocked);
        ExecAppend(original, d, MovePlan(d, id), [SaveRecord(id, blocked), Publish(id)]);
      }
    }
  }

  lemma LastResult(original: Binding, d: Disk, id: string, session: bool)
    requires Has(d, id) && StateOf(d, id).phase == Committing && Published(d, StateOf(d, id))
    ensures AllAllowed(original, d, LastPlan(id, session))
    ensures Exec(original, d, LastPlan(id, session)) == SavePhase(d, id, if session then Verified else Committed)
  {
    hide Encode, Decode, NodeId, Hex64;
    ExecOne(original, d, SaveCommitted(id));
    if session {
      var d1 := Do(original, d, SaveCommitted(id));
      ExecOne(original, d1, SaveVerified(id));
      ExecAppend(original, d, [SaveCommitted(id)], [SaveVerified(id)]);
      assert [SaveCommitted(id)] + [SaveVerified(id)] == LastPlan(id, true);
    }
  }

  lemma EnrolSteps(original: Binding, d: Disk, id: string, identity: Identity, node: string)
    requires Has(d, id) && StateOf(d, id).phase in {Prepared, Enrolling}
             && Current(original, d) == Some(StateOf(d, id).source)
    ensures id !in d.staged ==> Do(original, d, StageIdentity(id, identity)) == d.(staged := d.staged[id := identity])
    ensures ReadyToEnrol(original, d, id) ==>
              && Do(original, d, SaveEnrolling(id)) == SavePhase(d, id, Enrolling)
              && (StateOf(d, id).phase == Enrolling && NodeId(node) && node != StateOf(d, id).source.binding.node ==>
                    Do(original, d, SaveEnrolled(id, node))
                        == Save(d, id, StateOf(d, id).(phase := Enrolled, node := node)))
  {
    hide Encode, Decode, NodeId, Hex64, Current;
  }

  lemma SameCurrent(original: Binding, d: Disk, d': Disk)
    requires d'.active == d.active
    ensures Current(original, d') == Current(original, d)
  {}

  lemma ExecSnoc(original: Binding, d: Disk, writes: seq<Write>, w: Write)
    ensures Exec(original, d, writes + [w]) == Do(original, Exec(original, d, writes), w)
  {
    hide Do, Allowed;
    ExecAppend(original, d, writes, [w]);
    ExecOne(original, Exec(original, d, writes), w);
  }

  /** The files of one host, as the tool changes them. `log` lists the atomic writes in
      the order they reach the disk: a killed command leaves a prefix of its log. */
  class Files {
    const original: Binding
    var active: Option<string>
    var operations: map<string, Operation>
    var staged: map<string, Identity>
    var identities: map<string, Identity>
    ghost var log: seq<Write>

    ghost function View(): Disk
      reads this
    {
      Disk(active, operations, staged, identities)
    }

    constructor (original: Binding)
      ensures this.original == original && View() == Disk(None, map[], map[], map[]) && log == []
    {
      this.original := original;
      active, operations, staged, identities := None, map[], map[], map[];
      log := [];
    }

    method SaveState(id: string, s: State, ghost w: Write)
      requires Do(original, View(), w) == Save(View(), id, s)
      modifies this
      ensures View() == Do(original, old(View()), w) == Save(old(View()), id, s) && log == old(log) + [w]
    {
      operations := operations[id := Saved(s)];
      log := log + [w];
    }

    method RenameIdentity(id: string, node: string)
      requires Has(View(), id) && StateOf(View(), id).node == node && Allowed(original, View(), MoveIdentity(id))
      modifies this
      ensures View() == Do(original, old(View()), MoveIdentity(id)) && log == old(log) + [MoveIdentity(id)]
    {
      identities, staged := identities[node := staged[id]], staged - {id};
      log := log + [MoveIdentity(id)];
    }

    method ReplaceActive(id: string, record: string)
      requires Has(View(), id) && StateOf(View(), id).record == Some(record) && Allowed(original, View(), Publish(id))
      modifies this
      ensures View() == Do(original, old(View()), Publish(id)) && log == old(log) + [Publish(id)]
    {
      active := Some(record);
      log := log + [Publish(id)];
    }

    /** Save the record in `state.json`, then make it the active one. */
    method PublishRecord(id: string, blocked: bool)
      requires Has(View(), id) && Allowed(original, View(), SaveRecord(id, blocked))
      modifies this
      ensures var plan := [SaveRecord(id, blocked), Publish(id)];
              View() == Exec(original, old(View()), plan) && log == old(log) + plan
    {
      hide Encode, Decode, NodeId, Hex64;
      ghost var d0 := View();
      var s := operations[id].state;
      var record := Encode(Target(s, blocked));
      SaveState(id, s.(record := Some(record), blocked := blocked), SaveRecord(id, blocked));
      ExecOne(original, d0, SaveRecord(id, blocked));
      RecordAllowsPublish(original, d0, id, blocked);
      ReplaceActive(id, record);
      ExecSnoc(original, d0, [SaveRecord(id, blocked)], Publish(id));
    }

    /** Move the identity, save the record, then make it the active one. */
    method Transfer(id: string, unresolved: bool) returns (done: bool)
      requires Has(View(), id) && StateOf(View(), id).phase == Committing && !Published(View(), StateOf(View(), id))
      requires Current(original, View()) == Some(StateOf(View(), id).source)
      modifies this
      ensures var plan := TransferPlan(old(View()), id, unresolved);
              View() == Exec(original, old(View()), plan) && log == old(log) + plan
      ensures done <==> TransferWorks(old(View()), id)
    {
      hide Encode, Decode, NodeId, Hex64, Exec;
      ghost var d0, log0 := View(), log;
      ExecNone(original, d0);
      var s := operations[id].state;
      if id in staged {
        if s.node in identities {
          return false;
        }
        RenameIdentity(id, s.node);
        ExecOne(original, d0, MoveIdentity(id));
      }
      ghost var moved := MovePlan(d0, id);
      assert View() == Exec(original, d0, moved) && log == log0 + moved;
      if s.node !in identities || identities[s.node] != Complete(s.source.binding.endpoint) {
        return false;
      }
      var blocked := s.source.binding.blocked || unresolved;
      PublishRecord(id, blocked);
      ExecAppend(original, d0, moved, [SaveRecord(id, blocked), Publish(id)]);
      done := true;
    }

    method Settle(id: string, session: bool)
      requires Has(View(), id) && StateOf(View(), id).phase == Committing && Published(View(), StateOf(View(), id))
      modifies this
      ensures var plan := LastPlan(id, session); View() == Exec(original, old(View()), plan) && log == old(log) + plan
    {
      hide Encode, Decode, NodeId, Hex64;
      ghost var d0 := View();
      var s := operations[id].state;
      SaveState(id, s.(phase := Committed), SaveCommitted(id));
      ExecOne(original, d0, SaveCommitted(id));
      if session {
        SaveState(id, s.(phase := Verified), SaveVerified(id));
        ExecSnoc(original, d0, [SaveCommitted(id)], SaveVerified(id));
      }
    }

    /** The new authority is made active unless it already is. */
    method PublishAuthority(id: string, unresolved: bool, session: bool)
      requires Has(View(), id) && StateOf(View(), id).phase in {Enrolled, Committing}
      modifies this
      ensures var plan := PublishPlan(original, old(View()), id, unresolved, session);
              View() == Exec(original, old(View()), plan) && log == old(log) + plan
    {
      hide Current, Exec, TransferPlan, TransferWorks, LastPlan, Do, Allowed;
      ghost var d0 := View();
      ExecNone(original, d0);
      var s := operations[id].state;
      var current := Current(original, Disk(active, operations, staged, identities));
      var already := s.record.Some? && active == s.record;
      if current.None? || !(already || current == Some(s.source)) {
        return;
      }
      CommittingStep(original, d0, id, unresolved);
      SaveState(id, s.(phase := Committing), SaveCommitting(id));
      ExecOne(original, d0, SaveCommitting(id));
      if already {
        Settle(id, session);
        ExecAppend(original, d0, [SaveCommitting(id)], LastPlan(id, session));
      } else {
        TransferAndSettle(id, unresolved, session);
        ExecAppend(original, d0, [SaveCommitting(id)], RestPlan(d0, id, unresolved, session));
      }
    }

    method TransferAndSettle(id: string, unresolved: bool, session: bool)
      requires Has(View(), id) && StateOf(View(), id).phase == Committing && !Published(View(), StateOf(View(), id))
      requires Current(original, View()) == Some(StateOf(View(), id).source)
      modifies this
      ensures var plan := RestPlan(old(View()), id, unresolved, session);
              View() == Exec(original, old(View()), plan) && log == old(log) + plan
    {
      hide Current, Exec, TransferPlan, TransferWorks, LastPlan, Do, Allowed;
      ghost var d0 := View();
      ghost var transfer := TransferPlan(d0, id, unresolved);
      TransferResult(original, d0, id, unresolved);
      var done := Transfer(id, unresolved);
      if done {
        ExecAppend(original, d0, transfer, LastPlan(id, session));
        Settle(id, session);
      } else {
        assert transfer + [] == transfer;
      }
    }

    /** `commit`: publish the new authority if it is not yet active, then wait for a session. */
    method Commit(id: string, unresolved: bool, session: bool)
      modifies this
      ensures var plan := CommitPlan(original, old(View()), id, unresolved, session);
              View() == Exec(original, old(View()), plan) && log == old(log) + plan
    {
      hide Encode, Decode, NodeId, Hex64, Exec, PublishPlan;
      ghost var d0 := View();
      ExecNone(original, d0);
      if id !in operations || operations[id].Unsaved? {
        return;
      }
      var s := operations[id].state;
      if s.phase == Committed {
        if s.record.Some? && active == s.record && session {
          SaveState(id, s.(phase := Verified), SaveVerified(id));
          ExecOne(original, d0, SaveVerified(id));
        }
      } else if s.phase == Enrolled || s.phase == Committing {
        PublishAuthority(id, unresolved, session);
      }
    }

    /** `enroll`: stage the identity, note the attempt, then save the node it was given. */
    method Enrol(id: string, agent: Enrolment)
      modifies this
      ensures var plan := EnrolPlan(original, old(View()), id, agent);
              View() == Exec(original, old(View()), plan) && log == old(log) + plan
    {
      hide Current, NodeId, Exec, Do, Allowed;
      ghost var d0 := View();
      ExecNone(original, d0);
      if id !in operations || operations[id].Unsaved? {
        return;
      }
      var s := operations[id].state;
      if s.phase !in {Prepared, Enrolling}
          || Current(original, Disk(active, operations, staged, identities)) != Some(s.source) {
        return;
      }
      ghost var done: seq<Write> := [];
      if id !in staged {
        if agent.staged.None? {
          return;
        }
        EnrolSteps(original, d0, id, agent.staged.value, "");
        staged := staged[id := agent.staged.value];
        done := [StageIdentity(id, agent.staged.value)];
        log := log + done;
        ExecOne(original, d0, done[0]);
      }
      if staged[id] != Complete(s.source.binding.endpoint) {
        return;
      }
      ghost var d1 := View();
      SameCurrent(original, d0, d1);
      AskForNode(id, agent.node);
      ExecAppend(original, d0, done, NodePlan(d1, id, agent.node));
    }

    method AskForNode(id: string, node: Option<string>)
      requires Has(View(), id) && StateOf(View(), id).phase in {Prepared, Enrolling}
               && ReadyToEnrol(original, View(), id)
      modifies this
      ensures var plan := NodePlan(old(View()), id, node);
              View() == Exec(original, old(View()), plan) && log == old(log) + plan
    {
      hide Current, NodeId, Exec, Do, Allowed;
      ghost var d0 := View();
      var s := operations[id].state;
      EnrolSteps(original, d0, id, Incomplete, "");
      SaveState(id, s.(phase := Enrolling), SaveEnrolling(id));
      ExecOne(original, d0, SaveEnrolling(id));
      if node.Some? && NodeId(node.value) && node.value != s.source.binding.node {
        SameCurrent(original, d0, View());
        EnrolSteps(original, View(), id, Incomplete, node.value);
        SaveState(id, s.(phase := Enrolled, node := node.value), SaveEnrolled(id, node.value));
        ExecSnoc(original, d0, [SaveEnrolling(id)], SaveEnrolled(id, node.value));
        assert [SaveEnrolling(id)] + [SaveEnrolled(id, node.value)] == NodePlan(d0, id, node);
      }
    }

    /** The part of `prepare` that creates the operation. */
    method Prepare(id: string, controller: string, key: string, preflight: bool) returns (created: bool)
      modifies this
      ensures var plan := PreparePlan(original, old(View()), id, controller, key, preflight);
              View() == Exec(original, old(View()), plan) && log == old(log) + plan && (created <==> plan != [])
    {
      hide Encode, Decode, NodeId, Hex64, Exec;
      ghost var d0 := View();
      ExecNone(original, d0);
      var disk := Disk(active, operations, staged, identities);
      var current := Current(original, disk);
      if !preflight || !AllFinished(disk) || current.None? || id in operations || id in staged {
        return false;
      }
      var source := current.value;
      if !Hex64(controller) || controller == source.binding.controller || !Hex64(key) || key == source.binding.key {
        return false;
      }
      operations := operations[id := Unsaved];
      log := log + [MakeDirectory(id)];
      ExecOne(original, d0, MakeDirectory(id));
      SaveState(id, State(Prepared, source, controller, key, "", None, false), SavePrepared(id, controller, key));
      ExecSnoc(original, d0, [MakeDirectory(id)], SavePrepared(id, controller, key));
      assert [MakeDirectory(id)] + [SavePrepared(id, controller, key)]
             == [MakeDirectory(id), SavePrepared(id, controller, key)];
      created := true;
    }
  }
}
