/** What each command of the tool does with the files it finds, for all files: when it
    writes nothing, and otherwise exactly what it leaves. */
module RebindAnswers {
  import opened Text
  import opened BindingRecord
  import opened Rebind
  import opened RebindProgress

  /** Every test of `prepare`: the preflight, no operation that is not verified, a readable
      authority, and pins that are well formed and new. */
  predicate CanPrepare(original: Binding, d: Disk, id: string, controller: string, key: string, preflight: bool) {
    && preflight
    && (forall i | i in d.operations :: d.operations[i].Saved? && d.operations[i].state.phase == Verified)
    && id !in d.operations && id !in d.staged
    && (d.active.Some? ==> Decode(d.active.value).Some?)
    && var source := if d.active.Some? then Decode(d.active.value).value else original;
       Hex64(controller) && Hex64(key) && controller != source.controller && key != source.key
  }

  function Source(original: Binding, d: Disk): Authority
    requires d.active.Some? ==> Decode(d.active.value).Some?
  {
    if d.active.Some? then Authority(Decode(d.active.value).value, false) else Authority(original, true)
  }

  /** `prepare` writes nothing unless all its tests pass; then there is one operation more,
      with the present authority as its source. */
  lemma PrepareExactly(original: Binding, d: Disk, id: string, controller: string, key: string, preflight: bool)
    ensures Exec(original, d, PreparePlan(original, d, id, controller, key, preflight))
            == if CanPrepare(original, d, id, controller, key, preflight) then
                 Save(d, id, State(Prepared, Source(original, d), controller, key, "", None, false))
               else d
  {
    hide Exec, Hex64, Decode, Encode, NodeId;
    ExecNone(original, d);
    if CanPrepare(original, d, id, controller, key, preflight) {
      PrepareWorks(original, d, id, controller, key);
    }
  }

  predicate CanEnrol(original: Binding, d: Disk, id: string) {
    && id in d.operations && d.operations[id].Saved? && d.operations[id].state.phase in {Prepared, Enrolling}
    && Current(original, d) == Some(d.operations[id].state.source)
  }

  function Staged(d: Disk, id: string, agent: Enrolment): Disk {
    if id in d.staged || agent.staged.None? then d else d.(staged := d.staged[id := agent.staged.value])
  }

  /** `enroll` stages an identity if there is none, and goes on only with the one of the
      source; it notes the attempt, and records a node only if it is another than the
      source's. */
  lemma EnrolExactly(original: Binding, d: Disk, id: string, agent: Enrolment)
    ensures var f := Exec(original, d, EnrolPlan(original, d, id, agent));
            if !CanEnrol(original, d, id) then f == d
            else
              var s, d1 := d.operations[id].state, Staged(d, id, agent);
              if id !in d1.staged || d1.staged[id] != Complete(s.source.binding.endpoint) then f == d1
              else if agent.node.Some? && NodeId(agent.node.value) && agent.node.value != s.source.binding.node then
                f == Save(d1, id, s.(phase := Enrolled, node := agent.node.value))
              else f == Save(d1, id, s.(phase := Enrolling))
  {
    hide Exec, Do, Allowed, Hex64, Decode, Encode, NodeId, Current;
    ExecNone(original, d);
    if CanEnrol(original, d, id) {
      var s, d1 := d.operations[id].state, Staged(d, id, agent);
      var stage := if id !in d.staged && agent.staged.Some? then [StageIdentity(id, agent.staged.value)] else [];
      if stage != [] {
        EnrolSteps(original, d, id, agent.staged.value, "");
        ExecOne(original, d, stage[0]);
      }
      assert Exec(original, d, stage) == d1;
      SameCurrent(original, d, d1);
      if id in d1.staged && d1.staged[id] == Complete(s.source.binding.endpoint) {
        NodeExactly(original, d1, id, agent.node);
        ExecAppend(original, d, stage, NodePlan(d, id, agent.node));
        assert NodePlan(d1, id, agent.node) == NodePlan(d, id, agent.node);
      }
    }
  }

  lemma NodeExactly(original: Binding, d: Disk, id: string, node: Option<string>)
    requires CanEnrol(original, d, id) && ReadyToEnrol(original, d, id)
    ensures var s := d.operations[id].state;
            Exec(original, d, NodePlan(d, id, node))
            == if node.Some? && NodeId(node.value) && node.value != s.source.binding.node
               then Save(d, id, s.(phase := Enrolled, node := node.value))
               else Save(d, id, s.(phase := Enrolling))
  {
    hide Exec, Do, Allowed, Hex64, Decode, Encode, NodeId, Current;
    var s := d.operations[id].state;
    var d1 := SavePhase(d, id, Enrolling);
    EnrolSteps(original, d, id, Incomplete, "");
    ExecOne(original, d, SaveEnrolling(id));
    if node.Some? && NodeId(node.value) && node.value != s.source.binding.node {
      SameCurrent(original, d, d1);
      EnrolSteps(original, d1, id, Incomplete, node.value);
      ExecSnoc(original, d, [SaveEnrolling(id)], SaveEnrolled(id, node.value));
      assert [SaveEnrolling(id)] + [SaveEnrolled(id, node.value)] == NodePlan(d, id, node);
      assert Save(d1, id, StateOf(d1, id).(phase := Enrolled, node := node.value))
             == Save(d, id, s.(phase := Enrolled, node := node.value));
    }
  }

  /** `commit` writes nothing before enrolment and after verification, nor when the active
      record is not its own and the authority is no longer the source either. */
  lemma CommitElsewhere(original: Binding, d: Disk, id: string, unresolved: bool, session: bool)
    requires id in d.operations && d.operations[id].Saved? ==>
               var s := d.operations[id].state;
               || s.phase in {Prepared, Enrolling, Verified}
               || ((s.record.None? || s.record != d.active)
                   && (s.phase == Committed || Current(original, d) != Some(s.source)))
    ensures Exec(original, d, CommitPlan(original, d, id, unresolved, session)) == d
  {
    hide Exec, Do, Allowed, Hex64, Encode, NodeId;
    ExecNone(original, d);
  }
}
