/** What a controller transfer promises over every history of commands, each killed at
    any point and run again. */
module RebindResults {
  import opened Text
  import opened BindingRecord
  import opened Rebind
  import opened RebindInvariant

  // ---------- histories ----------

  datatype Command =
    | Prepare(id: string, controller: string, key: string, preflight: bool)
    | Enrol(id: string, agent: Enrolment)
    | Commit(id: string, unresolved: bool, session: bool)

  /** A command, killed after it has made `kill` writes. */
  datatype Attempt = Attempt(command: Command, kill: nat)

  function Plan(original: Binding, d: Disk, c: Command): seq<Write> {
    match c
    case Prepare(id, controller, key, preflight) => PreparePlan(original, d, id, controller, key, preflight)
    case Enrol(id, agent) => EnrolPlan(original, d, id, agent)
    case Commit(id, unresolved, session) => CommitPlan(original, d, id, unresolved, session)
  }

  function Play(original: Binding, h: Host, writes: seq<Write>): Host
    decreases |writes|
  {
    if writes == [] then h
    else if !Allowed(original, h.disk, writes[0]) then Play(original, h, writes[1..])
    else Play(original, Step(original, h, writes[0]), writes[1..])
  }

  function Run(original: Binding, attempts: seq<Attempt>): Host {
    if attempts == [] then Begin(original)
    else
      var h, last := Run(original, attempts[..|attempts| - 1]), attempts[|attempts| - 1];
      Play(original, h, Until(Plan(original, h.disk, last.command), last.kill))
  }

  lemma {:induction false} PlayInv(original: Binding, h: Host, writes: seq<Write>)
    requires Inv(original, h)
    ensures Inv(original, Play(original, h, writes))
    ensures Play(original, h, writes).disk == Exec(original, h.disk, writes)
    ensures h.history <= Play(original, h, writes).history
    decreases |writes|
  {
    hide Inv, Allowed, Do, Current;
    if writes != [] {
      if Allowed(original, h.disk, writes[0]) {
        StepInv(original, h, writes[0]);
        PlayInv(original, Step(original, h, writes[0]), writes[1..]);
      } else {
        NotAllowed(original, h.disk, writes[0]);
        PlayInv(original, h, writes[1..]);
      }
    }
  }

  lemma NotAllowed(original: Binding, d: Disk, w: Write)
    requires !Allowed(original, d, w)
    ensures Do(original, d, w) == d
  {
    hide Allowed;
  }

  lemma {:induction false} RunInv(original: Binding, attempts: seq<Attempt>)
    requires Valid(original)
    ensures Inv(original, Run(original, attempts))
  {
    hide Inv, Valid, Plan;
    if attempts == [] {
      BeginInv(original);
    } else {
      var h, last := Run(original, attempts[..|attempts| - 1]), attempts[|attempts| - 1];
      RunInv(original, attempts[..|attempts| - 1]);
      PlayInv(original, h, Until(Plan(original, h.disk, last.command), last.kill));
    }
  }

  // ---------- crash safety ----------

  /** However commands were killed: once a node is assigned, the active authority is the
      untouched source or exactly the record saved in `state.json`, whose flag is the saved
      `mutations_blocked`; and the identity is complete, either staged or moved, in exactly
      one of the two places unless an earlier identity already stands in the second. */
  lemma CrashSafety(original: Binding, attempts: seq<Attempt>, id: string)
    requires Valid(original) && Has(Run(original, attempts).disk, id)
    requires StateOf(Run(original, attempts).disk, id).phase in {Enrolled, Committing, Committed}
    ensures var d := Run(original, attempts).disk;
            var s := StateOf(d, id);
            && (Current(original, d) == Some(s.source) || Published(d, s))
            && (s.record.Some? ==>
                  && s.record == Some(Encode(Target(s, s.blocked)))
                  && Decode(s.record.value) == Some(Target(s, s.blocked)))
            && (Moved(d, id) || Waiting(d, id)) && (s.record.Some? ==> Moved(d, id))
            && (PlaceTaken(d, id) || (id in d.staged <==> s.node !in d.identities))
  {
    hide Encode, Decode, NodeId, Hex64, Current, Plan;
    RunInv(original, attempts);
    var d := Run(original, attempts).disk;
    assert StateSound(StateOf(d, id)) && InPlace(original, d, id);
    var s := StateOf(d, id);
    if s.record.Some? {
      TargetValid(s, s.blocked);
      DecodeEncode(Target(s, s.blocked));
    }
  }

  /** At most one operation is unfinished, the directory of a killed `prepare` included. */
  lemma OneUnfinished(original: Binding, attempts: seq<Attempt>, i: string, j: string)
    requires Valid(original)
    requires var d := Run(original, attempts).disk;
             i in d.operations && j in d.operations && !Finished(d.operations[i]) && !Finished(d.operations[j])
    ensures i == j
  {
    hide Plan, OperationsSound, Chained, Current;
    RunInv(original, attempts);
  }

  /** The saved flag is never weaker than the block on the source. */
  lemma BlockIsKept(original: Binding, attempts: seq<Attempt>, id: string)
    requires Valid(original) && Has(Run(original, attempts).disk, id)
    ensures var s := StateOf(Run(original, attempts).disk, id);
            s.record.Some? ==>
              Decode(s.record.value) == Some(Target(s, s.blocked)) && (s.source.binding.blocked ==> s.blocked)
  {
    hide Encode, Decode, NodeId, Hex64, Current, Plan, InPlace;
    RunInv(original, attempts);
    var d := Run(original, attempts).disk;
    assert StateSound(StateOf(d, id));
    var s := StateOf(d, id);
    if s.record.Some? {
      assert s.phase == Committing || s.phase == Committed || s.phase == Verified;
      TargetValid(s, s.blocked);
      DecodeEncode(Target(s, s.blocked));
    }
  }

  // ---------- the chain of authorities ----------

  lemma {:induction false} ChainOrder(history: seq<Authority>, i: nat, j: nat)
    requires Chained(history) && i <= j < |history|
    ensures history[j].binding.endpoint == history[i].binding.endpoint
    ensures history[i].binding.blocked ==> history[j].binding.blocked
    decreases j - i
  {
    if i < j {
      ChainOrder(history, i, j - 1);
      assert Succeeds(history[j - 1], history[j]);
    }
  }

  /** Over any chain of transfers the endpoint never changes, a block is never lifted,
      each transfer changes controller, key and node, and the last authority in the chain
      is the active one. */
  lemma AuthorityChain(original: Binding, attempts: seq<Attempt>, i: nat, j: nat)
    requires Valid(original) && i < j < |Run(original, attempts).history|
    ensures var h := Run(original, attempts);
            && h.history[i].binding.endpoint == h.history[j].binding.endpoint
            && (h.history[i].binding.blocked ==> h.history[j].binding.blocked)
            && Succeeds(h.history[j - 1], h.history[j])
            && Current(original, h.disk) == Some(h.history[|h.history| - 1])
  {
    hide Plan, OperationsSound, Current, AtMostOneUnfinished;
    RunInv(original, attempts);
    ChainOrder(Run(original, attempts).history, i, j);
  }

  /** Each published binding starts from the binding then active. */
  lemma PublishedFromActive(original: Binding, attempts: seq<Attempt>, id: string)
    requires Valid(original)
    requires Allowed(original, Run(original, attempts).disk, Publish(id))
    ensures var h := Run(original, attempts);
            var s := StateOf(h.disk, id);
            && h.history != [] && s.source == h.history[|h.history| - 1]
            && Step(original, h, Publish(id)).history == h.history + [Authority(Target(s, s.blocked), false)]
  {
    hide Plan, OperationsSound, AtMostOneUnfinished, Chained, Encode, Decode, Step;
    RunInv(original, attempts);
    PublishInv(original, Run(original, attempts), Publish(id));
  }

  // ---------- running a command again ----------

  /** Another identity is already in the place the staged one has to go to. */
  predicate PlaceTaken(d: Disk, id: string)
    requires Has(d, id)
  {
    id in d.staged && StateOf(d, id).node in d.identities
  }

  lemma WorksUnlessTaken(original: Binding, h: Host, id: string)
    requires Inv(original, h) && Has(h.disk, id) && StateOf(h.disk, id).phase in {Enrolled, Committing}
    requires !Published(h.disk, StateOf(h.disk, id))
    ensures Current(original, h.disk) == Some(StateOf(h.disk, id).source)
    ensures TransferWorks(h.disk, id) <==> !PlaceTaken(h.disk, id)
  {
    hide Current, StateSound;
    assert InPlace(original, h.disk, id);
  }

  /** What `commit` leads to from any point it may have been killed at: the target saved
      in `state.json`, active, with the identity in place. It stops short exactly when
      the place of the identity is taken, and then the authority is untouched. */
  ghost predicate CommitOutcome(d: Disk, id: string, unresolved: bool, session: bool, f: Disk)
    requires Has(d, id)
  {
    var s := StateOf(d, id);
    var blocked := if Published(d, s) then s.blocked else s.source.binding.blocked || unresolved;
    && Has(f, id)
    && (forall n | n in d.identities :: n in f.identities && f.identities[n] == d.identities[n])
    && if PlaceTaken(d, id) then StateOf(f, id).phase == Committing && f.active == d.active
       else
         && f.active == Some(Encode(Target(s, blocked)))
         && StateOf(f, id) == s.(phase := if session then Verified
            else Committed, record := f.active, blocked := blocked)
         && Moved(f, id)
  }

  lemma PublishedCommit(original: Binding, h: Host, id: string, unresolved: bool, session: bool)
    requires Inv(original, h) && Has(h.disk, id) && StateOf(h.disk, id).phase == Committing
             && Published(h.disk, StateOf(h.disk, id))
    ensures var plan := CommitPlan(original, h.disk, id, unresolved, session);
            AllAllowed(original, h.disk, plan)
                && CommitOutcome(h.disk, id, unresolved, session, Exec(original, h.disk, plan))
  {
    hide Current, Do, Exec, Encode, NodeId, Hex64, Valid, Allowed;
    var d := h.disk;
    assert StateSound(StateOf(d, id)) && InPlace(original, d, id);
    CommittingStep(original, d, id, unresolved);
    ExecOne(original, d, SaveCommitting(id));
    var d1 := Do(original, d, SaveCommitting(id));
    LastResult(original, d1, id, session);
    ExecAppend(original, d, [SaveCommitting(id)], LastPlan(id, session));
  }

  lemma TransferCommit(original: Binding, h: Host, id: string, unresolved: bool, session: bool)
    requires Inv(original, h) && Has(h.disk, id) && StateOf(h.disk, id).phase in {Enrolled, Committing}
    requires !Published(h.disk, StateOf(h.disk, id))
    ensures var plan := CommitPlan(original, h.disk, id, unresolved, session);
            AllAllowed(original, h.disk, plan)
                && CommitOutcome(h.disk, id, unresolved, session, Exec(original, h.disk, plan))
  {
    hide Current, Do, Exec, Encode, Allowed, TransferPlan, TransferWorks, LastPlan, Inv;
    var d := h.disk;
    WorksUnlessTaken(original, h, id);
    CommittingStep(original, d, id, unresolved);
    ExecOne(original, d, SaveCommitting(id));
    var d1 := Do(original, d, SaveCommitting(id));
    RestResult(original, d1, id, unresolved, session);
    ExecAppend(original, d, [SaveCommitting(id)], RestPlan(d, id, unresolved, session));
  }

  lemma RestResult(original: Binding, d: Disk, id: string, unresolved: bool, session: bool)
    requires Has(d, id) && StateOf(d, id).phase == Committing && !Published(d, StateOf(d, id))
    requires Current(original, d) == Some(StateOf(d, id).source)
    requires TransferWorks(d, id) <==> !PlaceTaken(d, id)
    ensures AllAllowed(original, d, RestPlan(d, id, unresolved, session))
    ensures CommitOutcome(d, id, unresolved, session, Exec(original, d, RestPlan(d, id, unresolved, session)))
  {
    hide Current, Do, Exec, Encode, Allowed, TransferPlan, TransferWorks, LastPlan;
    var transfer := TransferPlan(d, id, unresolved);
    TransferResult(original, d, id, unresolved);
    if TransferWorks(d, id) {
      LastResult(original, Exec(original, d, transfer), id, session);
      ExecAppend(original, d, transfer, LastPlan(id, session));
    } else {
      assert transfer + [] == transfer;
    }
  }

  /** `commit`, run again from any state a killed command can leave. */
  lemma CommitResumes(original: Binding, attempts: seq<Attempt>, id: string, unresolved: bool, session: bool)
    requires Valid(original) && Has(Run(original, attempts).disk, id)
    requires StateOf(Run(original, attempts).disk, id).phase in {Enrolled, Committing, Committed}
    ensures var d := Run(original, attempts).disk;
            var plan := CommitPlan(original, d, id, unresolved, session);
            AllAllowed(original, d, plan) && CommitOutcome(d, id, unresolved, session, Exec(original, d, plan))
  {
    hide Plan, Inv, Exec, CommitOutcome, CommitPlan;
    RunInv(original, attempts);
    var h := Run(original, attempts);
    var s := StateOf(h.disk, id);
    if s.phase == Enrolled {
      PublishedIsCommitting(original, h, id);
    }
    if s.phase == Committed {
      VerifyCommit(original, h, id, unresolved, session);
    } else if Published(h.disk, s) {
      PublishedCommit(original, h, id, unresolved, session);
    } else {
      TransferCommit(original, h, id, unresolved, session);
    }
  }

  lemma PublishedIsCommitting(original: Binding, h: Host, id: string)
    requires Inv(original, h) && Has(h.disk, id) && StateOf(h.disk, id).phase == Enrolled
    ensures !Published(h.disk, StateOf(h.disk, id))
  {
    assert StateSound(StateOf(h.disk, id));
  }

  lemma VerifyCommit(original: Binding, h: Host, id: string, unresolved: bool, session: bool)
    requires Inv(original, h) && Has(h.disk, id) && StateOf(h.disk, id).phase == Committed
    ensures var plan := CommitPlan(original, h.disk, id, unresolved, session);
            AllAllowed(original, h.disk, plan)
                && CommitOutcome(h.disk, id, unresolved, session, Exec(original, h.disk, plan))
  {
    hide Current, Exec, Encode, NodeId, Hex64, Valid;
    var d := h.disk;
    assert StateSound(StateOf(d, id)) && InPlace(original, d, id);
    ExecNone(original, d);
    if session {
      ExecOne(original, d, SaveVerified(id));
    }
  }

  /** Past enrolment the node, controller, key and source of an operation never change, and
      no identity is ever changed or removed once it is in its place. */
  ghost predicate TargetFixed(d: Disk, d': Disk, id: string)
    requires Has(d, id)
  {
    var s := StateOf(d, id);
    && Has(d', id)
    && (s.phase in {Enrolled, Committing, Committed, Verified} ==>
          var s' := StateOf(d', id);
          s'.node == s.node && s'.controller == s.controller && s'.key == s.key && s'.source == s.source &&
          s'.phase in {Enrolled, Committing, Committed, Verified})
  }

  lemma StepFixes(original: Binding, d: Disk, w: Write, id: string)
    requires Has(d, id)
    ensures TargetFixed(d, Do(original, d, w), id)
  {
    hide Encode, NodeId, Hex64, Current;
  }

  lemma StepKeepsIdentities(original: Binding, d: Disk, w: Write, n: string)
    requires n in d.identities
    ensures var d' := Do(original, d, w); n in d'.identities && d'.identities[n] == d.identities[n]
  {
    hide Encode, NodeId, Hex64, Current;
  }

  lemma {:induction false} ExecFixes(original: Binding, d: Disk, writes: seq<Write>, id: string)
    requires Has(d, id)
    ensures TargetFixed(d, Exec(original, d, writes), id)
    decreases |writes|
  {
    if writes != [] {
      hide Do;
      StepFixes(original, d, writes[0], id);
      ExecFixes(original, Do(original, d, writes[0]), writes[1..], id);
    }
  }

  lemma {:induction false} ExecKeepsIdentities(original: Binding, d: Disk, writes: seq<Write>, n: string)
    requires n in d.identities
    ensures var d' := Exec(original, d, writes); n in d'.identities && d'.identities[n] == d.identities[n]
    decreases |writes|
  {
    if writes != [] {
      hide Do;
      StepKeepsIdentities(original, d, writes[0], n);
      ExecKeepsIdentities(original, Do(original, d, writes[0]), writes[1..], n);
    }
  }

  /** Whatever runs afterwards, and however it is killed, an enrolled operation can only
      ever reach the one target it was enrolled for, and identities stay untouched. */
  lemma {:induction false} SameTarget(original: Binding, attempts: seq<Attempt>, k: nat, id: string, n: string)
    requires Valid(original) && k <= |attempts| && Has(Run(original, attempts[..k]).disk, id)
    ensures TargetFixed(Run(original, attempts[..k]).disk, Run(original, attempts).disk, id)
    ensures var d, d' := Run(original, attempts[..k]).disk, Run(original, attempts).disk;
            n in d.identities ==> n in d'.identities && d'.identities[n] == d.identities[n]
    decreases |attempts|
  {
    if k == |attempts| {
      assert attempts[..k] == attempts;
    } else {
      hide Plan, Valid, Inv, Exec;
      var before, last := attempts[..|attempts| - 1], attempts[|attempts| - 1];
      assert before[..k] == attempts[..k];
      SameTarget(original, before, k, id, n);
      RunInv(original, before);
      var h := Run(original, before);
      var writes := Until(Plan(original, h.disk, last.command), last.kill);
      PlayInv(original, h, writes);
      ExecFixes(original, h.disk, writes, id);
      if n in h.disk.identities {
        ExecKeepsIdentities(original, h.disk, writes, n);
      }
    }
  }
}
