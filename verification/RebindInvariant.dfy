/** What every atomic write of a controller transfer keeps. */
module RebindInvariant {
  import opened Text
  import opened BindingRecord
  import opened Rebind

  /** The files, and every authority that was ever active, oldest first. */
  datatype Host = Host(disk: Disk, history: seq<Authority>)

  function Begin(original: Binding): Host {
    Host(Disk(None, map[], map[], map[]), [Authority(original, true)])
  }

  function Step(original: Binding, h: Host, w: Write): Host
    requires Allowed(original, h.disk, w)
  {
    var d := Do(original, h.disk, w);
    Host(d, if w.Publish? && Current(original, d).Some? then h.history + [Current(original, d).value] else h.history)
  }

  /** A transfer keeps the endpoint, changes controller, key and node, and does not lift a block. */
  predicate Succeeds(a: Authority, b: Authority) {
    && b.binding.endpoint == a.binding.endpoint
    && b.binding.controller != a.binding.controller && b.binding.key != a.binding.key
       && b.binding.node != a.binding.node
    && (a.binding.blocked ==> b.binding.blocked) && !b.original
  }

  predicate StateSound(s: State) {
    && Valid(s.source.binding) && Hex64(s.controller) && Hex64(s.key)
    && s.controller != s.source.binding.controller && s.key != s.source.binding.key
    && (s.phase in {Enrolled, Committing, Committed, Verified} ==> NodeId(s.node) && s.node != s.source.binding.node)
    && (s.record.Some? ==> s.record.value == Encode(Target(s, s.blocked)) && (s.source.binding.blocked ==> s.blocked))
    && (s.phase in {Prepared, Enrolling, Enrolled} ==> s.record.None?)
    && (s.phase in {Committed, Verified} ==> s.record.Some?)
  }

  predicate Waiting(d: Disk, id: string)
    requires Has(d, id)
  {
    id in d.staged && d.staged[id] == Complete(StateOf(d, id).source.binding.endpoint)
  }

  /** Where the authority and the identity are, phase by phase. */
  predicate InPlace(original: Binding, d: Disk, id: string)
    requires Has(d, id)
  {
    var s := StateOf(d, id);
    var untouched := Current(original, d) == Some(s.source);
    match s.phase
    case Prepared => untouched
    case Enrolling => untouched && Waiting(d, id)
    case Enrolled => untouched && Waiting(d, id)
    case Committing => (Published(d, s) && Moved(d, id))
        || (untouched && (Moved(d, id) || (Waiting(d, id) && s.record.None?)))
    case Committed => Published(d, s) && Moved(d, id)
    case Verified => Moved(d, id)
  }

  ghost predicate OperationsSound(original: Binding, d: Disk) {
    forall id | Has(d, id) :: StateSound(StateOf(d, id)) && InPlace(original, d, id)
  }

  ghost predicate AtMostOneUnfinished(d: Disk) {
    forall i, j | i in d.operations && j in d.operations && !Finished(d.operations[i]) && !Finished(d.operations[j])
        :: i == j
  }

  ghost predicate Chained(history: seq<Authority>) {
    forall i | 0 < i < |history| :: Succeeds(history[i - 1], history[i])
  }

  ghost predicate Inv(original: Binding, h: Host) {
    && Valid(original) && h.history != []
    && Current(original, h.disk) == Some(h.history[|h.history| - 1])
    && Valid(h.history[|h.history| - 1].binding)
    && Chained(h.history)
    && AtMostOneUnfinished(h.disk)
    && OperationsSound(original, h.disk)
  }

  lemma BeginInv(original: Binding)
    requires Valid(original)
    ensures Inv(original, Begin(original))
  {}

  /** While one operation is unfinished every other one is finished and stays in place. */
  lemma OthersStay(original: Binding, d: Disk, d': Disk, id: string)
    requires OperationsSound(original, d)
    requires forall j | j in d.operations && j != id :: Finished(d.operations[j])
    requires d'.operations.Keys <= d.operations.Keys + {id}
    requires forall j | j in d'.operations && j != id :: j in d.operations && d'.operations[j] == d.operations[j]
    requires forall j | j in d'.staged && j != id :: j in d.staged
    requires forall n | n in d.identities :: n in d'.identities && d'.identities[n] == d.identities[n]
    requires Has(d', id) ==> StateSound(StateOf(d', id)) && InPlace(original, d', id)
    ensures OperationsSound(original, d') && AtMostOneUnfinished(d')
  {
    hide StateSound, Current;
    forall j | Has(d', j) ensures StateSound(StateOf(d', j)) && InPlace(original, d', j) {
      if j != id {
        assert Has(d, j) && StateOf(d', j) == StateOf(d, j) && InPlace(original, d, j);
      }
    }
  }

  /** The operation a write belongs to is the unfinished one. */
  lemma OnlyThis(original: Binding, h: Host, w: Write)
    requires Inv(original, h) && Allowed(original, h.disk, w)
    ensures forall j | j in h.disk.operations && j != w.id :: Finished(h.disk.operations[j])
  {
    hide StateSound, InPlace, Current;
    if w.id in h.disk.operations {
      assert !Finished(h.disk.operations[w.id]);
    }
  }

  lemma PhaseInv(original: Binding, h: Host, w: Write)
    requires Inv(original, h) && Allowed(original, h.disk, w)
    requires w.SaveEnrolling? || w.SaveCommitting? || w.SaveCommitted? || w.SaveVerified? || w.SaveEnrolled?
    ensures Inv(original, Step(original, h, w))
  {
    hide Current, Encode, Valid, NodeId, Hex64;
    var d, d' := h.disk, Do(original, h.disk, w);
    OnlyThis(original, h, w);
    assert StateSound(StateOf(d, w.id)) && InPlace(original, d, w.id);
    SameCurrent(original, d, d');
    OthersStay(original, d, d', w.id);
  }

  lemma PreparedInv(original: Binding, h: Host, w: Write)
    requires Inv(original, h) && Allowed(original, h.disk, w) && (w.MakeDirectory? || w.SavePrepared?)
    ensures Inv(original, Step(original, h, w))
  {
    hide Current, Encode, Valid, NodeId, Hex64;
    var d, d' := h.disk, Do(original, h.disk, w);
    OnlyThis(original, h, w);
    SameCurrent(original, d, d');
    OthersStay(original, d, d', w.id);
  }

  lemma IdentityInv(original: Binding, h: Host, w: Write)
    requires Inv(original, h) && Allowed(original, h.disk, w) && (w.StageIdentity? || w.MoveIdentity?)
    ensures Inv(original, Step(original, h, w))
  {
    hide Current, Encode, Valid, NodeId, Hex64, StateSound;
    var d, d' := h.disk, Do(original, h.disk, w);
    OnlyThis(original, h, w);
    assert StateSound(StateOf(d, w.id)) && InPlace(original, d, w.id);
    SameCurrent(original, d, d');
    OthersStay(original, d, d', w.id);
  }

  lemma RecordInv(original: Binding, h: Host, w: Write)
    requires Inv(original, h) && Allowed(original, h.disk, w) && w.SaveRecord?
    ensures Inv(original, Step(original, h, w))
  {
    hide Current, Encode, Valid, NodeId, Hex64;
    var d, d' := h.disk, Do(original, h.disk, w);
    OnlyThis(original, h, w);
    assert StateSound(StateOf(d, w.id)) && InPlace(original, d, w.id);
    SameCurrent(original, d, d');
    OthersStay(original, d, d', w.id);
  }

  lemma TargetValid(s: State, blocked: bool)
    requires StateSound(s) && NodeId(s.node)
    ensures Valid(Target(s, blocked))
  {}

  lemma PublishInv(original: Binding, h: Host, w: Write)
    requires Inv(original, h) && Allowed(original, h.disk, w) && w.Publish?
    ensures Inv(original, Step(original, h, w))
    ensures Step(original, h, w).history ==
            h.history + [Authority(Target(StateOf(h.disk, w.id), StateOf(h.disk, w.id).blocked), false)]
  {
    hide Encode, Decode, Valid, NodeId, Hex64;
    var d, d' := h.disk, Do(original, h.disk, w);
    var s := StateOf(d, w.id);
    OnlyThis(original, h, w);
    assert StateSound(s) && InPlace(original, d, w.id);
    TargetValid(s, s.blocked);
    DecodeEncode(Target(s, s.blocked));
    var next := Authority(Target(s, s.blocked), false);
    assert Current(original, d') == Some(next);
    assert s.source == h.history[|h.history| - 1] && Succeeds(s.source, next);
    PublishPlace(original, d, d', w.id);
  }

  lemma PublishPlace(original: Binding, d: Disk, d': Disk, id: string)
    requires OperationsSound(original, d) && Has(d, id) && StateOf(d, id).phase == Committing && Moved(d, id)
    requires StateOf(d, id).record.Some? && d' == d.(active := StateOf(d, id).record)
    requires forall j | j in d.operations && j != id :: Finished(d.operations[j])
    ensures OperationsSound(original, d') && AtMostOneUnfinished(d')
  {
    hide Current, StateSound;
    assert StateSound(StateOf(d, id));
    OthersStay(original, d, d', id);
  }

  /** No write, whichever command makes it and wherever it stops, breaks the invariant. */
  lemma StepInv(original: Binding, h: Host, w: Write)
    requires Inv(original, h) && Allowed(original, h.disk, w)
    ensures Inv(original, Step(original, h, w))
  {
    hide Inv, Step, Allowed;
    match w
    case MakeDirectory(_) => PreparedInv(original, h, w);
    case SavePrepared(_, _, _) => PreparedInv(original, h, w);
    case StageIdentity(_, _) => IdentityInv(original, h, w);
    case MoveIdentity(_) => IdentityInv(original, h, w);
    case SaveRecord(_, _) => RecordInv(original, h, w);
    case Publish(_) => PublishInv(original, h, w);
    case _ => PhaseInv(original, h, w);
  }
}
