/** What a transfer comes to when the controllers are part of the picture: which operations
    can still be finished, and that no node is ever given out for a place that is taken. */
module RebindWorldResults {
  import opened Text
  import opened BindingRecord
  import opened Rebind
  import opened RebindInvariant
  import opened RebindResults
  import opened RebindProgress
  import opened Enrollment
  import opened RebindWorld

  ghost predicate LeadsTo(original: Binding, start: World, events: seq<Event>, w: World) {
    Begins(original, start) && Feasible(original, start, events) && w == After(original, start, events)
  }

  /** The worlds that histories lead to. */
  ghost predicate Reachable(original: Binding, w: World) {
    exists start, events :: LeadsTo(original, start, events, w)
  }

  lemma Reached(original: Binding, w: World)
    requires Reachable(original, w)
    ensures WorldInv(original, w)
  {
    hide Begins, WorldInv, Feasible, After;
    var start, events :| LeadsTo(original, start, events, w);
    BeginsWell(original, start);
    RunsInv(original, start, events);
  }

  /** A controller never gives out a node whose place is taken here, so no transfer is blocked
      by an earlier identity. */
  lemma NeverBlocked(original: Binding, w: World, id: string)
    requires Reachable(original, w)
    ensures GivesNewNodes(original, w.attempts) && !Blocked(DiskOf(original, w), id)
  {
    Reached(original, w);
    hide Run, GivesNewNodes, DiskOk, AllSound, GrantsOk;
    RunNoneTaken(original, w.attempts);
  }

  /** `commit` run to its end with a session finishes the transfer, from every crash point. */
  lemma CommitFinishesHere(original: Binding, w: World, id: string, unresolved: bool)
    requires Reachable(original, w) && Moves(DiskOf(original, w), id)
    ensures var d := DiskOf(original, w);
            var f := Exec(original, d, CommitPlan(original, d, id, unresolved, true));
            Has(f, id) && StateOf(f, id).phase == Verified && Moved(f, id)
                && f.active == Some(Encode(Target(StateOf(d, id), StateOf(f, id).blocked)))
  {
    Reached(original, w);
    hide Run, GivesNewNodes, DiskOk, AllSound, GrantsOk, Exec, CommitPlan, Encode;
    CommitAlwaysFinishes(original, w.attempts, id, unresolved);
  }

  // ---------- one endpoint ----------

  lemma {:induction false} FirstAuthority(original: Binding, attempts: seq<Attempt>)
    requires Valid(original)
    ensures var h := Run(original, attempts); h.history != [] && h.history[0].binding == original
  {
    hide Plan, Valid, Inv;
    if attempts != [] {
      var before := attempts[..|attempts| - 1];
      FirstAuthority(original, before);
      RunInv(original, before);
      var h, last := Run(original, before), attempts[|attempts| - 1];
      PlayInv(original, h, Until(Plan(original, h.disk, last.command), last.kill));
    }
  }

  lemma {:induction false} OneEndpoint(original: Binding, attempts: seq<Attempt>, id: string)
    requires Valid(original) && Has(Run(original, attempts).disk, id)
    ensures StateOf(Run(original, attempts).disk, id).source.binding.endpoint == original.endpoint
    decreases |attempts|
  {
    hide Plan, Valid;
    if attempts != [] {
      var before, last := attempts[..|attempts| - 1], attempts[|attempts| - 1];
      assert before + [last] == attempts;
      var h := Run(original, before);
      CurrentEndpoint(original, before);
      RunSnoc(original, before, last);
      hide Run, Inv, Current;
      forall j | Has(h.disk, j) ensures StateOf(h.disk, j).source.binding.endpoint == original.endpoint {
        OneEndpoint(original, before, j);
      }
      RunInv(original, before);
      PlayEndpoint(original, h, Until(Plan(original, h.disk, last.command), last.kill));
      PlayInv(original, h, Until(Plan(original, h.disk, last.command), last.kill));
    }
  }

  lemma CurrentEndpoint(original: Binding, attempts: seq<Attempt>)
    requires Valid(original)
    ensures var d := Run(original, attempts).disk;
            Current(original, d).Some? && Current(original, d).value.binding.endpoint == original.endpoint
  {
    RunInv(original, attempts);
    FirstAuthority(original, attempts);
    hide Run, Current, OperationsSound;
    var history := Run(original, attempts).history;
    ChainOrder(history, 0, |history| - 1);
  }

  ghost predicate EndpointsAre(original: Binding, d: Disk) {
    && Current(original, d).Some? && Current(original, d).value.binding.endpoint == original.endpoint
    && forall j | Has(d, j) :: StateOf(d, j).source.binding.endpoint == original.endpoint
  }

  lemma StepEndpoint(original: Binding, h: Host, wr: Write)
    requires Inv(original, h) && EndpointsAre(original, h.disk) && Allowed(original, h.disk, wr)
    ensures EndpointsAre(original, Do(original, h.disk, wr))
  {
    var d, d' := h.disk, Do(original, h.disk, wr);
    forall j | Has(d', j) ensures StateOf(d', j).source.binding.endpoint == original.endpoint {
      SourceAfter(original, d, wr, j);
    }
    if wr.Publish? {
      PublishInv(original, h, wr);
      StepInv(original, h, wr);
      hide Encode, Decode, NodeId, Hex64, Current, Do, OperationsSound, Chained;
    } else {
      hide Encode, Decode, NodeId, Hex64;
      SameCurrent(original, d, d');
    }
  }

  lemma SourceAfter(original: Binding, d: Disk, wr: Write, j: string)
    requires Current(original, d).Some? && Allowed(original, d, wr) && Has(Do(original, d, wr), j)
    ensures var source := StateOf(Do(original, d, wr), j).source;
            source == Current(original, d).value || (Has(d, j) && source == StateOf(d, j).source)
  {
    hide Encode, Decode, NodeId, Hex64;
  }

  lemma {:induction false} PlayEndpoint(original: Binding, h: Host, writes: seq<Write>)
    requires Inv(original, h) && EndpointsAre(original, h.disk)
    ensures EndpointsAre(original, Play(original, h, writes).disk)
    decreases |writes|
  {
    hide Inv, EndpointsAre, Allowed, Do, Current;
    if writes != [] {
      if Allowed(original, h.disk, writes[0]) {
        StepEndpoint(original, h, writes[0]);
        StepInv(original, h, writes[0]);
        PlayEndpoint(original, Step(original, h, writes[0]), writes[1..]);
      } else {
        PlayEndpoint(original, h, writes[1..]);
      }
    }
  }

  // ---------- what can still be finished ----------

  /** The controller can still answer with a node. */
  predicate Enrollable(w: World, d: Disk, id: string)
    requires Has(d, id)
  {
    var s := StateOf(d, id);
    && id in w.tickets && s.controller in w.controllers
    && Answerable(w.controllers[s.controller], w.tickets[id].token, w.tickets[id].environment,
       s.source.binding.endpoint, w.clock)
  }

  /** The node has a session grant in time, or can still get one. */
  predicate Verifiable(w: World, d: Disk, id: string)
    requires Has(d, id)
  {
    var s := StateOf(d, id);
    var n := NodeAt(w, s.controller, s.node);
    GrantedAt(w, s.node, w.clock) || (n.Some? && n.value.status != Revoked && KeyRight(w, d, id))
  }

  predicate Waits(d: Disk, id: string) {
    Has(d, id) && StateOf(d, id).phase in {Prepared, Enrolling}
  }

  predicate Moves(d: Disk, id: string) {
    Has(d, id) && StateOf(d, id).phase in {Enrolled, Committing, Committed}
  }

  /** An operation that is stuck: stopped altogether, its token refused, its key wrong, or its
      node revoked too early. */
  predicate Hopeless(w: World, d: Disk, id: string) {
    || Stopped(d, id)
    || (Waits(d, id) && !(Enrollable(w, d, id) && KeyRight(w, d, id)))
    || (Moves(d, id) && !Verifiable(w, d, id))
  }

  /** What a command does not change of an operation. */
  predicate SameAims(d: Disk, d': Disk, id: string)
    requires Has(d, id) && Has(d', id)
  {
    var s, s' := StateOf(d, id), StateOf(d', id);
    s'.controller == s.controller && s'.key == s.key && s'.source == s.source
  }

  predicate FinishedIn(original: Binding, w: World, more: seq<Event>, id: string) {
    Feasible(original, w, more) &&
    var d := DiskOf(original, After(original, w, more));
    id in d.operations && Finished(d.operations[id])
  }

  // ---------- what is stuck stays stuck ----------

  lemma WaitingStep(original: Binding, h: Host, wr: Write, id: string)
    requires Inv(original, h) && Waits(h.disk, id) && Allowed(original, h.disk, wr)
             && !(wr.SaveEnrolled? && wr.id == id)
    ensures var d, d' := h.disk, Do(original, h.disk, wr);
            Waits(d', id) && SameAims(d, d', id)
  {
    hide Current, Encode, NodeId, Hex64, StateSound, InPlace;
    OnlyThis(original, h, wr);
    assert !Finished(h.disk.operations[id]);
  }

  lemma {:induction false} WaitingPlay(original: Binding, h: Host, writes: seq<Write>, id: string)
    requires Inv(original, h) && Waits(h.disk, id) && forall wr | wr in writes :: !(wr.SaveEnrolled? && wr.id == id)
    ensures var d, d' := h.disk, Play(original, h, writes).disk;
            Waits(d', id) && SameAims(d, d', id)
    decreases |writes|
  {
    hide Inv, Allowed, Do, Current;
    if writes != [] {
      assert writes[0] in writes && forall x | x in writes[1..] :: x in writes;
      if Allowed(original, h.disk, writes[0]) {
        WaitingStep(original, h, writes[0], id);
        StepInv(original, h, writes[0]);
        WaitingPlay(original, Step(original, h, writes[0]), writes[1..], id);
      } else {
        WaitingPlay(original, h, writes[1..], id);
      }
    }
  }

  lemma MovingStep(original: Binding, h: Host, wr: Write, id: string)
    requires Inv(original, h) && Moves(h.disk, id) && Allowed(original, h.disk, wr)
             && !(wr.SaveVerified? && wr.id == id)
    ensures var d, d' := h.disk, Do(original, h.disk, wr);
            Moves(d', id) && SameAims(d, d', id) && StateOf(d', id).node == StateOf(d, id).node
  {
    hide Current, Encode, NodeId, Hex64, StateSound, InPlace;
    OnlyThis(original, h, wr);
    assert !Finished(h.disk.operations[id]);
  }

  lemma {:induction false} MovingPlay(original: Binding, h: Host, writes: seq<Write>, id: string)
    requires Inv(original, h) && Moves(h.disk, id) && forall wr | wr in writes :: !(wr.SaveVerified? && wr.id == id)
    ensures var d, d' := h.disk, Play(original, h, writes).disk;
            Moves(d', id) && SameAims(d, d', id) && StateOf(d', id).node == StateOf(d, id).node
    decreases |writes|
  {
    hide Inv, Allowed, Do, Current;
    if writes != [] {
      assert writes[0] in writes && forall x | x in writes[1..] :: x in writes;
      if Allowed(original, h.disk, writes[0]) {
        MovingStep(original, h, writes[0], id);
        StepInv(original, h, writes[0]);
        MovingPlay(original, Step(original, h, writes[0]), writes[1..], id);
      } else {
        MovingPlay(original, h, writes[1..], id);
      }
    }
  }

  /** A command that brings no node for it leaves a waiting operation waiting; one without a
      session leaves a moving one moving. */
  lemma CommandHolds(original: Binding, attempts: seq<Attempt>, a: Attempt, id: string)
    requires Valid(original)
    ensures var d, d' := Run(original, attempts).disk, Run(original, attempts + [a]).disk;
            && (Stopped(d, id) ==> d' == d)
            && (Waits(d, id) && !(a.command.Enrol? && a.command.id == id && a.command.agent.node.Some?) ==>
                  Waits(d', id) && SameAims(d, d', id))
            && (Moves(d, id) && !(a.command.Commit? && a.command.id == id && a.command.session) ==>
                  Moves(d', id) && SameAims(d, d', id) && StateOf(d', id).node == StateOf(d, id).node)
  {
    var h, c := Run(original, attempts), a.command;
    var writes := Until(Plan(original, h.disk, c), a.kill);
    RunInv(original, attempts);
    LastPlayed(original, attempts, a);
    PlanMilestones(original, h.disk, c);
    UntilIsPart(Plan(original, h.disk, c), a.kill);
    hide Run, Plan, Inv, Valid, Waits, Moves;
    if Stopped(h.disk, id) {
      StoppedPlansNothing(original, h, id, c);
    }
    hide Stopped, Play;
    if Waits(h.disk, id) && !(c.Enrol? && c.id == id && c.agent.node.Some?) {
      WaitingPlay(original, h, writes, id);
    }
    if Moves(h.disk, id) && !(c.Commit? && c.id == id && c.session) {
      MovingPlay(original, h, writes, id);
    }
  }

  lemma EarlierIsEasier(c: Controller, token: string, environment: string, endpoint: string, now: int, later: int)
    requires now <= later && Answerable(c, token, environment, endpoint, later)
    ensures Answerable(c, token, environment, endpoint, now)
  {}

  /** Nobody but the operation that waits asks a controller on behalf of this host. */
  lemma OnlyWaitingAsks(original: Binding, w: World, e: Event, id: string)
    requires WorldInv(original, w) && e.RunEnrol? && Asks(original, w, e) && Waits(DiskOf(original, w), id)
    ensures e.id == id
  {
    AsksMeans(original, w, e);
    hide Asks, DiskOk, AllSound, GrantsOk, GivesNewNodes, Run;
    OneUnfinished(original, w.attempts, e.id, id);
  }

  lemma TicketOf(original: Binding, w: World, id: string)
    requires WorldInv(original, w) && Has(DiskOf(original, w), id)
    ensures OperationOk(w, DiskOf(original, w), id)
  {
    hide Run, OperationOk, Current, AllSound, GrantsOk, GivesNewNodes;
  }

  lemma RefusedLater(w: World, w': World, d: Disk, d': Disk, id: string)
    requires Has(d, id) && Has(d', id) && !Enrollable(w, d, id) && w.clock <= w'.clock && id in w.tickets
             && SameAims(d, d', id)
    requires w'.tickets == w.tickets && w'.controllers == w.controllers
    ensures !Enrollable(w', d', id)
  {
    hide Answerable;
    if Enrollable(w', d', id) {
      var s, t := StateOf(d, id), w.tickets[id];
      EarlierIsEasier(w.controllers[s.controller], t.token, t.environment, s.source.binding.endpoint, w.clock,
          w'.clock);
    }
  }

  /** Asking with a refused token gets no answer and changes nothing. */
  lemma RefusedAsk(original: Binding, w: World, e: Event, id: string)
    requires WorldInv(original, w) && e.RunEnrol? && Possible(original, w, e) && Has(DiskOf(original, w), id)
    requires Waits(DiskOf(original, w), id) && !Enrollable(w, DiskOf(original, w), id)
    ensures Next(original, w, e).controllers == w.controllers && Given(original, w, e) == None
  {
    if Asks(original, w, e) {
      OnlyWaitingAsks(original, w, e, id);
      hide Run, WorldInv, Asks, NodeId, EnrolStep, Answerable, TheCommand;
      var d := DiskOf(original, w);
      var c, ask := w.controllers[StateOf(d, id).controller], Question(w, d, e);
      AnsweredWhenAnswerable(c, ask);
      NoAnswerNoChange(c, ask);
      if Answerable(c, ask.token, ask.environment, ask.endpoint, ask.now) {
        EarlierIsEasier(c, ask.token, ask.environment, ask.endpoint, w.clock, ask.now);
      }
    }
  }

  lemma NoAnswerNoChange(c: Controller, ask: Ask)
    requires EnrolStep(c, ask).1.None?
    ensures EnrolStep(c, ask).0 == c
  {}

  lemma NoPrepareNow(original: Binding, d: Disk, id: string, i: string, controller: string, key: string,
                     preflight: bool)
    requires id in d.operations && !Finished(d.operations[id])
    ensures PreparePlan(original, d, i, controller, key, preflight) == []
  {
    hide Current, Hex64;
  }

  predicate ByTool(e: Event) {
    e.RunPrepare? || e.RunEnrol? || e.RunCommit?
  }

  /** Which parts of the world an event leaves alone. */
  lemma NextParts(original: Binding, w: World, e: Event)
    ensures var w' := Next(original, w, e);
            && (ByTool(e) ==> w'.attempts == w.attempts + [Attempt(TheCommand(original, w, e), e.kill)])
            && (!ByTool(e) ==> w'.attempts == w.attempts && w'.tickets == w.tickets)
            && (!e.Connect? ==> w'.granted == w.granted)
            && (e.RunPrepare? || e.RunCommit? || e.Connect? ==> w'.controllers == w.controllers)
            && (e.RunPrepare? ==> w'.clock == w.clock) && (e.RunCommit? || e.Connect? ==> w'.clock == e.now)
            && (e.RunEnrol? ==> w'.clock == e.now && w'.tickets == w.tickets)
            && (e.RunCommit? ==> w'.tickets == w.tickets)
            && (e.RunPrepare? ==>
                  PreparePlan(original, DiskOf(original, w), e.id, e.controller, e.key, e.preflight) == [] ==>
                    w'.tickets == w.tickets)
            && (e.Connect? ==> w'.granted == w.granted ||
                               (CanConnect(DiskOf(original, w), w, e.id) &&
                                w'.granted == w.granted[StateOf(DiskOf(original, w),
                                    e.id).node := e.now + GRANT_SECONDS]))
            && (e.Issue? || e.Approve? || e.Revoke? || e.Other? ==>
                  forall c | c in w.controllers && c != e.controller :: c in w'.controllers
                      && w'.controllers[c] == w.controllers[c])
            && (Possible(original, w, e) ==> w.clock <= w'.clock)
  {
    hide Run, EnrolStep, Current, PreparePlan, TheCommand, Asks, Reply, Fresh;
  }

  /** Another agent, a new token, an approval or a revocation does not help either. */
  lemma RefusedByOther(original: Binding, w: World, e: Event, id: string)
    requires WorldInv(original, w) && Possible(original, w, e) && (e.Issue? || e.Approve? || e.Revoke? || e.Other?)
    requires Has(DiskOf(original, w), id) && !Enrollable(w, DiskOf(original, w), id)
    ensures !Enrollable(Next(original, w, e), DiskOf(original, w), id)
  {
    hide Run, NodeId, Sound, NodesLater, TokensLater, Knows, DiskOf, Next, Possible, DiskOk, GivesNewNodes,
         Answerable, Valid;
    TicketOf(original, w, id);
    SameEndpoint(original, w, id);
    ControllerEventInv(original, w, e);
    NextParts(original, w, e);
    var d, w' := DiskOf(original, w), Next(original, w, e);
    var s, t := StateOf(d, id), w.tickets[id];
    if s.controller in w.controllers && e.controller == s.controller {
      OwnTokens(original, w, e, t.token, s.source.binding.endpoint, id);
      SoundAt(w.controllers, s.controller);
      SoundAt(w'.controllers, s.controller);
      hide AllSound, GrantsOk;
      RefusedStays(w.controllers[s.controller], w'.controllers[s.controller], t.token, t.environment,
          s.source.binding.endpoint, w.clock, w'.clock);
    } else if Enrollable(w', d, id) {
      hide AllSound, GrantsOk;
      EarlierIsEasier(w'.controllers[s.controller], t.token, t.environment, s.source.binding.endpoint, w.clock,
          w'.clock);
    }
  }

  lemma SameEndpoint(original: Binding, w: World, id: string)
    requires WorldInv(original, w) && Has(DiskOf(original, w), id)
    ensures StateOf(DiskOf(original, w), id).source.binding.endpoint == original.endpoint
  {
    hide Run, DiskOk, GivesNewNodes, AllSound, GrantsOk;
    OneEndpoint(original, w.attempts, id);
  }

  lemma SoundAt(cs: map<string, Controller>, c: string)
    requires AllSound(cs) && c in cs
    ensures Sound(cs[c])
  {}

  lemma OwnTokens(original: Binding, w: World, e: Event, token: string, endpoint: string, id: string)
    requires AllSound(w.controllers) && GrantsOk(w) && Possible(original, w, e)
    requires (e.Issue? || e.Approve? || e.Revoke? || e.Other?) && e.controller in w.controllers
    requires id in w.tickets && w.tickets[id].token == token && endpoint == original.endpoint
    ensures var w' := Next(original, w, e);
            var c, c' := w.controllers[e.controller], w'.controllers[e.controller];
            && w.clock <= w'.clock && w'.tickets == w.tickets && TokensLater(c, c')
               && (token in c'.tokens ==> token in c.tokens)
            && (token in c.tokens && c.tokens[token].used.None? && c'.tokens[token].used.Some?
               ==> c'.tokens[token].used.value.endpoint != endpoint)
  {
    hide NodeId, Run, EnrolStep, Sound;
    var c := w.controllers[e.controller];
    if e.Other? {
      FreshIsNew(w, e.controller, e.ask.node);
      EnrolKeeps(c, e.ask);
      if token in c.tokens && c.tokens[token].used.None? && EnrolStep(c, e.ask).0.tokens[token].used.Some? {
        UsedByAsker(c, e.ask, token);
      }
    }
  }

  /** Whatever happens, a refused token is still refused. */
  lemma RefusedNext(original: Binding, w: World, e: Event, id: string)
    requires WorldInv(original, w) && Possible(original, w, e)
    requires Waits(DiskOf(original, w), id) && !Enrollable(w, DiskOf(original, w), id)
    ensures var w' := Next(original, w, e);
            Waits(DiskOf(original, w'), id) && !Enrollable(w', DiskOf(original, w'), id)
  {
    hide Run, Next, Possible, Enrollable, DiskOk, AllSound, GrantsOk, GivesNewNodes, PreparePlan, Given;
    var d, w' := DiskOf(original, w), Next(original, w, e);
    NextParts(original, w, e);
    TicketOf(original, w, id);
    if ByTool(e) {
      if e.RunEnrol? {
        RefusedAsk(original, w, e, id);
      } else if e.RunPrepare? {
        NoPrepareNow(original, d, id, e.id, e.controller, e.key, e.preflight);
      }
      CommandHolds(original, w.attempts, Attempt(TheCommand(original, w, e), e.kill), id);
      RefusedLater(w, w', d, DiskOf(original, w'), id);
    } else if e.Connect? {
      RefusedLater(w, w', d, DiskOf(original, w'), id);
    } else {
      RefusedByOther(original, w, e, id);
    }
  }

  lemma KeyStaysWrong(w: World, w': World, d: Disk, d': Disk, id: string)
    requires Has(d, id) && Has(d', id) && SameAims(d, d', id) && Grows(w.controllers, w'.controllers)
    ensures KeyRight(w', d', id) <==> KeyRight(w, d, id)
  {}

  lemma UnverifiableLater(w: World, w': World, d: Disk, d': Disk, id: string)
    requires Has(d, id) && Has(d', id) && !Verifiable(w, d, id) && Grows(w.controllers, w'.controllers)
    requires SameAims(d, d', id) && StateOf(d', id).node == StateOf(d, id).node && w.clock <= w'.clock
    requires NodeAt(w, StateOf(d, id).controller, StateOf(d, id).node).Some?
    requires var n := StateOf(d, id).node; n in w'.granted ==> n in w.granted && w'.granted[n] == w.granted[n]
    ensures !Verifiable(w', d', id)
  {
    KeyStaysWrong(w, w', d, d', id);
  }

  /** The active binding is that of the unfinished operation, or of another node. */
  lemma OneKey(original: Binding, h: Host, id: string, j: string)
    requires Inv(original, h) && Moves(h.disk, id) && Has(h.disk, j) && Published(h.disk, StateOf(h.disk, j))
    requires StateOf(h.disk, j).node == StateOf(h.disk, id).node
    ensures StateOf(h.disk, j).key == StateOf(h.disk, id).key
  {
    hide NodeId, Hex64, Encode, Decode, Chained;
    var s, t := StateOf(h.disk, id), StateOf(h.disk, j);
    assert StateSound(s) && StateSound(t) && InPlace(original, h.disk, id) && InPlace(original, h.disk, j);
    TargetIsValid(t);
    DecodeEncode(Target(t, t.blocked));
    if Published(h.disk, s) {
      TargetIsValid(s);
      EncodeInjective(Target(s, s.blocked), Target(t, t.blocked));
    }
  }

  lemma TargetIsValid(s: State)
    requires StateSound(s) && s.record.Some?
    ensures Valid(Target(s, s.blocked))
  {
    hide NodeId, Hex64, Encode;
    assert s.phase == Committing || s.phase == Committed || s.phase == Verified;
    TargetValid(s, s.blocked);
  }

  lemma NoGrantForIt(original: Binding, w: World, e: Event, id: string)
    requires WorldInv(original, w) && Moves(DiskOf(original, w), id) && !Verifiable(w, DiskOf(original, w), id)
    requires e.Connect? && CanConnect(DiskOf(original, w), w, e.id)
    ensures StateOf(DiskOf(original, w), e.id).node != StateOf(DiskOf(original, w), id).node
  {
    hide Run, Sound, NodeId, GivesNewNodes, GrantsOk, DiskOk, Published, Inv;
    var d := DiskOf(original, w);
    TicketOf(original, w, id);
    RunInv(original, w.attempts);
    if StateOf(d, e.id).node == StateOf(d, id).node {
      OneKey(original, Run(original, w.attempts), id, e.id);
    }
  }

  /** Whatever happens, a node revoked before its session, or a wrong key, stays without one. */
  lemma UnverifiableNext(original: Binding, w: World, e: Event, id: string)
    requires WorldInv(original, w) && Possible(original, w, e)
    requires Moves(DiskOf(original, w), id) && !Verifiable(w, DiskOf(original, w), id)
    ensures var w' := Next(original, w, e);
            Moves(DiskOf(original, w'), id) && !Verifiable(w', DiskOf(original, w'), id)
  {
    hide Run, Next, DiskOk, GrantsOk, GivesNewNodes, Given, Grows, AllSound, KeyRight, Fresh;
    var d, w' := DiskOf(original, w), Next(original, w, e);
    NextParts(original, w, e);
    TicketOf(original, w, id);
    ControllersGrow(original, w, e);
    if ByTool(e) {
      CommandHolds(original, w.attempts, Attempt(TheCommand(original, w, e), e.kill), id);
    } else if e.Connect? && CanConnect(d, w, e.id) {
      NoGrantForIt(original, w, e, id);
    }
    UnverifiableLater(w, w', d, DiskOf(original, w'), id);
  }

  // ---------- the wrong key ----------

  predicate EnrolKind(writes: seq<Write>, node: Option<string>) {
    forall wr | wr in writes :: wr.StageIdentity? || wr.SaveEnrolling? || (wr.SaveEnrolled? && node == Some(wr.node))
  }

  predicate WaitsOrHas(d: Disk, id: string, node: Option<string>) {
    Waits(d, id) || (Moves(d, id) && node == Some(StateOf(d, id).node))
  }

  lemma {:induction false} EnrolPlay(original: Binding, h: Host, writes: seq<Write>, id: string, node: Option<string>)
    requires Inv(original, h) && WaitsOrHas(h.disk, id, node) && EnrolKind(writes, node)
    ensures var d' := Play(original, h, writes).disk; WaitsOrHas(d', id, node) && SameAims(h.disk, d', id)
    decreases |writes|
  {
    if writes != [] {
      assert writes[0] in writes && forall x | x in writes[1..] :: x in writes;
      if Allowed(original, h.disk, writes[0]) {
        EnrolWrite(original, h, writes[0], id, node);
        StepInv(original, h, writes[0]);
        hide Inv, Allowed, Do, Current, Waits, Moves;
        EnrolPlay(original, Step(original, h, writes[0]), writes[1..], id, node);
      } else {
        hide Inv, Allowed, Do, Current, Waits, Moves;
        EnrolPlay(original, h, writes[1..], id, node);
      }
    }
  }

  lemma EnrolWrite(original: Binding, h: Host, wr: Write, id: string, node: Option<string>)
    requires Inv(original, h) && WaitsOrHas(h.disk, id, node) && Allowed(original, h.disk, wr) && EnrolKind([wr], node)
    ensures var d' := Do(original, h.disk, wr); WaitsOrHas(d', id, node) && SameAims(h.disk, d', id)
  {
    hide Current, Encode, NodeId, Hex64, StateSound, InPlace;
    OnlyThis(original, h, wr);
    assert wr in [wr];
    assert !Finished(h.disk.operations[id]);
  }

  lemma EnrolHolds(original: Binding, attempts: seq<Attempt>, a: Attempt, id: string)
    requires Valid(original) && a.command.Enrol? && Waits(Run(original, attempts).disk, id)
    ensures var d, d' := Run(original, attempts).disk, Run(original, attempts + [a]).disk;
            WaitsOrHas(d', id, a.command.agent.node) && SameAims(d, d', id)
  {
    var h, c := Run(original, attempts), a.command;
    RunInv(original, attempts);
    LastPlayed(original, attempts, a);
    EnrolKinds(original, h.disk, c);
    UntilIsPart(Plan(original, h.disk, c), a.kill);
    hide Run, Plan, Inv, Valid, Waits, Moves, Play;
    EnrolPlay(original, h, Until(Plan(original, h.disk, c), a.kill), id, c.agent.node);
  }

  lemma EnrolKinds(original: Binding, d: Disk, c: Command)
    requires c.Enrol?
    ensures EnrolKind(Plan(original, d, c), c.agent.node)
  {
    hide Current, NodeId;
  }

  /** A wrong key stays wrong; if the node is given all the same, it gets no session. */
  lemma WrongKeyNext(original: Binding, w: World, e: Event, id: string)
    requires WorldInv(original, w) && Possible(original, w, e)
    requires Waits(DiskOf(original, w), id) && !KeyRight(w, DiskOf(original, w), id)
    ensures Hopeless(Next(original, w, e), DiskOf(original, Next(original, w, e)), id)
  {
    hide Run, Next, DiskOk, GrantsOk, GivesNewNodes, Given, Grows, AllSound, KeyRight, Fresh, Enrollable, Stopped;
    var d, w' := DiskOf(original, w), Next(original, w, e);
    NextParts(original, w, e);
    ControllersGrow(original, w, e);
    if e.RunEnrol? {
      EnrolHolds(original, w.attempts, Attempt(TheCommand(original, w, e), e.kill), id);
      if Moves(DiskOf(original, w'), id) {
        GivenIsUngranted(original, w, e);
      }
    } else if ByTool(e) {
      CommandHolds(original, w.attempts, Attempt(TheCommand(original, w, e), e.kill), id);
    }
    KeyStaysWrong(w, w', d, DiskOf(original, w'), id);
  }

  lemma GivenIsUngranted(original: Binding, w: World, e: Event)
    requires WorldInv(original, w) && e.RunEnrol? && Possible(original, w, e) && Given(original, w, e).Some?
    ensures Given(original, w, e).value !in Next(original, w, e).granted
  {
    AsksMeans(original, w, e);
    AfterAsking(original, w, e);
    NextParts(original, w, e);
    var d := DiskOf(original, w);
    var c, ask := StateOf(d, e.id).controller, Question(w, d, e);
    AnswerIsOwn(w.controllers[c], ask);
    hide Run, Asks, EnrolStep, NodeId, Sound, DiskOk, GivesNewNodes, AllSound;
  }

  lemma ControllersGrow(original: Binding, w: World, e: Event)
    requires WorldInv(original, w) && Possible(original, w, e)
    ensures Grows(w.controllers, Next(original, w, e).controllers)
  {
    if e.RunEnrol? {
      AfterAsking(original, w, e);
    } else if e.Issue? || e.Approve? || e.Revoke? || e.Other? {
      ControllerEventInv(original, w, e);
    } else {
      hide Run, WorldInv;
      SameGrows(w.controllers);
    }
  }

  lemma HopelessNext(original: Binding, w: World, e: Event, id: string)
    requires WorldInv(original, w) && Possible(original, w, e) && Hopeless(w, DiskOf(original, w), id)
    ensures Hopeless(Next(original, w, e), DiskOf(original, Next(original, w, e)), id)
  {
    hide Run, Next, DiskOk, AllSound, GrantsOk, GivesNewNodes, Enrollable, Verifiable, Given, Possible, Unusable;
    var d := DiskOf(original, w);
    if Stopped(d, id) {
      NextParts(original, w, e);
      if ByTool(e) {
        CommandHolds(original, w.attempts, Attempt(TheCommand(original, w, e), e.kill), id);
      }
    } else if Waits(d, id) {
      if KeyRight(w, d, id) {
        RefusedNext(original, w, e, id);
      } else {
        WrongKeyNext(original, w, e, id);
      }
    } else {
      UnverifiableNext(original, w, e, id);
    }
  }

  lemma {:induction false} HopelessForGood(original: Binding, w: World, more: seq<Event>, id: string)
    requires WorldInv(original, w) && Feasible(original, w, more) && Hopeless(w, DiskOf(original, w), id)
    ensures Hopeless(After(original, w, more), DiskOf(original, After(original, w, more)), id)
    decreases |more|
  {
    hide WorldInv, Possible, Next, Hopeless, DiskOf;
    if more != [] {
      HopelessNext(original, w, more[0], id);
      NextInv(original, w, more[0]);
      HopelessForGood(original, Next(original, w, more[0]), more[1..], id);
    }
  }

  // ---------- what is not stuck can be finished ----------

  lemma Prepend(original: Binding, w: World, e: Event, rest: seq<Event>, id: string)
    requires Possible(original, w, e) && FinishedIn(original, Next(original, w, e), rest, id)
    ensures FinishedIn(original, w, [e] + rest, id)
  {
    hide Next, Possible, DiskOf;
    assert ([e] + rest)[1..] == rest;
  }

  lemma AtOnce(original: Binding, w: World, id: string)
    requires id in DiskOf(original, w).operations && Finished(DiskOf(original, w).operations[id])
    ensures FinishedIn(original, w, [], id)
  {
    hide Run;
  }

  function TakeOver(endpoint: string, id: string, node: string, now: int): Event {
    RunEnrol(id, Some(Complete(endpoint)), true, true, now, node, false, 3)
  }

  lemma AnswerArrives(original: Binding, w: World, id: string, node: string)
    requires WorldInv(original, w) && Waits(DiskOf(original, w), id) && !Unusable(DiskOf(original, w), id)
    requires Enrollable(w, DiskOf(original, w), id) && Fresh(w, node)
    ensures var s := StateOf(DiskOf(original, w), id);
            var e := TakeOver(s.source.binding.endpoint, id, node, w.clock);
            var given := Given(original, w, e);
            && Possible(original, w, e) && given.Some? && NodeId(given.value) && given.value != s.source.binding.node
            && var n := NodeAt(Next(original, w, e), s.controller, given.value);
               n.Some? && IsPending(n.value, s.source.binding.endpoint)
  {
    var d := DiskOf(original, w);
    var s := StateOf(d, id);
    var e := TakeOver(s.source.binding.endpoint, id, node, w.clock);
    assert Asks(original, w, e) by { ReadyToAsk(original, w, id, node); }
    hide Run, Asks, EnrolStep, NodeId, Sound, GivesNewNodes, WritesBeforeAsking, Current;
    AnsweredWhenAnswerable(w.controllers[s.controller], Question(w, d, e));
    AnswerIsOwn(w.controllers[s.controller], Question(w, d, e));
    AfterAsking(original, w, e);
    NodeIsGood(original, w, Next(original, w, e), id, Given(original, w, e).value);
  }

  lemma ReadyToAsk(original: Binding, w: World, id: string, node: string)
    requires WorldInv(original, w) && Waits(DiskOf(original, w), id) && !Unusable(DiskOf(original, w), id)
    requires Enrollable(w, DiskOf(original, w), id)
    ensures Asks(original, w, TakeOver(StateOf(DiskOf(original, w), id).source.binding.endpoint, id, node, w.clock))
  {
    RunInv(original, w.attempts);
    WritesFirst(original, Run(original, w.attempts), id);
    hide Run, Inv, Answerable, DiskOk, AllSound, GrantsOk, GivesNewNodes, WritesBeforeAsking, Waits, Unusable;
  }

  lemma WritesFirst(original: Binding, h: Host, id: string)
    requires Inv(original, h) && Waits(h.disk, id) && !Unusable(h.disk, id)
    ensures var writes := WritesBeforeAsking(original, h.disk, id,
            Some(Complete(StateOf(h.disk, id).source.binding.endpoint)));
            writes.Some? && writes.value <= 2
  {
    hide StateSound, Current, Chained;
    assert InPlace(original, h.disk, id);
  }

  /** A node of the new controller is not the node at the source. */
  lemma NodeIsGood(original: Binding, w: World, w': World, id: string, n: string)
    requires WorldInv(original, w) && Waits(DiskOf(original, w), id)
    requires AllSound(w'.controllers) && Grows(w.controllers, w'.controllers)
    requires var c := StateOf(DiskOf(original, w), id).controller; c in w'.controllers && n in w'.controllers[c].nodes
    ensures NodeId(n) && n != StateOf(DiskOf(original, w), id).source.binding.node
  {
    RunInv(original, w.attempts);
    hide Run, Current, GivesNewNodes, GrantsOk, Valid, Chained, AtMostOneUnfinished;
    var d := DiskOf(original, w);
    var s := StateOf(d, id);
    assert StateSound(s) && InPlace(original, d, id);
    var b := s.source.binding;
    assert b.node in w'.controllers[b.controller].nodes;
    SoundAt(w'.controllers, s.controller);
  }

  lemma EnrolEvent(original: Binding, w: World, id: string, node: string) returns (e: Event)
    requires WorldInv(original, w) && Waits(DiskOf(original, w), id) && !Unusable(DiskOf(original, w), id)
    requires Enrollable(w, DiskOf(original, w), id) && KeyRight(w, DiskOf(original, w), id) && Fresh(w, node)
    ensures Possible(original, w, e) && WorldInv(original, Next(original, w, e))
    ensures var w' := Next(original, w, e); Moves(DiskOf(original, w'), id) && Verifiable(w', DiskOf(original, w'), id)
  {
    hide Run, Next, DiskOk, AllSound, GrantsOk, GivesNewNodes, Possible, Given, Exec, EnrolPlan, Inv, Valid, NodeId,
         Enrollable, Fresh;
    var d := DiskOf(original, w);
    var s := StateOf(d, id);
    e := TakeOver(s.source.binding.endpoint, id, node, w.clock);
    AnswerArrives(original, w, id, node);
    NextInv(original, w, e);
    NextParts(original, w, e);
    RunInv(original, w.attempts);
    var n := Given(original, w, e).value;
    EnrolmentWorks(original, Run(original, w.attempts), id, n);
    RunSnoc(original, w.attempts, Attempt(TheCommand(original, w, e), 3));
    ControllersGrow(original, w, e);
    KeyStaysWrong(w, Next(original, w, e), d, DiskOf(original, Next(original, w, e)), id);
  }

  /** `commit`, with or without a grant. */
  lemma CommitEvent(original: Binding, w: World, id: string, session: bool) returns (e: Event)
    requires WorldInv(original, w) && Moves(DiskOf(original, w), id)
    requires session ==> GrantedAt(w, StateOf(DiskOf(original, w), id).node, w.clock)
    ensures Possible(original, w, e) && WorldInv(original, Next(original, w, e))
    ensures var d, w' := DiskOf(original, w), Next(original, w, e);
            var d' := DiskOf(original, w');
            && Has(d', id) && Published(d', StateOf(d', id))
            && SameAims(d, d', id) && StateOf(d', id).node == StateOf(d, id).node
            && StateOf(d', id).phase == (if session then Verified else Committed)
            && w'.controllers == w.controllers && w'.granted == w.granted && w'.clock == w.clock
  {
    hide Run, Next, DiskOk, AllSound, GrantsOk, GivesNewNodes, Exec, CommitPlan, Valid, Encode;
    var d := DiskOf(original, w);
    e := RunCommit(id, false, session, w.clock, 6);
    NextInv(original, w, e);
    NextParts(original, w, e);
    CommitResumes(original, w.attempts, id, false, session);
    RunNoneTaken(original, w.attempts);
    if StateOf(d, id).phase == Committed {
      CommittedIsMoved(original, w.attempts, id);
    }
    AnyCommitLength(original, d, id, session);
    RunSnoc(original, w.attempts, Attempt(TheCommand(original, w, e), 6));
  }

  lemma AnyCommitLength(original: Binding, d: Disk, id: string, session: bool)
    ensures |CommitPlan(original, d, id, false, session)| <= 6
  {
    hide Current, Published, TransferWorks;
  }

  /** Approved, if it was not yet, the node gets its session. */
  lemma FinishMoving(original: Binding, w: World, id: string) returns (more: seq<Event>)
    requires WorldInv(original, w) && Moves(DiskOf(original, w), id) && Verifiable(w, DiskOf(original, w), id)
    ensures FinishedIn(original, w, more, id)
  {
    hide Run, Next, WorldInv, FinishedIn;
    var s := StateOf(DiskOf(original, w), id);
    if GrantedAt(w, s.node, w.clock) {
      more := FinishGranted(original, w, id);
    } else {
      var e := Approve(s.controller, s.node);
      var w1 := Next(original, w, e);
      NextParts(original, w, e);
      NextInv(original, w, e);
      ControllersGrow(original, w, e);
      KeyStaysWrong(w, w1, DiskOf(original, w), DiskOf(original, w1), id);
      Approved(original, w, s.controller, s.node);
      var rest := FinishApproved(original, w1, id);
      Prepend(original, w, e, rest, id);
      more := [e] + rest;
    }
  }

  lemma Approved(original: Binding, w: World, controller: string, node: string)
    requires NodeAt(w, controller, node).Some? && NodeAt(w, controller, node).value.status != Revoked
    ensures var n := NodeAt(Next(original, w, Approve(controller, node)), controller, node);
            n.Some? && n.value.status == Active
  {
    hide Run;
  }

  lemma FinishGranted(original: Binding, w: World, id: string) returns (more: seq<Event>)
    requires WorldInv(original, w) && Moves(DiskOf(original, w), id)
             && GrantedAt(w, StateOf(DiskOf(original, w), id).node, w.clock)
    ensures FinishedIn(original, w, more, id)
  {
    hide Run, Next, WorldInv, FinishedIn, Possible;
    var e := CommitEvent(original, w, id, true);
    AtOnce(original, Next(original, w, e), id);
    Prepend(original, w, e, [], id);
    more := [e] + [];
  }

  lemma FinishApproved(original: Binding, w: World, id: string) returns (more: seq<Event>)
    requires WorldInv(original, w) && Moves(DiskOf(original, w), id)
    requires var s := StateOf(DiskOf(original, w), id);
             NodeAt(w, s.controller, s.node).Some? && NodeAt(w, s.controller, s.node).value.status == Active
    requires KeyRight(w, DiskOf(original, w), id)
    ensures FinishedIn(original, w, more, id)
  {
    hide Run, Next, WorldInv, FinishedIn, Possible;
    var e := CommitEvent(original, w, id, false);
    var w1 := Next(original, w, e);
    var connect := Connect(id, w1.clock);
    var w2 := Next(original, w1, connect);
    ConnectWorks(original, w1, id);
    NextInv(original, w1, connect);
    var rest := FinishGranted(original, w2, id);
    Prepend(original, w1, connect, rest, id);
    Prepend(original, w, e, [connect] + rest, id);
    more := [e] + ([connect] + rest);
  }

  lemma ConnectWorks(original: Binding, w: World, id: string)
    requires CanConnect(DiskOf(original, w), w, id)
    ensures var w' := Next(original, w, Connect(id, w.clock));
            && Possible(original, w, Connect(id, w.clock)) && w'.attempts == w.attempts
            && GrantedAt(w', StateOf(DiskOf(original, w), id).node, w'.clock)
  {
    hide Run;
  }

  lemma FinishHopeful(original: Binding, w: World, id: string, node: string) returns (more: seq<Event>)
    requires WorldInv(original, w) && id in DiskOf(original, w).operations
             && !Finished(DiskOf(original, w).operations[id])
    requires !Hopeless(w, DiskOf(original, w), id) && Fresh(w, node)
    ensures FinishedIn(original, w, more, id)
  {
    hide Run, Next, WorldInv, FinishedIn, Possible, Enrollable, Verifiable, Fresh;
    var d := DiskOf(original, w);
    if Waits(d, id) {
      var e := EnrolEvent(original, w, id, node);
      var rest := FinishMoving(original, Next(original, w, e), id);
      Prepend(original, w, e, rest, id);
      more := [e] + rest;
    } else {
      more := FinishMoving(original, w, id);
    }
  }

  // ---------- main results ----------

  /** An unfinished operation can still be finished exactly when it is not stopped, its token
      can still be answered while it waits for enrolment, and then its node has a session grant
      in time or is not revoked and the key is the controller's own. The controllers, other agents, approvals,
          lost answers,
      kills and the clock may do what they like; `node` stands for a new identifier. */
  lemma FinishesExactlyWhen(original: Binding, w: World, id: string, node: string)
    requires Reachable(original, w) && Fresh(w, node)
    requires id in DiskOf(original, w).operations && !Finished(DiskOf(original, w).operations[id])
    ensures (exists more :: FinishedIn(original, w, more, id)) <==> !Hopeless(w, DiskOf(original, w), id)
  {
    Reached(original, w);
    hide WorldInv, Fresh, DiskOf, Reachable;
    if Hopeless(w, DiskOf(original, w), id) {
      forall more ensures !FinishedIn(original, w, more, id) {
        if FinishedIn(original, w, more, id) {
          HopelessForGood(original, w, more, id);
          HopelessIsUnfinished(After(original, w, more), DiskOf(original, After(original, w, more)), id);
        }
      }
    } else {
      hide Hopeless;
      var more := FinishHopeful(original, w, id, node);
    }
  }

  lemma HopelessIsUnfinished(w: World, d: Disk, id: string)
    requires Hopeless(w, d, id)
    ensures id in d.operations && !Finished(d.operations[id])
  {}

  function PreparedWith(original: Binding, w: World, id: string, controller: string, key: string,
                        ticket: Ticket): World {
    Next(original, w, RunPrepare(id, controller, key, ticket, true, 2))
  }

  /** The controller has no answer for this token, or another key. */
  predicate Misfit(original: Binding, w: World, controller: string, key: string, ticket: Ticket) {
    || controller !in w.controllers || w.controllers[controller].key != key
    || !Answerable(w.controllers[controller], ticket.token, ticket.environment, original.endpoint, w.clock)
  }

  /** `prepare` takes any token and key of the right shape. The operation it leaves is hopeless
      exactly when the controller refuses the token, be it of another environment or endpoint,
      out of time, unknown, or at a controller that has had the endpoint, or has another key.
      Then it stays so, and nothing else can be prepared. */
  lemma MisfitStops(original: Binding, w: World, id: string, controller: string, key: string, ticket: Ticket,
                    more: seq<Event>)
    requires Reachable(original, w) && Ready(original, DiskOf(original, w), id, controller, key)
    requires Feasible(original, PreparedWith(original, w, id, controller, key, ticket), more)
    ensures var w1 := PreparedWith(original, w, id, controller, key, ticket);
            var d := DiskOf(original, w1);
            && Waits(d, id) && !Stopped(d, id) && !Blocked(d, id)
            && (Hopeless(w1, d, id) <==> Misfit(original, w, controller, key, ticket))
    ensures var w' := After(original, PreparedWith(original, w, id, controller, key, ticket), more);
            Misfit(original, w, controller, key, ticket) ==> Hopeless(w', DiskOf(original, w'), id)
  {
    Reached(original, w);
    var w1 := PreparedWith(original, w, id, controller, key, ticket);
    PreparedWorld(original, w, id, controller, key, ticket);
    hide Run, WorldInv, PreparedWith, Ready, Feasible, After, Answerable, Stopped;
    if Misfit(original, w, controller, key, ticket) {
      HopelessForGood(original, w1, more, id);
    }
  }

  lemma PreparedWorld(original: Binding, w: World, id: string, controller: string, key: string, ticket: Ticket)
    requires WorldInv(original, w) && Ready(original, DiskOf(original, w), id, controller, key)
    ensures var w' := PreparedWith(original, w, id, controller, key, ticket);
            var d' := DiskOf(original, w');
            && WorldInv(original, w') && w'.controllers == w.controllers && w'.clock == w.clock
            && id in w'.tickets && w'.tickets[id] == ticket
            && Waits(d', id) && !Stopped(d', id) && !Blocked(d', id)
            && StateOf(d', id).controller == controller && StateOf(d', id).key == key
            && StateOf(d', id).source.binding.endpoint == original.endpoint
  {
    hide Run, DiskOk, AllSound, GrantsOk, GivesNewNodes, Hex64, Exec, Current;
    var e := RunPrepare(id, controller, key, ticket, true, 2);
    NextParts(original, w, e);
    NextInv(original, w, e);
    PreparedRun(original, w.attempts, id, controller, key);
    PrepareWorks(original, DiskOf(original, w), id, controller, key);
    CurrentEndpoint(original, w.attempts);
  }

  /** A controller that has had the endpoint refuses every later transfer back to it. */
  lemma ReturningIsRefused(original: Binding, w: World, i: string, id: string)
    requires Reachable(original, w) && Has(DiskOf(original, w), i) && Waits(DiskOf(original, w), id)
    requires var d := DiskOf(original, w);
             StateOf(d, i).phase == Verified && StateOf(d, id).controller == StateOf(d, i).controller
    ensures Hopeless(w, DiskOf(original, w), id)
  {
    Reached(original, w);
    hide Run, DiskOk, GivesNewNodes, NodeId, Sound, Answerable, Knows, Reachable;
    var d := DiskOf(original, w);
    TicketOf(original, w, i);
    TicketOf(original, w, id);
    SameEndpoint(original, w, i);
    SameEndpoint(original, w, id);
    var s, t := StateOf(d, i), w.tickets[id];
    SoundAt(w.controllers, s.controller);
    KnownIsRefused(w.controllers[s.controller], s.node, t.token, t.environment, original.endpoint, w.clock);
  }
}
