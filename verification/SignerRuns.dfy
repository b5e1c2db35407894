/** Whole histories of the signer: requests, retries, crashes, imports, disabled
    bindings and revocation lists in any order, from a new ledger on. */
module SignerRuns {
  import opened Text
  import opened Signer
  import opened SignerInvariant
  import opened SignerSteps
  import opened SignerService

  /** An operation may be killed before it commits; an exported revocation list may be
      lost after its number was taken. */
  datatype Event =
    | Http(q: Request, minted: Result<string>, at: int, fate: Fate)
    | Import(approved: Binding, exported: Binding, now: int, later: int, at: int, committed: bool)
    | Disable(node: string, at: int, committed: bool)
    | ExportCrl(at: int, committed: bool, published: bool)
    | Restart

  datatype SignReply = SignReply(id: string, chain: string, digest: string)

  datatype Trace = Trace(process: Process, replies: seq<SignReply>, crls: seq<Crl>, exports: nat)

  function Start(w: World): Trace {
    Trace(Process(Initial(w), false), [], [], 0)
  }

  /** The authority keeps its promise about the chain it returns. */
  predicate Admissible(w: World, e: Event) {
    e.Http? && GoodSign(w, e.q) ==> MintedFor(w, e.q.der.value, w.parseUuid(e.q.id).value, e.minted)
  }

  /** The record a sign request was answered with. */
  function Signed(w: World, p: Process, e: Event): Option<Issuance>
    requires e.Http?
  {
    if p.failed || e.q.revoke || !GoodSign(w, e.q) then None
    else
      var a := SignAttempt(w, p.ledger, w.parseUuid(e.q.id).value, e.q.der.value, e.minted, e.at, e.fate);
      if a.answer.Some? && a.answer.value.Ok? then Some(a.answer.value.value) else None
  }

  ghost function NextLedger(w: World, l: Ledger, e: Event): Ledger
    requires !e.Http?
  {
    match e
    case Import(approved, exported, now, later, at, true) => ImportStep(w, l, approved, exported, now, later, at).0
    case Disable(node, at, true) => DisableStep(w, l, node, at).0
    case ExportCrl(at, true, _) => CrlStep(w, l, at).0
    case _ => l
  }

  ghost function Next(w: World, t: Trace, e: Event): Trace {
    match e
    case Http(q, minted, at, fate) =>
      var record := Signed(w, t.process, e);
      t.(process := Handle(w, t.process, q, minted, at, fate).0,
         replies := if record.Some? then t.replies + [SignReply(q.id, record.value.chain, record.value.digest)]
             else t.replies)
    case ExportCrl(at, committed, published) =>
      var result := CrlStep(w, t.process.ledger, at).1;
      t.(process := t.process.(ledger := NextLedger(w, t.process.ledger, e)),
         crls := if committed && published && result.Ok? then t.crls + [result.value] else t.crls,
         exports := t.exports + if committed && result.Ok? then 1 else 0)
    case Restart => t.(process := t.process.(failed := false))
    case _ => t.(process := t.process.(ledger := NextLedger(w, t.process.ledger, e)))
  }

  ghost function Run(w: World, events: seq<Event>): Trace {
    if events == [] then Start(w) else Next(w, Run(w, events[..|events| - 1]), events[|events| - 1])
  }

  ghost predicate AllAdmissible(w: World, events: seq<Event>) {
    forall i | 0 <= i < |events| :: Admissible(w, events[i])
  }

  /** Runs shorter than the audit counter. */
  ghost predicate Feasible(w: World, events: seq<Event>) {
    Trusted(w) && AllAdmissible(w, events) && |events| < TWO64
  }

  // ---------- each event is a lawful change ----------

  lemma NotBlank(s: string)
    requires !Blank(s)
    ensures s != ""
  {}

  lemma FinishIsLawful<T>(w: World, l: Ledger, l': Ledger, result: Result<T>, fate: Fate, c: Change) returns (d: Change)
    requires Lawful(w, l, c) && l' == Apply(w, l, c) && !c.Note?
    ensures Lawful(w, l, d) && Finish(l, l', result, fate).ledger == Apply(w, l, d) && !d.Note?
  {
    hide Lawful;
    NothingIsLawful(w, l);
    d := if Finish(l, l', result, fate).ledger == l then Nothing else c;
  }

  lemma HttpIsLawful(w: World, p: Process, e: Event) returns (c: Change)
    requires Trusted(w) && RecordsSound(w, p.ledger) && e.Http? && Admissible(w, e)
    ensures Lawful(w, p.ledger, c) && !c.Note?
    ensures Handle(w, p, e.q, e.minted, e.at, e.fate).0.ledger == Apply(w, p.ledger, c)
  {
    hide Lawful, SignStep, RevokeStep, Apply, AcceptedSerial, Finish, RecordsSound, MintedFor, Utf8Length;
    NothingIsLawful(w, p.ledger);
    c := Nothing;
    ApplyNothing(w, p.ledger);
    if !p.failed && e.q.revoke && GoodRevoke(w, e.q) {
      NotBlank(e.q.reason);
      var r := RevokeIsLawful(w, p.ledger, e.q.id, e.q.serial, e.q.reason, e.at);
      var (l', result) := RevokeStep(w, p.ledger, e.q.id, e.q.serial, e.q.reason, e.at);
      r := FinishIsLawful(w, p.ledger, l', result, e.fate, r);
      if RevokeAttempt(w, p.ledger, e.q.id, e.q.serial, e.q.reason, e.at, e.fate).ledger != p.ledger {
        c := r;
      }
    } else if !p.failed && !e.q.revoke && GoodSign(w, e.q) {
      var id := w.parseUuid(e.q.id).value;
      var r := SignIsLawful(w, p.ledger, id, e.q.der.value, e.minted, e.at);
      var (l', result) := SignStep(w, p.ledger, id, e.q.der.value, e.minted, e.at);
      r := FinishIsLawful(w, p.ledger, l', result, e.fate, r);
      if SignAttempt(w, p.ledger, id, e.q.der.value, e.minted, e.at, e.fate).ledger != p.ledger {
        c := r;
      }
    }
  }

  lemma ApplyNothing(w: World, l: Ledger)
    ensures Apply(w, l, Nothing) == l
  {}

  lemma EventIsLawful(w: World, t: Trace, e: Event) returns (c: Change)
    requires Trusted(w) && Inv(w, t.process.ledger) && Admissible(w, e)
    ensures Lawful(w, t.process.ledger, c) && Next(w, t, e).process.ledger == Apply(w, t.process.ledger, c)
    ensures Next(w, t, e).exports == t.exports + if c.Note? then 1 else 0
  {
    hide Lawful, ImportStep, DisableStep, Apply, Handle, Signed, Indexed, Numbered, RecordsSound, RevocationsStand;
    var l := t.process.ledger;
    NothingIsLawful(w, l);
    ApplyNothing(w, l);
    c := Nothing;
    match e
    case Http(q, minted, at, fate) => c := HttpIsLawful(w, t.process, e);
    case Import(approved, exported, now, later, at, true) => c := ImportIsLawful(w, l, approved, exported, now, later,
        at);
    case Disable(node, at, true) => c := DisableIsLawful(w, l, node, at);
    case ExportCrl(at, true, _) => if CrlStep(w, l, at).1.Ok? { c := CrlIsLawful(w, l, at); }
    case _ =>
  }

  lemma CrlIsLawful(w: World, l: Ledger, at: int) returns (c: Change)
    requires CrlStep(w, l, at).1.Ok?
    ensures c.Note? && Lawful(w, l, c) && CrlStep(w, l, at).0 == Apply(w, l, c)
  {
    c := Note(AuditEntry("crl", w.issuer, at));
  }

  // ---------- invariant and accounting over runs ----------

  /** What holds of every run: the invariant, and an exact account of the audit trail. */
  ghost predicate Good(w: World, t: Trace) {
    Inv(w, t.process.ledger) && t.process.ledger.sequence == Recorded(w, t.process.ledger) + t.exports
  }

  lemma NextGood(w: World, t: Trace, e: Event)
    requires Trusted(w) && Good(w, t) && Admissible(w, e) && t.process.ledger.sequence + 1 < TWO64
    ensures Good(w, Next(w, t, e))
    ensures Next(w, t, e).process.ledger.sequence <= t.process.ledger.sequence + 1
    ensures Extends(w, t.process.ledger, Next(w, t, e).process.ledger)
  {
    hide Inv, Lawful, Apply, Recorded, Extends, Next;
    var l := t.process.ledger;
    var c := EventIsLawful(w, t, e);
    LawfulInv(w, l, c);
    LawfulCounted(w, l, c);
    LawfulExtends(w, l, c);
  }

  lemma FeasiblePrefix(w: World, events: seq<Event>)
    requires Feasible(w, events) && events != []
    ensures Feasible(w, events[..|events| - 1]) && Admissible(w, events[|events| - 1])
  {
    hide Admissible, Trusted;
  }

  lemma {:induction false} RunGood(w: World, events: seq<Event>)
    requires Feasible(w, events)
    ensures Good(w, Run(w, events)) && Run(w, events).process.ledger.sequence <= |events|
    decreases |events|
  {
    hide Good, Next, Feasible;
    if events == [] {
      StartGood(w);
    } else {
      FeasiblePrefix(w, events);
      RunGood(w, events[..|events| - 1]);
      StepGood(w, events);
    }
  }

  lemma StartGood(w: World)
    ensures Good(w, Start(w)) && Start(w).process.ledger.sequence == 0
  {
    InitialInv(w);
    assert RevokedKeys(w, Initial(w)) == {} && DisabledKeys(w, Initial(w)) == {};
  }

  lemma StepGood(w: World, events: seq<Event>)
    requires Feasible(w, events) && events != []
    requires var t := Run(w, events[..|events| - 1]); Good(w, t) && t.process.ledger.sequence < |events|
    ensures var t, t' := Run(w, events[..|events| - 1]), Run(w, events);
            && Good(w, t') && t'.process.ledger.sequence <= |events|
            && Extends(w, t.process.ledger, t'.process.ledger)
  {
    hide Good, Next, Extends, Inv;
    FeasiblePrefix(w, events);
    NextGood(w, Run(w, events[..|events| - 1]), events[|events| - 1]);
  }

  /** Every ledger reachable by any run, with any crashes and retries, passes the check. */
  lemma ReachableIsConsistent(w: World, events: seq<Event>)
    requires Feasible(w, events)
    ensures Consistent(w, Run(w, events).process.ledger)
  {
    hide Inv, Consistent, Recorded;
    RunGood(w, events);
    InvImpliesConsistent(w, Run(w, events).process.ledger);
  }

  /** The audit sequence counts issued and revoked records, bindings and disabled
      bindings, and revocation lists exported: each exactly once. */
  lemma AuditAccount(w: World, events: seq<Event>)
    requires Feasible(w, events)
    ensures var t := Run(w, events);
            t.process.ledger.sequence == |t.process.ledger.issued| + |RevokedKeys(w, t.process.ledger)|
                                         + |t.process.ledger.bindings| + |DisabledKeys(w, t.process.ledger)| + t.exports
  {
    hide Inv;
    RunGood(w, events);
  }

  /** Later ledgers extend earlier ones. */
  lemma {:induction false} LaterExtends(w: World, events: seq<Event>, k: nat)
    requires Feasible(w, events) && k <= |events|
    ensures Extends(w, Run(w, events[..k]).process.ledger, Run(w, events).process.ledger)
    decreases |events|
  {
    if k == |events| {
      assert events[..k] == events;
    } else {
      hide Extends, Next, Good;
      var before := events[..|events| - 1];
      FeasiblePrefix(w, events);
      assert before[..k] == events[..k];
      LaterExtends(w, before, k);
      RunGood(w, before);
      StepGood(w, events);
      ExtendsTransitive(w, Run(w, events[..k]).process.ledger, Run(w, before).process.ledger,
          Run(w, events).process.ledger);
    }
  }
}
