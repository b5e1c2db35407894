/** The ledger with its buckets, digests and audit numbers is exactly the register of
    `SignerBook`, through every history of requests, crashes and restarts. */
module SignerRefinement {
  import opened Text
  import opened Signer
  import opened SignerInvariant
  import opened SignerSteps
  import opened SignerService
  import opened SignerRuns
  import opened SignerResults
  import opened SignerBook

  /** The record of a card. */
  function RecordOf(w: World, id: string, c: Card): Issuance
    requires w.parseUuid(id).Some?
  {
    Issuance(c.csr, w.digest(c.csr), c.chain, Decimal(w.parseUuid(id).value),
             if c.revoked.Some? then c.revoked.value.reason else "",
             if c.revoked.Some? then Some(c.revoked.value.at) else None)
  }

  ghost predicate ShowsCards(w: World, issued: map<string, Bytes>, cards: map<string, Card>) {
    && issued.Keys == cards.Keys
    && forall id | id in cards :: w.parseUuid(id).Some? && issued[id] == w.encodeIssuance(RecordOf(w, id, cards[id]))
  }

  ghost predicate ShowsNodes(w: World, bindings: map<string, Bytes>, nodes: map<string, Binding>) {
    && bindings.Keys == nodes.Keys
    && forall node | node in nodes :: nodes[node].nodeId == node && bindings[node] == w.encodeBinding(nodes[node])
  }

  ghost predicate ShowsLog(w: World, audit: map<string, Bytes>, sequence: nat, log: seq<AuditEntry>) {
    && sequence == |log|
    && forall i | 0 <= i < |log| :: AuditKey(i + 1) in audit && audit[AuditKey(i + 1)] == w.encodeAudit(log[i])
  }

  /** The file holds the book and nothing else; with `Inv`, which gives the digest index and
      the numbering, this fixes every byte of it. */
  ghost predicate Shows(w: World, l: Ledger, b: Book) {
    ShowsCards(w, l.issued, b.cards) && ShowsNodes(w, l.bindings, b.nodes) && ShowsLog(w, l.audit, l.sequence, b.log)
  }

  // ---------- request text ----------

  lemma UuidIs(w: World, s: string)
    requires Trusted(w)
    ensures ValidUuid(w, s) <==> IsUuid(w, s)
  {
    if id: Uuid :| id != 0 && w.uuidText(id) == s {
      assert w.parseUuid(w.uuidText(id)) == Some(id);
    }
  }

  lemma SerialIs(s: string)
    ensures AcceptedSerial(s) <==> IsSerial(s)
  {
    if n: nat :| n > 0 && s == Decimal(n) {
      DecimalParses(n);
    }
  }

  lemma ProperSignIs(w: World, q: Request)
    requires Trusted(w)
    ensures GoodSign(w, q) <==> ProperSign(w, q)
  {
    hide ValidUuid, IsUuid, Trusted;
    UuidIs(w, q.id);
  }

  lemma ProperRevokeIs(w: World, q: Request)
    requires Trusted(w)
    ensures GoodRevoke(w, q) <==> ProperRevoke(w, q)
  {
    hide ValidUuid, IsUuid, Trusted, AcceptedSerial, IsSerial, Utf8Length, IsSpace;
    UuidIs(w, q.id);
    SerialIs(q.serial);
  }

  // ---------- one record, one log entry ----------

  lemma LogGrows(w: World, audit: map<string, Bytes>, sequence: nat, log: seq<AuditEntry>, entry: AuditEntry)
    requires ShowsLog(w, audit, sequence, log) && Numbered(audit, sequence) && sequence + 1 < TWO64
    ensures ShowsLog(w, audit[AuditKey(sequence + 1) := w.encodeAudit(entry)], sequence + 1, log + [entry])
  {
    hide AuditKey;
    NumberedNext(audit, sequence, w.encodeAudit(entry));
  }

  lemma RecordShowsCard(w: World, l: Ledger, b: Book, id: string, c: Card, action: string, at: int)
    requires Inv(w, l) && l.sequence + 1 < TWO64 && Shows(w, l, b) && w.parseUuid(id).Some?
    ensures Shows(w, Record(w, l, Issued, id, w.encodeIssuance(RecordOf(w, id, c)), AuditEntry(action, id, at)),
                  Noted(b.(cards := b.cards[id := c]), action, id, at))
  {
    hide Record, Indexed, Numbered, RecordsSound, RevocationsStand, ShowsLog, RecordOf, ShowsNodes;
    RecordKeeps(w, l, Issued, id, w.encodeIssuance(RecordOf(w, id, c)), AuditEntry(action, id, at));
    LogGrows(w, l.audit, l.sequence, b.log, AuditEntry(action, id, at));
  }

  lemma RecordShowsNode(w: World, l: Ledger, b: Book, n: Binding, action: string, at: int)
    requires Inv(w, l) && l.sequence + 1 < TWO64 && Shows(w, l, b)
    ensures Shows(w, Record(w, l, Bindings, n.nodeId, w.encodeBinding(n), AuditEntry(action, n.nodeId, at)),
                  Noted(b.(nodes := b.nodes[n.nodeId := n]), action, n.nodeId, at))
  {
    hide Record, Indexed, Numbered, RecordsSound, RevocationsStand, ShowsLog, ShowsCards;
    RecordKeeps(w, l, Bindings, n.nodeId, w.encodeBinding(n), AuditEntry(action, n.nodeId, at));
    LogGrows(w, l.audit, l.sequence, b.log, AuditEntry(action, n.nodeId, at));
  }

  lemma CardIs(w: World, l: Ledger, b: Book, id: string)
    requires Trusted(w) && Shows(w, l, b)
    ensures id in l.issued <==> id in b.cards
    ensures id in l.issued ==> w.parseUuid(id).Some?
                               && w.decodeIssuance(l.issued[id]) == Some(RecordOf(w, id, b.cards[id]))
  {
    hide ShowsNodes, ShowsLog, RecordOf;
    if id in b.cards {
      var r := RecordOf(w, id, b.cards[id]);
      assert w.decodeIssuance(w.encodeIssuance(r)) == Some(r);
    }
  }

  lemma NodeIs(w: World, l: Ledger, b: Book, node: string)
    requires Trusted(w) && Shows(w, l, b)
    ensures node in l.bindings <==> node in b.nodes
    ensures w.decodeBinding(Get(l.bindings, node)) == if node in b.nodes then Some(b.nodes[node]) else None
    ensures node in b.nodes ==> b.nodes[node].nodeId == node && l.bindings[node] == w.encodeBinding(b.nodes[node])
  {
    hide ShowsCards, ShowsLog;
    if node in b.nodes {
      assert w.decodeBinding(w.encodeBinding(b.nodes[node])) == Some(b.nodes[node]);
    }
  }

  // ---------- each operation ----------

  /** The same verdict, and a ledger that shows the book. */
  ghost predicate Agrees<T>(w: World, l: Ledger, r: Result<T>, b: Book, verdict: Result<string>) {
    && Shows(w, l, b) && r.Ok? == verdict.Ok? && (r.Err? ==> r.error == verdict.error)
  }

  lemma SignAgrees(w: World, l: Ledger, b: Book, id: Uuid, der: Bytes, minted: Result<string>, at: int)
    requires Trusted(w) && Inv(w, l) && l.sequence + 1 < TWO64 && Shows(w, l, b)
    ensures var (l', r) := SignStep(w, l, id, der, minted, at);
            var (b', verdict) := SignBook(w, b, w.uuidText(id), der, minted, at);
            Agrees(w, l', r, b', verdict) && (r.Ok? ==> r.value.chain == verdict.value)
  {
    hide Record, Inv, Shows, Decimal;
    var key := w.uuidText(id);
    CardIs(w, l, b, key);
    assert w.parseUuid(key) == Some(id);
    if key !in l.issued && w.parseCsr(der).Some? && minted.Ok? {
      RecordShowsCard(w, l, b, key, Card(der, minted.value, None), "issue", at);
    }
  }

  lemma RevokeAgrees(w: World, l: Ledger, b: Book, id: string, serial: string, reason: string, at: int)
    requires Trusted(w) && Inv(w, l) && l.sequence + 1 < TWO64 && Shows(w, l, b)
    ensures var (l', r) := RevokeStep(w, l, id, serial, reason, at);
            var (b', verdict) := RevokeBook(w, b, id, serial, reason, at);
            && Agrees(w, l', r, b', verdict) && (verdict.Ok? ==> verdict.value == "")
            && (r.Ok? ==> id in l.issued && (b' != b <==> !IsRevoked(w, l.issued[id])))
  {
    hide Record, Inv, Shows, Decimal;
    CardIs(w, l, b, id);
    if id in l.issued {
      var c := b.cards[id];
      if serial == Decimal(w.parseUuid(id).value) && c.revoked.None? {
        var c' := c.(revoked := Some(Revocation(reason, at)));
        assert RecordOf(w, id, c') == RecordOf(w, id, c).(reason := reason, revokedAt := Some(at));
        RecordShowsCard(w, l, b, id, c', "revoke", at);
        assert |Noted(b, "revoke", id, at).log| == |b.log| + 1;
      }
    }
  }

  lemma HandleAgrees(w: World, p: Process, b: Book, e: Event)
    requires Trusted(w) && Inv(w, p.ledger) && p.ledger.sequence + 1 < TWO64 && Shows(w, p.ledger, b)
    requires p.failed == b.failed && e.Http?
    ensures var (p', response) := Handle(w, p, e.q, e.minted, e.at, e.fate);
            var (b', heard) := Respond(w, b, e.q, e.minted, e.at, e.fate);
            Shows(w, p'.ledger, b') && p'.failed == b'.failed && response == heard
  {
    hide Inv, Shows, SignStep, RevokeStep, SignBook, RevokeBook, GoodSign, GoodRevoke, ProperSign, ProperRevoke;
    ProperSignIs(w, e.q);
    ProperRevokeIs(w, e.q);
    if p.failed {
    } else if e.q.revoke {
      if GoodRevoke(w, e.q) {
        RevokeHandled(w, p, b, e);
      }
    } else if GoodSign(w, e.q) {
      SignHandled(w, p, b, e);
    }
  }

  lemma RevokeHandled(w: World, p: Process, b: Book, e: Event)
    requires Trusted(w) && Inv(w, p.ledger) && p.ledger.sequence + 1 < TWO64 && Shows(w, p.ledger, b)
    requires !p.failed && !b.failed && e.Http? && e.q.revoke && GoodRevoke(w, e.q)
    ensures var (p', response) := Handle(w, p, e.q, e.minted, e.at, e.fate);
            var (b', heard) := Respond(w, b, e.q, e.minted, e.at, e.fate);
            Shows(w, p'.ledger, b') && p'.failed == b'.failed && response == heard
  {
    hide Inv, Shows, RevokeStep, GoodRevoke, ProperRevoke, IsRevoked;
    ProperRevokeIs(w, e.q);
    RevokeAgrees(w, p.ledger, b, e.q.id, e.q.serial, e.q.reason, e.at);
    RevokeKeepsLatch(w, b, e.q.id, e.q.serial, e.q.reason, e.at);
    FailedIsFree(w, p.ledger, b);
    hide RevokeBook;
    var (l', r) := RevokeStep(w, p.ledger, e.q.id, e.q.serial, e.q.reason, e.at);
    var done := RevokeBook(w, b, e.q.id, e.q.serial, e.q.reason, e.at);
    var a := RevokeAttempt(w, p.ledger, e.q.id, e.q.serial, e.q.reason, e.at, e.fate);
    var dies := done.0 != b && e.fate == CrashCommit;
    assert if dies then a == Attempt(p.ledger, None) else a == Finish(p.ledger, l', r, e.fate);
    assert Respond(w, b, e.q, e.minted, e.at, e.fate) == Heard(b, done, 204, e.fate, dies);
  }

  lemma FailedIsFree(w: World, l: Ledger, b: Book)
    requires Shows(w, l, b)
    ensures Shows(w, l, b.(failed := true))
  {}

  lemma RevokeKeepsLatch(w: World, b: Book, id: string, serial: string, reason: string, at: int)
    ensures var (b', verdict) := RevokeBook(w, b, id, serial, reason, at);
            b'.failed == b.failed && (verdict.Err? ==> b' == b)
  {}

  lemma SignKeepsLatch(w: World, b: Book, id: string, der: Bytes, minted: Result<string>, at: int)
    ensures var (b', verdict) := SignBook(w, b, id, der, minted, at);
            b'.failed == b.failed && (verdict.Err? ==> b' == b)
  {}

  lemma SignHandled(w: World, p: Process, b: Book, e: Event)
    requires Trusted(w) && Inv(w, p.ledger) && p.ledger.sequence + 1 < TWO64 && Shows(w, p.ledger, b)
    requires !p.failed && !b.failed && e.Http? && !e.q.revoke && GoodSign(w, e.q)
    ensures var (p', response) := Handle(w, p, e.q, e.minted, e.at, e.fate);
            var (b', heard) := Respond(w, b, e.q, e.minted, e.at, e.fate);
            Shows(w, p'.ledger, b') && p'.failed == b'.failed && response == heard
  {
    hide Inv, Shows, SignStep, ProperSign;
    ProperSignIs(w, e.q);
    var id := w.parseUuid(e.q.id).value;
    assert w.uuidText(id) == e.q.id;
    SignAgrees(w, p.ledger, b, id, e.q.der.value, e.minted, e.at);
    SignKeepsLatch(w, b, e.q.id, e.q.der.value, e.minted, e.at);
    CardIs(w, p.ledger, b, e.q.id);
    FailedIsFree(w, p.ledger, b);
    hide SignBook;
    var (l', r) := SignStep(w, p.ledger, id, e.q.der.value, e.minted, e.at);
    var done := SignBook(w, b, e.q.id, e.q.der.value, e.minted, e.at);
    var a := SignAttempt(w, p.ledger, id, e.q.der.value, e.minted, e.at, e.fate);
    var dies := SignDies(w, b, e.q.id, e.q.der.value, e.minted, e.fate);
    assert if dies then a == Attempt(p.ledger, None) else a == Finish(p.ledger, l', r, e.fate);
    assert Respond(w, b, e.q, e.minted, e.at, e.fate) == Heard(b, done, 200, e.fate, dies);
  }

  // ---------- bindings ----------

  lemma KeyIs(w: World, k: Descriptor)
    ensures ValidDescriptor(w, k)
            <==> GoodKey(w, k) && (k.purpose == "user_password" || k.purpose == "certificate_p12_password")
  {
    assert forall i | 0 <= i < |k.keyId| ::
             (33 as char <= k.keyId[i] <= 126 as char && k.keyId[i] != '/' && k.keyId[i] != '\\')
             <==> (33 <= k.keyId[i] as int <= 126 && k.keyId[i] as int !in {47, 92});
  }

  lemma TwoPurposes(p: string, q: string)
    ensures {p, q} == {"user_password", "certificate_p12_password"}
            <==> SealPurpose(p) && SealPurpose(q) && p != q
  {
    assert "user_password"[0] != "certificate_p12_password"[0];
    if {p, q} == {"user_password", "certificate_p12_password"} {
      assert p in {p, q} && q in {p, q} && "user_password" in {p, q} && "certificate_p12_password" in {p, q};
    }
  }

  lemma BindingIs(w: World, b: Binding)
    requires Trusted(w)
    ensures ValidBinding(w, b) <==> GoodBinding(w, b)
  {
    hide Trusted, ValidUuid, IsUuid, ValidDescriptor, GoodKey, Hex64;
    UuidIs(w, b.workspaceId);
    UuidIs(w, b.nodeId);
    UuidIs(w, b.approvalId);
    if |b.keys| == 2 {
      KeyIs(w, b.keys[0]);
      KeyIs(w, b.keys[1]);
      TwoPurposes(b.keys[0].purpose, b.keys[1].purpose);
    }
  }

  lemma KeyIsTaken(w: World, k: Descriptor, exported: seq<Descriptor>)
    requires |exported| == 2
    ensures FillKey(w, k, exported) == Taken(w, k, exported)
  {
    assert exported[..1][..0] == [];
    assert FillKey(w, k, exported[..1])
           == if KeyMatches(w, k, exported[0]) then Some(k.(der := exported[0].der)) else FillKey(w, k, []);
    assert exported[..|exported| - 1] == exported[..1];
  }

  lemma FilledIs(w: World, approved: Binding, exported: Binding, now: int, later: int)
    requires Trusted(w) && |approved.keys| == 2 && |exported.keys| == 2
    ensures var first := FillKey(w, approved.keys[0], exported.keys);
            var second := FillKey(w, approved.keys[1], exported.keys);
            Completed(w, approved, exported, now, later)
            == if FreshExport(approved, exported, now, later) && first.Some? && second.Some?
                  && ValidBinding(w, approved.(keys := [first.value, second.value]))
               then Some(approved.(keys := [first.value, second.value])) else None
  {
    hide Trusted, FillKey, Taken, ValidBinding, GoodBinding;
    KeyIsTaken(w, approved.keys[0], exported.keys);
    KeyIsTaken(w, approved.keys[1], exported.keys);
    var first, second := FillKey(w, approved.keys[0], exported.keys), FillKey(w, approved.keys[1], exported.keys);
    if first.Some? && second.Some? {
      BindingIs(w, approved.(keys := [first.value, second.value]));
    }
  }

  lemma StoreAgrees(w: World, l: Ledger, b: Book, n: Binding, at: int)
    requires Trusted(w) && Inv(w, l) && l.sequence + 1 < TWO64 && Shows(w, l, b)
    ensures var (l', r) := StoreBinding(w, l, n, at);
            if n.nodeId in b.nodes then
              l' == l && (r.Ok? <==> !b.nodes[n.nodeId].disabled && b.nodes[n.nodeId]
                                     == n.(exportedAt := b.nodes[n.nodeId].exportedAt))
            else
              r.Ok? && Shows(w, l', Noted(b.(nodes := b.nodes[n.nodeId := n]), "import:" + n.approvalId, n.nodeId, at))
  {
    hide Record, Inv, Shows;
    NodeIs(w, l, b, n.nodeId);
    if n.nodeId in b.nodes {
      var previous := b.nodes[n.nodeId];
      var same := n.(exportedAt := previous.exportedAt);
      assert w.decodeBinding(w.encodeBinding(same)) == Some(same);
    } else {
      RecordShowsNode(w, l, b, n, "import:" + n.approvalId, at);
    }
  }

  /** An import is accepted exactly when the book says so. */
  lemma ImportAgrees(w: World, l: Ledger, b: Book, approved: Binding, exported: Binding, now: int, later: int, at: int)
    requires Trusted(w) && Inv(w, l) && l.sequence + 1 < TWO64 && Shows(w, l, b)
    ensures var (l', r) := ImportStep(w, l, approved, exported, now, later, at);
            var (b', accepted) := ImportBook(w, b, approved, exported, now, later, at);
            Shows(w, l', b') && r.Ok? == accepted && b'.failed == b.failed
  {
    hide Inv, Shows, StoreBinding, FillKey, ValidBinding, GoodBinding, Taken;
    if |approved.keys| == 2 && |exported.keys| == 2 {
      FilledIs(w, approved, exported, now, later);
      var filled := Completed(w, approved, exported, now, later);
      if filled.Some? {
        StoreAgrees(w, l, b, filled.value, at);
      }
    }
  }

  lemma DisableAgrees(w: World, l: Ledger, b: Book, node: string, at: int)
    requires Trusted(w) && Inv(w, l) && l.sequence + 1 < TWO64 && Shows(w, l, b)
    ensures var (l', r) := DisableStep(w, l, node, at);
            var (b', accepted) := DisableBook(b, node, at);
            Shows(w, l', b') && r.Ok? == accepted && b'.failed == b.failed
  {
    hide Record, Inv, Shows;
    NodeIs(w, l, b, node);
    if node in b.nodes && !b.nodes[node].disabled {
      RecordShowsNode(w, l, b, b.nodes[node].(disabled := true), "disable", at);
    }
  }

  lemma CrlAgrees(w: World, l: Ledger, b: Book, at: int)
    requires Trusted(w) && Inv(w, l) && l.sequence + 1 < TWO64 && Shows(w, l, b)
    ensures Shows(w, CrlStep(w, l, at).0, Noted(b, "crl", w.issuer, at))
  {
    hide AppendAudit, Indexed, Numbered, IssuanceSound, RevocationsStand, ShowsLog, ShowsCards, ShowsNodes, Listable;
    SoundIsListable(w, l);
    AppendFields(w, l, AuditEntry("crl", w.issuer, at));
    LogGrows(w, l.audit, l.sequence, b.log, AuditEntry("crl", w.issuer, at));
  }

  // ---------- histories ----------

  lemma NextAgrees(w: World, t: Trace, b: Book, e: Event)
    requires Trusted(w) && Inv(w, t.process.ledger) && t.process.ledger.sequence + 1 < TWO64
    requires Shows(w, t.process.ledger, b) && t.process.failed == b.failed
    ensures var t', b' := Next(w, t, e), NextBook(w, b, e);
            Shows(w, t'.process.ledger, b') && t'.process.failed == b'.failed
  {
    hide Inv, Shows, ImportStep, ImportBook, DisableStep, DisableBook, CrlStep, Handle, Respond, Signed;
    var l := t.process.ledger;
    match e
    case Http(q, minted, at, fate) => HandleAgrees(w, t.process, b, e);
    case Import(approved, exported, now, later, at, committed) =>
      ImportAgrees(w, l, b, approved, exported, now, later, at);
    case Disable(node, at, committed) => DisableAgrees(w, l, b, node, at);
    case ExportCrl(at, committed, published) => CrlAgrees(w, l, b, at);
    case Restart => RestartShows(w, l, b);
  }

  lemma RestartShows(w: World, l: Ledger, b: Book)
    requires Shows(w, l, b)
    ensures Shows(w, l, b.(failed := false))
  {}

  lemma StartShows(w: World)
    ensures Shows(w, Initial(w), EMPTY)
  {}

  /** After any history the file holds exactly the register of that history. */
  lemma {:induction false} RefinesBook(w: World, events: seq<Event>)
    requires Feasible(w, events)
    ensures var p, b := Run(w, events).process, BookOf(w, events); Shows(w, p.ledger, b) && p.failed == b.failed
    decreases |events|
  {
    hide Feasible, Shows, Inv, Next, NextBook, Recorded;
    if events == [] {
      StartShows(w);
    } else {
      FeasiblePrefix(w, events);
      FeasibleFacts(w, events);
      RefinesBook(w, events[..|events| - 1]);
      RunGood(w, events[..|events| - 1]);
      NextAgrees(w, Run(w, events[..|events| - 1]), BookOf(w, events[..|events| - 1]), events[|events| - 1]);
    }
  }

  /** Every request of every history is answered as the register of that history says. */
  lemma AnsweredByBook(w: World, events: seq<Event>, e: Event)
    requires Feasible(w, events) && |events| + 1 < TWO64 && e.Http?
    ensures Handle(w, Run(w, events).process, e.q, e.minted, e.at, e.fate).1
            == Respond(w, BookOf(w, events), e.q, e.minted, e.at, e.fate).1
  {
    hide Feasible, Shows, Inv, Next, NextBook, Recorded, Handle, Respond;
    FeasibleFacts(w, events);
    RefinesBook(w, events);
    RunGood(w, events);
    HandleAgrees(w, Run(w, events).process, BookOf(w, events), e);
  }

  /** And so is every import. */
  lemma ImportedByBook(w: World, events: seq<Event>, approved: Binding, exported: Binding, now: int, later: int,
                       at: int)
    requires Feasible(w, events) && |events| + 1 < TWO64
    ensures ImportStep(w, Run(w, events).process.ledger, approved, exported, now, later, at).1.Ok?
            == ImportBook(w, BookOf(w, events), approved, exported, now, later, at).1
  {
    hide Feasible, Shows, Inv, Next, NextBook, Recorded, ImportStep, ImportBook;
    FeasibleFacts(w, events);
    RefinesBook(w, events);
    RunGood(w, events);
    ImportAgrees(w, Run(w, events).process.ledger, BookOf(w, events), approved, exported, now, later, at);
  }

  /** The first good request for a certificate is granted: the authority's chain is answered
      and stored, unrevoked, under the number that names it. */
  lemma FirstSignSucceeds(w: World, events: seq<Event>, q: Request, chain: string, at: int)
    requires Feasible(w, events) && |events| + 1 < TWO64 && !Run(w, events).process.failed
    requires ProperSign(w, q) && !q.revoke && q.id !in Run(w, events).process.ledger.issued
    requires w.parseCsr(q.der.value).Some?
    ensures var (p', response) := Handle(w, Run(w, events).process, q, Ok(chain), at, Completes);
            && response == Some(Response(200, chain)) && w.parseUuid(q.id).Some? && q.id in p'.ledger.issued
            && w.decodeIssuance(p'.ledger.issued[q.id])
               == Some(Issuance(q.der.value, w.digest(q.der.value), chain, Decimal(w.parseUuid(q.id).value), "", None))
  {
    hide Feasible, Shows, Inv, Next, NextBook, Recorded, Handle, ProperSign, Decimal, ProperRevoke;
    FeasibleFacts(w, events);
    RefinesBook(w, events);
    RunGood(w, events);
    var p, b := Run(w, events).process, BookOf(w, events);
    CardIs(w, p.ledger, b, q.id);
    HandleAgrees(w, p, b, Http(q, Ok(chain), at, Completes));
    CardIs(w, Handle(w, p, q, Ok(chain), at, Completes).0.ledger,
           Respond(w, b, q, Ok(chain), at, Completes).0, q.id);
  }

  /** Once an error that is no status has been met, everything is answered with 503 until
      the process is started again. */
  lemma {:induction false} StoppedUntilRestart(w: World, events: seq<Event>, more: seq<Event>, e: Event)
    requires Feasible(w, events + more) && |events + more| + 1 < TWO64 && e.Http?
    requires Run(w, events).process.failed && Restart !in more
    ensures Run(w, events + more).process.failed
    ensures Handle(w, Run(w, events + more).process, e.q, e.minted, e.at, e.fate)
            == (Run(w, events + more).process, Some(Response(503, "")))
    decreases |more|
  {
    hide Feasible, CrlStep, ImportStep, DisableStep, Signed, SignAttempt, RevokeAttempt;
    if more == [] {
      assert events + more == events;
    } else {
      var before, last := more[..|more| - 1], more[|more| - 1];
      assert (events + more)[..|events + more| - 1] == events + before;
      FeasiblePrefix(w, events + more);
      StoppedUntilRestart(w, events, before, e);
      assert last in more;
      assert last != Restart;
    }
  }

  /** A snapshot is accepted exactly when its log is as long as required. */
  lemma RestoredByBook(w: World, events: seq<Event>, minimum: int)
    requires Feasible(w, events)
    ensures RestoreAccepts(Run(w, events).process.ledger, minimum) <==> 0 <= minimum <= |BookOf(w, events).log|
  {
    hide Feasible, Next, NextBook, ShowsCards, ShowsNodes;
    RefinesBook(w, events);
  }

  /** A revocation list numbers itself by the log and lists the revoked cards, each with its
      number and the time of its revocation. */
  lemma ListedByBook(w: World, events: seq<Event>, at: int, id: Uuid, when: int)
    requires Feasible(w, events) && |events| + 1 < TWO64
    ensures var crl := CrlStep(w, Run(w, events).process.ledger, at).1;
            && crl.Ok? && crl.value.number == |BookOf(w, events).log| + 1
            && (RevokedEntry(id, when) in crl.value.entries <==>
                  var cards := BookOf(w, events).cards;
                  w.uuidText(id) in cards && cards[w.uuidText(id)].revoked.Some?
                  && cards[w.uuidText(id)].revoked.value.at == when)
  {
    hide Feasible, Inv, Next, NextBook, ShowsCards, ShowsNodes, Recorded, CrlStep, Decimal;
    FeasibleFacts(w, events);
    RefinesBook(w, events);
    RunGood(w, events);
    var l, b := Run(w, events).process.ledger, BookOf(w, events);
    CrlIsExact(w, l, at, RevokedEntry(id, when));
    CardIs(w, l, b, w.uuidText(id));
    assert RevokedAt(w, l, id, when) <==> exists other: Uuid :: id == other && RevokedAt(w, l, other, when);
  }
}
