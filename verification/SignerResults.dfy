/** What the signer's clients rely on: answers that do not change on retry, serial
    numbers, revocation lists, and snapshots that lose no revocation. */
module SignerResults {
  import opened Text
  import opened Signer
  import opened SignerInvariant
  import opened SignerSteps
  import opened SignerService
  import opened SignerRuns

  // ---------- serial numbers ----------

  lemma Pow10Of39()
    ensures Pow10(39) >= 0x1_0000_0000_0000_0000_0000_0000_0000_0000
  {
    Pow10Of20();
    Pow10Add(19, 20);
    assert Pow10(20) == 10 * Pow10(19);
  }

  lemma DecimalParses(n: nat)
    ensures ParseInteger(Decimal(n)) == Some(n)
  {
    DecimalValue(n);
    assert IsDigit(Decimal(n)[0]);
  }

  /** Every certificate number prints as a serial that revocation accepts, in at most 39
      of the 40 characters allowed, and different certificates have different serials. */
  lemma SerialNumbers(id: Uuid, other: Uuid)
    requires id != 0
    ensures AcceptedSerial(Decimal(id)) && |Decimal(id)| <= 39
    ensures Decimal(id) == Decimal(other) <==> id == other
  {
    Pow10Of39();
    DecimalLength(id, 39);
    DecimalParses(id);
    if Decimal(id) == Decimal(other) {
      DecimalInjective(id, other);
    }
  }

  // ---------- retries ----------

  /** Signing again with the same CSR gives the same record and writes nothing, whatever
      the authority would answer now; with another CSR it is refused. */
  lemma SignTwice(w: World, l: Ledger, id: Uuid, der: Bytes, minted: Result<string>, at: int,
                  der': Bytes, minted': Result<string>, at': int)
    requires Trusted(w) && Numbered(l.audit, l.sequence) && Indexed(w, l) && l.sequence + 1 < TWO64
    requires SignStep(w, l, id, der, minted, at).1.Ok?
    ensures var (l', first) := SignStep(w, l, id, der, minted, at);
            SignStep(w, l', id, der', minted', at')
                == (l', if w.digest(der') == w.digest(der) then first else Err(Status(409)))
  {
    var key := w.uuidText(id);
    if key !in l.issued {
      hide Record, Decimal, Indexed, Numbered, AuditKey;
      var record := Issuance(der, w.digest(der), minted.value, Decimal(id), "", None);
      RecordKeeps(w, l, Issued, key, w.encodeIssuance(record), AuditEntry("issue", key, at));
      assert w.decodeIssuance(w.encodeIssuance(record)) == Some(record);
    }
  }

  lemma RevokeTwice(w: World, l: Ledger, id: string, serial: string, reason: string, at: int, reason': string, at': int)
    requires Trusted(w) && Numbered(l.audit, l.sequence) && Indexed(w, l) && l.sequence + 1 < TWO64
    requires RevokeStep(w, l, id, serial, reason, at).1.Ok?
    ensures var l' := RevokeStep(w, l, id, serial, reason, at).0;
            RevokeStep(w, l', id, serial, reason', at') == (l', if reason' == reason then Ok(()) else Err(Status(409)))
  {
    var stored := w.decodeIssuance(l.issued[id]).value;
    if stored.revokedAt.None? {
      hide Record, Indexed, Numbered, AuditKey;
      var record := stored.(reason := reason, revokedAt := Some(at));
      RecordKeeps(w, l, Issued, id, w.encodeIssuance(record), AuditEntry("revoke", id, at));
      assert w.decodeIssuance(w.encodeIssuance(record)) == Some(record);
    }
  }

  /** A binding imported again under a later export date is the same binding. */
  lemma ImportTwice(w: World, l: Ledger, b: Binding, at: int, exportedAt: int, at': int)
    requires Trusted(w) && Numbered(l.audit, l.sequence) && Indexed(w, l) && l.sequence + 1 < TWO64
    requires !b.disabled && b.nodeId !in l.bindings
    ensures var l' := StoreBinding(w, l, b, at).0;
            StoreBinding(w, l', b.(exportedAt := exportedAt), at') == (l', Ok(()))
  {
    hide Record, Indexed, Numbered, AuditKey;
    RecordKeeps(w, l, Bindings, b.nodeId, w.encodeBinding(b), AuditEntry("import:" + b.approvalId, b.nodeId, at));
    assert w.decodeBinding(w.encodeBinding(b)) == Some(b);
    assert b.(exportedAt := exportedAt).(exportedAt := b.exportedAt) == b;
  }

  /** Once disabled, a binding stays disabled: disabling again writes nothing, and no
      import replaces it. */
  lemma DisabledForGood(w: World, l: Ledger, node: string, at: int, b: Binding, at': int)
    requires Trusted(w) && Numbered(l.audit, l.sequence) && Indexed(w, l) && l.sequence + 1 < TWO64
    requires DisableStep(w, l, node, at).1.Ok? && b.nodeId == node
    ensures var l' := DisableStep(w, l, node, at).0;
            DisableStep(w, l', node, at') == (l', Ok(())) && StoreBinding(w, l', b, at') == (l', Err(Other))
  {
    hide Record, Indexed, Numbered, AuditKey;
    var stored := w.decodeBinding(Get(l.bindings, node)).value;
    if !stored.disabled {
      var record := stored.(disabled := true);
      RecordKeeps(w, l, Bindings, node, w.encodeBinding(record), AuditEntry("disable", node, at));
      assert w.decodeBinding(w.encodeBinding(record)) == Some(record);
    }
  }

  // ---------- answers over a run ----------

  /** What was answered is what the ledger holds. */
  predicate Stands(w: World, l: Ledger, reply: SignReply) {
    reply.id in l.issued &&
    var r := w.decodeIssuance(l.issued[reply.id]);
    r.Some? && r.value.chain == reply.chain && r.value.digest == reply.digest
  }

  lemma StandsLater(w: World, l: Ledger, l': Ledger, reply: SignReply)
    requires Stands(w, l, reply) && Extends(w, l, l')
    ensures Stands(w, l', reply)
  {
    assert IssuanceKept(w, l.issued[reply.id], l'.issued[reply.id]);
  }

  lemma SignLeavesRecord(w: World, l: Ledger, id: Uuid, der: Bytes, minted: Result<string>, at: int)
    requires Trusted(w) && Indexed(w, l) && Numbered(l.audit, l.sequence) && l.sequence + 1 < TWO64
    requires SignStep(w, l, id, der, minted, at).1.Ok?
    ensures var (l', result) := SignStep(w, l, id, der, minted, at);
            w.uuidText(id) in l'.issued && w.decodeIssuance(l'.issued[w.uuidText(id)]) == Some(result.value)
  {
    var key := w.uuidText(id);
    if key !in l.issued {
      hide Record, Decimal, Indexed, Numbered, AuditKey;
      var record := Issuance(der, w.digest(der), minted.value, Decimal(id), "", None);
      RecordKeeps(w, l, Issued, key, w.encodeIssuance(record), AuditEntry("issue", key, at));
      assert w.decodeIssuance(w.encodeIssuance(record)) == Some(record);
    }
  }

  lemma SignedStands(w: World, p: Process, e: Event)
    requires Trusted(w) && Inv(w, p.ledger) && p.ledger.sequence + 1 < TWO64 && e.Http? && Signed(w, p, e).Some?
    ensures var (p', response) := Handle(w, p, e.q, e.minted, e.at, e.fate);
            var record := Signed(w, p, e).value;
            && response == Some(Response(200, record.chain))
            && Stands(w, p'.ledger, SignReply(e.q.id, record.chain, record.digest))
  {
    hide SignStep, Indexed, Numbered, RecordsSound, RevocationsStand, Utf8Length, AcceptedSerial, RevokeAttempt;
    SignLeavesRecord(w, p.ledger, w.parseUuid(e.q.id).value, e.q.der.value, e.minted, e.at);
  }

  lemma RepliesNext(w: World, t: Trace, e: Event)
    requires Trusted(w) && Good(w, t) && Admissible(w, e) && t.process.ledger.sequence + 1 < TWO64
    requires forall i | 0 <= i < |t.replies| :: Stands(w, t.process.ledger, t.replies[i])
    ensures forall i | 0 <= i < |Next(w, t, e).replies|
            :: Stands(w, Next(w, t, e).process.ledger, Next(w, t, e).replies[i])
  {
    hide Stands, Inv, Extends, Handle, Signed, NextLedger, CrlStep, Recorded;
    var t' := Next(w, t, e);
    NextGood(w, t, e);
    forall i | 0 <= i < |t.replies| ensures Stands(w, t'.process.ledger, t.replies[i]) {
      StandsLater(w, t.process.ledger, t'.process.ledger, t.replies[i]);
    }
    if e.Http? && Signed(w, t.process, e).Some? {
      SignedStands(w, t.process, e);
    }
  }

  lemma {:induction false} RepliesStand(w: World, events: seq<Event>)
    requires Feasible(w, events)
    ensures var t := Run(w, events); forall i | 0 <= i < |t.replies| :: Stands(w, t.process.ledger, t.replies[i])
    decreases |events|
  {
    if events != [] {
      hide Stands, Good, Next, Feasible;
      FeasiblePrefix(w, events);
      RepliesStand(w, events[..|events| - 1]);
      RunGood(w, events[..|events| - 1]);
      FeasibleFacts(w, events);
      RepliesNext(w, Run(w, events[..|events| - 1]), events[|events| - 1]);
    }
  }

  /** Whatever crashes and retries lie between them, two successful answers for one
      certificate carry the same chain and answer the same CSR. */
  lemma AnswersAgree(w: World, events: seq<Event>, i: nat, j: nat)
    requires Feasible(w, events)
    requires i < |Run(w, events).replies| && j < |Run(w, events).replies|
    requires Run(w, events).replies[i].id == Run(w, events).replies[j].id
    ensures Run(w, events).replies[i] == Run(w, events).replies[j]
  {
    hide Feasible, Next;
    RepliesStand(w, events);
    var t := Run(w, events);
    assert Stands(w, t.process.ledger, t.replies[i]) && Stands(w, t.process.ledger, t.replies[j]);
  }

  lemma FeasibleFacts(w: World, events: seq<Event>)
    requires Feasible(w, events)
    ensures Trusted(w) && |events| < TWO64
  {}

  // ---------- revocation lists ----------

  lemma SoundIsListable(w: World, l: Ledger)
    requires RecordsSound(w, l)
    ensures forall key | key in l.issued :: Listable(w, l.issued[key])
  {
    forall key | key in l.issued ensures Listable(w, l.issued[key]) {
      assert IssuanceSound(w, key, l.issued[key]);
      DecimalParses(w.parseUuid(key).value);
    }
  }

  /** The certificate with this number is on record as revoked at this time. */
  ghost predicate RevokedAt(w: World, l: Ledger, id: Uuid, at: int) {
    w.uuidText(id) in l.issued &&
    var r := w.decodeIssuance(l.issued[w.uuidText(id)]);
    r.Some? && r.value.revokedAt == Some(at)
  }

  lemma EntryNumber(w: World, key: string, data: Bytes)
    requires IssuanceSound(w, key, data) && IsRevoked(w, data)
    ensures Listable(w, data) && w.parseUuid(key).Some? && EntryOf(w, data).serial == w.parseUuid(key).value
    ensures w.uuidText(w.parseUuid(key).value) == key
  {
    DecimalParses(w.parseUuid(key).value);
  }

  /** A revocation list can always be made; its number is the next audit number, and it
      lists exactly the revoked certificates with the time each was revoked. */
  lemma CrlIsExact(w: World, l: Ledger, at: int, e: RevokedEntry)
    requires Trusted(w) && Inv(w, l) && l.sequence + 1 < TWO64
    ensures CrlStep(w, l, at).1.Ok?
    ensures CrlStep(w, l, at).0.sequence == CrlStep(w, l, at).1.value.number == l.sequence + 1
    ensures e in CrlStep(w, l, at).1.value.entries <==> exists id: Uuid :: e.serial == id && RevokedAt(w, l, id, e.at)
  {
    hide AppendAudit, Indexed, Numbered, IssuanceSound, RevocationsStand;
    SoundIsListable(w, l);
    AppendFields(w, l, AuditEntry("crl", w.issuer, at));
    var entries := Entries(w, l);
    assert CrlStep(w, l, at).1 == Ok(Crl(l.sequence + 1, entries));
    if e in entries {
      EntryHasRecord(w, l, e);
    }
    if id: Uuid :| e.serial == id && RevokedAt(w, l, id, e.at) {
      RecordHasEntry(w, l, id, e.at);
    }
  }

  lemma EntryHasRecord(w: World, l: Ledger, e: RevokedEntry)
    requires RecordsSound(w, l) && (forall key | key in l.issued :: Listable(w, l.issued[key])) && e in Entries(w, l)
    ensures exists id: Uuid :: e.serial == id && RevokedAt(w, l, id, e.at)
  {
    hide IssuanceSound;
    var key :| key in l.issued && IsRevoked(w, l.issued[key]) && e == EntryOf(w, l.issued[key]);
    EntryNumber(w, key, l.issued[key]);
    assert RevokedAt(w, l, w.parseUuid(key).value, e.at);
  }

  lemma RecordHasEntry(w: World, l: Ledger, id: Uuid, at: int)
    requires Trusted(w) && RecordsSound(w, l) && (forall key | key in l.issued :: Listable(w, l.issued[key]))
    requires RevokedAt(w, l, id, at)
    ensures RevokedEntry(id, at) in Entries(w, l)
  {
    hide IssuanceSound;
    var key := w.uuidText(id);
    assert w.parseUuid(key) == Some(id);
    EntryNumber(w, key, l.issued[key]);
    assert EntryOf(w, l.issued[key]) == RevokedEntry(id, at);
  }

  lemma EntriesGrow(w: World, l: Ledger, l': Ledger)
    requires RecordsSound(w, l) && RecordsSound(w, l') && Extends(w, l, l')
    ensures forall key | key in l.issued :: Listable(w, l.issued[key])
    ensures forall key | key in l'.issued :: Listable(w, l'.issued[key])
    ensures Entries(w, l) <= Entries(w, l')
  {
    hide IssuanceSound;
    SoundIsListable(w, l);
    SoundIsListable(w, l');
    forall key | key in l.issued && IsRevoked(w, l.issued[key])
      ensures EntryOf(w, l.issued[key]) in Entries(w, l')
    {
      assert IssuanceKept(w, l.issued[key], l'.issued[key]);
      assert l'.issued[key] == l.issued[key];
    }
  }

  ghost predicate Listed(w: World, l: Ledger, c: Crl) {
    && c.number <= l.sequence
    && (forall key | key in l.issued :: Listable(w, l.issued[key]))
    && c.entries <= Entries(w, l)
  }

  /** Lists published so far are in order, and the ledger still stands behind them. */
  ghost predicate InOrder(w: World, l: Ledger, crls: seq<Crl>) {
    && (forall i | 0 <= i < |crls| :: Listed(w, l, crls[i]))
    && (forall i, j | 0 <= i < j < |crls| :: crls[i].number < crls[j].number && crls[i].entries <= crls[j].entries)
  }

  lemma InOrderLater(w: World, l: Ledger, l': Ledger, crls: seq<Crl>)
    requires InOrder(w, l, crls) && RecordsSound(w, l) && RecordsSound(w, l') && Extends(w, l, l')
    ensures InOrder(w, l', crls)
  {
    hide RecordsSound, Entries, Listable;
    EntriesGrow(w, l, l');
    assert l.sequence <= l'.sequence;
    forall i | 0 <= i < |crls| ensures Listed(w, l', crls[i]) {
      assert Listed(w, l, crls[i]);
    }
  }

  lemma CrlsNext(w: World, t: Trace, e: Event)
    requires Trusted(w) && Good(w, t) && Admissible(w, e) && t.process.ledger.sequence + 1 < TWO64
    requires InOrder(w, t.process.ledger, t.crls)
    ensures InOrder(w, Next(w, t, e).process.ledger, Next(w, t, e).crls)
  {
    hide Indexed, Numbered, RecordsSound, RevocationsStand, Extends, InOrder, Handle, Signed, ImportStep, DisableStep,
         Recorded;
    var l, l' := t.process.ledger, Next(w, t, e).process.ledger;
    NextGood(w, t, e);
    InOrderLater(w, l, l', t.crls);
    if e.ExportCrl? && e.committed && e.published {
      PublishedNext(w, l, e.at, t.crls);
    }
  }

  lemma PublishedNext(w: World, l: Ledger, at: int, crls: seq<Crl>)
    requires Trusted(w) && Inv(w, l) && l.sequence + 1 < TWO64 && InOrder(w, l, crls)
    requires InOrder(w, CrlStep(w, l, at).0, crls)
    ensures CrlStep(w, l, at).1.Ok? && InOrder(w, CrlStep(w, l, at).0, crls + [CrlStep(w, l, at).1.value])
  {
    hide Indexed, Numbered, RevocationsStand, AppendAudit, Entries, Listable, IssuanceSound;
    SoundIsListable(w, l);
    AppendFields(w, l, AuditEntry("crl", w.issuer, at));
    var (l', result) := CrlStep(w, l, at);
    assert l'.issued == l.issued;
    SameEntries(w, l, l');
    assert Listed(w, l', result.value);
    forall i | 0 <= i < |crls| ensures crls[i].number < result.value.number && crls[i].entries <= result.value.entries {
      assert Listed(w, l, crls[i]);
    }
  }

  lemma SameEntries(w: World, l: Ledger, l': Ledger)
    requires l'.issued == l.issued && forall key | key in l.issued :: Listable(w, l.issued[key])
    ensures forall key | key in l'.issued :: Listable(w, l'.issued[key])
    ensures Entries(w, l') == Entries(w, l)
  {}

  lemma {:induction false} CrlsInOrder(w: World, events: seq<Event>)
    requires Feasible(w, events)
    ensures InOrder(w, Run(w, events).process.ledger, Run(w, events).crls)
    decreases |events|
  {
    if events != [] {
      hide InOrder, Good, Next, Feasible;
      FeasiblePrefix(w, events);
      CrlsInOrder(w, events[..|events| - 1]);
      RunGood(w, events[..|events| - 1]);
      FeasibleFacts(w, events);
      CrlsNext(w, Run(w, events[..|events| - 1]), events[|events| - 1]);
    }
  }

  /** Revocation lists carry strictly increasing numbers, and a later list contains every
      entry of an earlier one, with the same time. */
  lemma CrlHistory(w: World, events: seq<Event>, i: nat, j: nat)
    requires Feasible(w, events) && i < j < |Run(w, events).crls|
    ensures var crls := Run(w, events).crls; crls[i].number < crls[j].number && crls[i].entries <= crls[j].entries
  {
    hide Feasible, Next, Listed;
    CrlsInOrder(w, events);
  }

  // ---------- snapshots ----------

  /** The entry number `n` of the audit trail records the revocation of `id`. */
  predicate AuditedRevocation(w: World, l: Ledger, n: nat, id: string) {
    AuditKey(n) in l.audit &&
    var entry := w.decodeAudit(l.audit[AuditKey(n)]);
    entry.Some? && entry.value.action == "revoke" && entry.value.id == id
  }

  /** A snapshot of an earlier point of the same history, accepted with minimum `m`, holds
      every revocation that history ever audits at or before `m`, and the next revocation
      list made from it has a number above `m`. */
  lemma SnapshotKeepsRevocations(w: World, events: seq<Event>, k: nat, m: int, n: nat, id: string, at: int)
    requires Feasible(w, events) && k <= |events| < TWO64 - 1 && RestoreAccepts(Run(w, events[..k]).process.ledger, m)
    requires 1 <= n <= m && AuditedRevocation(w, Run(w, events).process.ledger, n, id)
    ensures var snapshot := Run(w, events[..k]).process.ledger;
            && id in snapshot.issued && IsRevoked(w, snapshot.issued[id])
            && CrlStep(w, snapshot, at).1.Ok? && CrlStep(w, snapshot, at).1.value.number > m
  {
    hide AuditKey, Next, Indexed, RecordsSound, CrlStep, IsRevoked, Recorded;
    var before := events[..k];
    FeasibleFacts(w, events);
    FeasibleTake(w, events, k);
    RunGood(w, before);
    var snapshot := Run(w, before).process.ledger;
    LaterExtends(w, events, k);
    assert AuditKey(n) in snapshot.audit;
    CrlIsExact(w, snapshot, at, RevokedEntry(0, 0));
  }

  lemma FeasibleTake(w: World, events: seq<Event>, k: nat)
    requires Feasible(w, events) && k <= |events|
    ensures Feasible(w, events[..k])
  {
    hide Admissible, Trusted;
  }
}
