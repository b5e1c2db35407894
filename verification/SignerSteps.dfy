/** Every transaction of the signer is one of a few lawful changes, and a lawful change
    keeps the invariant, extends the history and is counted once in the audit trail. */
module SignerSteps {
  import opened Text
  import opened Signer
  import opened SignerInvariant

  datatype Change =
    | Nothing
    | Write(bucket: Bucket, key: string, data: Bytes, entry: AuditEntry)
    | Note(entry: AuditEntry)

  function Apply(w: World, l: Ledger, c: Change): Ledger {
    match c
    case Nothing => l
    case Write(b, key, data, entry) => Record(w, l, b, key, data, entry)
    case Note(entry) => AppendAudit(w, l, entry)
  }

  /** The record says the same, except that it is now revoked. */
  predicate Revoking(w: World, before: Bytes, after: Bytes) {
    var r, r' := w.decodeIssuance(before), w.decodeIssuance(after);
    r.Some? && r'.Some? && r.value.revokedAt.None? && r'.value.revokedAt.Some? &&
    r'.value == r.value.(reason := r'.value.reason, revokedAt := r'.value.revokedAt)
  }

  /** The binding says the same, except that it is now disabled. */
  predicate Disabling(w: World, before: Bytes, after: Bytes) {
    var b, b' := w.decodeBinding(before), w.decodeBinding(after);
    b.Some? && !b.value.disabled && b' == Some(b.value.(disabled := true))
  }

  predicate IsDisabled(w: World, data: Bytes) {
    var b := w.decodeBinding(data);
    b.Some? && b.value.disabled
  }

  ghost predicate LawfulIssuance(w: World, l: Ledger, key: string, data: Bytes, entry: AuditEntry) {
    && IssuanceSound(w, key, data)
    && if key in l.issued then Revoking(w, l.issued[key], data) && entry.action == "revoke" && entry.id == key
       else !IsRevoked(w, data) && entry.action == "issue"
  }

  ghost predicate LawfulBinding(w: World, l: Ledger, key: string, data: Bytes, entry: AuditEntry) {
    && CheckBinding(w, key, data) && entry.action != "revoke"
    && if key in l.bindings then Disabling(w, l.bindings[key], data) else !IsDisabled(w, data)
  }

  ghost predicate Lawful(w: World, l: Ledger, c: Change) {
    match c
    case Nothing => true
    case Write(Issued, key, data, entry) => LawfulIssuance(w, l, key, data, entry)
    case Write(Bindings, key, data, entry) => LawfulBinding(w, l, key, data, entry)
    case Write(Audit, _, _, _) => false
    case Note(entry) => entry.action == "crl"
  }

  // ---------- the operations are lawful ----------

  /** What the authority promises about a chain it returns for a CSR and a serial. */
  predicate MintedFor(w: World, der: Bytes, id: Uuid, minted: Result<string>) {
    minted.Ok? && w.parseCsr(der).Some? ==>
      var cert, csr := w.parseChain(minted.value), w.parseCsr(der).value;
      cert.Some? && cert.value.rest == w.authorityChain && cert.value.signedByAuthority && cert.value.serial == id &&
      cert.value.publicKey == csr.publicKey && cert.value.subject == csr.subject
  }

  lemma SignIsLawful(w: World, l: Ledger, id: Uuid, der: Bytes, minted: Result<string>, at: int) returns (c: Change)
    requires Trusted(w) && id != 0 && MintedFor(w, der, id, minted)
    ensures Lawful(w, l, c) && SignStep(w, l, id, der, minted, at).0 == Apply(w, l, c)
    ensures !c.Note? && (c.Nothing? || SignStep(w, l, id, der, minted, at).1.Ok?)
  {
    hide Record, Decimal;
    var key := w.uuidText(id);
    if key in l.issued || w.parseCsr(der).None? || minted.Err? {
      c := Nothing;
    } else {
      var record := Issuance(der, w.digest(der), minted.value, Decimal(id), "", None);
      c := Write(Issued, key, w.encodeIssuance(record), AuditEntry("issue", key, at));
    }
  }

  lemma RevokeIsLawful(w: World, l: Ledger, id: string, serial: string, reason: string, at: int) returns (c: Change)
    requires Trusted(w) && RecordsSound(w, l) && reason != ""
    ensures Lawful(w, l, c) && RevokeStep(w, l, id, serial, reason, at).0 == Apply(w, l, c)
    ensures !c.Note? && (c.Nothing? || RevokeStep(w, l, id, serial, reason, at).1.Ok?)
  {
    hide Record, Decimal;
    c := Nothing;
    if id in l.issued {
      assert IssuanceSound(w, id, l.issued[id]);
      var stored := w.decodeIssuance(l.issued[id]).value;
      if serial == stored.serial && stored.revokedAt.None? {
        var record := stored.(reason := reason, revokedAt := Some(at));
        c := Write(Issued, id, w.encodeIssuance(record), AuditEntry("revoke", id, at));
        assert w.decodeIssuance(c.data) == Some(record);
      }
    }
  }

  lemma StoreBindingIsLawful(w: World, l: Ledger, b: Binding, at: int) returns (c: Change)
    requires Trusted(w) && ValidBinding(w, b) && !b.disabled
    ensures Lawful(w, l, c) && StoreBinding(w, l, b, at).0 == Apply(w, l, c)
    ensures !c.Note? && (c.Nothing? || StoreBinding(w, l, b, at).1.Ok?)
  {
    hide Record, ValidBinding;
    if b.nodeId in l.bindings {
      c := Nothing;
    } else {
      c := Write(Bindings, b.nodeId, w.encodeBinding(b), AuditEntry("import:" + b.approvalId, b.nodeId, at));
      assert w.decodeBinding(c.data) == Some(b);
      assert c.entry.action[0] == 'i' && "revoke"[0] == 'r';
    }
  }

  lemma ImportIsLawful(w: World, l: Ledger, approved: Binding, exported: Binding, now: int, later: int, at: int)
                       returns (c: Change)
    requires Trusted(w)
    ensures Lawful(w, l, c) && ImportStep(w, l, approved, exported, now, later, at).0 == Apply(w, l, c)
    ensures !c.Note? && (c.Nothing? || ImportStep(w, l, approved, exported, now, later, at).1.Ok?)
  {
    hide Record, ValidBinding, StoreBinding, FillKey, Lawful;
    c := Nothing;
    assert Lawful(w, l, Nothing) by { NothingIsLawful(w, l); }
    if FreshExport(approved, exported, now, later) {
      var first, second := FillKey(w, approved.keys[0], exported.keys), FillKey(w, approved.keys[1], exported.keys);
      if first.Some? && second.Some? && ValidBinding(w, approved.(keys := [first.value, second.value])) {
        c := StoreBindingIsLawful(w, l, approved.(keys := [first.value, second.value]), at);
      }
    }
  }

  lemma NothingIsLawful(w: World, l: Ledger)
    ensures Lawful(w, l, Nothing)
  {}

  lemma DisableIsLawful(w: World, l: Ledger, node: string, at: int) returns (c: Change)
    requires Trusted(w) && RecordsSound(w, l)
    ensures Lawful(w, l, c) && DisableStep(w, l, node, at).0 == Apply(w, l, c)
    ensures !c.Note? && (c.Nothing? || DisableStep(w, l, node, at).1.Ok?)
  {
    hide Record, ValidDescriptor;
    c := Nothing;
    if node in l.bindings {
      assert CheckBinding(w, node, l.bindings[node]);
      var stored := w.decodeBinding(l.bindings[node]).value;
      if !stored.disabled {
        c := Write(Bindings, node, w.encodeBinding(stored.(disabled := true)), AuditEntry("disable", node, at));
        assert w.decodeBinding(c.data) == Some(stored.(disabled := true));
      }
    }
  }

  // ---------- lawful changes keep the invariant ----------

  lemma RevocationsStandAfter(w: World, l: Ledger, l': Ledger, key: string, entry: AuditEntry)
    requires Trusted(w) && RevocationsStand(w, l) && l'.audit == l.audit[key := w.encodeAudit(entry)]
    requires forall id | id in l.issued && IsRevoked(w, l.issued[id]) :: id in l'.issued && IsRevoked(w, l'.issued[id])
    requires entry.action == "revoke" ==> entry.id in l'.issued && IsRevoked(w, l'.issued[entry.id])
    ensures RevocationsStand(w, l')
  {
    assert w.decodeAudit(w.encodeAudit(entry)) == Some(entry);
  }

  lemma WriteInv(w: World, l: Ledger, c: Change)
    requires Trusted(w) && Inv(w, l) && Lawful(w, l, c) && c.Write? && l.sequence + 1 < TWO64
    ensures Inv(w, Apply(w, l, c))
  {
    hide Record, Indexed, Numbered, AuditKey, CheckIssuance, CheckBinding, ValidUuid;
    RecordKeeps(w, l, c.bucket, c.key, c.data, c.entry);
    var l' := Apply(w, l, c);
    assert RecordsSound(w, l');
    RevocationsStandAfter(w, l, l', AuditKey(l.sequence + 1), c.entry);
  }

  lemma NoteInv(w: World, l: Ledger, entry: AuditEntry)
    requires Trusted(w) && Inv(w, l) && entry.action == "crl" && l.sequence + 1 < TWO64
    ensures Inv(w, AppendAudit(w, l, entry))
  {
    hide AppendAudit, Indexed, Numbered, AuditKey, CheckIssuance, CheckBinding, ValidUuid;
    AppendKeeps(w, l, entry);
    AppendFields(w, l, entry);
    assert "crl"[0] != "revoke"[0];
    RevocationsStandAfter(w, l, AppendAudit(w, l, entry), AuditKey(l.sequence + 1), entry);
  }

  lemma LawfulInv(w: World, l: Ledger, c: Change)
    requires Trusted(w) && Inv(w, l) && Lawful(w, l, c) && l.sequence + 1 < TWO64
    ensures Inv(w, Apply(w, l, c))
    ensures Apply(w, l, c).sequence == l.sequence + if c.Nothing? then 0 else 1
  {
    hide Inv, Record, AppendAudit, LawfulIssuance, LawfulBinding;
    match c
    case Nothing =>
    case Note(entry) =>
      NoteInv(w, l, entry);
      AppendFields(w, l, entry);
    case Write(b, key, data, entry) =>
      WriteInv(w, l, c);
      WriteFields(w, l, c);
  }

  lemma WriteFields(w: World, l: Ledger, c: Change)
    requires Inv(w, l) && c.Write? && c.bucket != Audit && l.sequence + 1 < TWO64
    ensures var l' := Apply(w, l, c);
            && l'.sequence == l.sequence + 1
            && Records(l', c.bucket) == Records(l, c.bucket)[c.key := c.data]
            && (c.bucket != Issued ==> l'.issued == l.issued) && (c.bucket != Bindings ==> l'.bindings == l.bindings)
            && AuditKey(l.sequence + 1) !in l.audit
            && l'.audit == l.audit[AuditKey(l.sequence + 1) := w.encodeAudit(c.entry)]
  {
    hide Record, Indexed, Numbered, AuditKey;
    RecordKeeps(w, l, c.bucket, c.key, c.data, c.entry);
  }

  // ---------- lawful changes extend the history ----------

  predicate IssuanceKept(w: World, before: Bytes, after: Bytes) {
    after == before || Revoking(w, before, after)
  }

  predicate BindingKept(w: World, before: Bytes, after: Bytes) {
    after == before || Disabling(w, before, after)
  }

  /** Nothing is ever taken back: audit entries stay as they are, and a record changes
      only by being revoked, a binding only by being disabled. */
  ghost predicate Extends(w: World, l: Ledger, l': Ledger) {
    && l.sequence <= l'.sequence
    && (forall key | key in l.audit :: key in l'.audit && l'.audit[key] == l.audit[key])
    && (forall key | key in l.issued :: key in l'.issued && IssuanceKept(w, l.issued[key], l'.issued[key]))
    && (forall key | key in l.bindings :: key in l'.bindings && BindingKept(w, l.bindings[key], l'.bindings[key]))
  }

  lemma ExtendsTransitive(w: World, a: Ledger, b: Ledger, c: Ledger)
    requires Extends(w, a, b) && Extends(w, b, c)
    ensures Extends(w, a, c)
  {
    forall key | key in a.issued ensures key in c.issued && IssuanceKept(w, a.issued[key], c.issued[key]) {
      assert IssuanceKept(w, b.issued[key], c.issued[key]);
    }
    forall key | key in a.bindings ensures key in c.bindings && BindingKept(w, a.bindings[key], c.bindings[key]) {
      assert BindingKept(w, b.bindings[key], c.bindings[key]);
    }
  }

  lemma LawfulExtends(w: World, l: Ledger, c: Change)
    requires Inv(w, l) && Lawful(w, l, c) && l.sequence + 1 < TWO64
    ensures Extends(w, l, Apply(w, l, c))
  {
    hide Record, AppendAudit, AuditKey, Indexed, Numbered, CheckIssuance, CheckBinding, ValidUuid;
    match c
    case Nothing =>
    case Note(entry) =>
      AppendKeeps(w, l, entry);
      AppendFields(w, l, entry);
    case Write(b, key, data, entry) =>
      WriteFields(w, l, c);
  }

  // ---------- lawful changes are counted ----------

  function Tagged(m: map<string, Bytes>, p: Bytes -> bool): set<string> {
    set key | key in m && p(m[key])
  }

  lemma TaggedUpdate(m: map<string, Bytes>, key: string, data: Bytes, p: Bytes -> bool)
    requires if key in m then !p(m[key]) && p(data) else !p(data)
    ensures |m[key := data]| + |Tagged(m[key := data], p)| == |m| + |Tagged(m, p)| + 1
  {
    var m' := m[key := data];
    if key in m {
      assert m'.Keys == m.Keys;
      assert Tagged(m', p) == Tagged(m, p) + {key};
    } else {
      assert m'.Keys == m.Keys + {key};
      assert Tagged(m', p) == Tagged(m, p);
    }
  }

  function RevokedKeys(w: World, l: Ledger): set<string> {
    Tagged(l.issued, data => IsRevoked(w, data))
  }

  function DisabledKeys(w: World, l: Ledger): set<string> {
    Tagged(l.bindings, data => IsDisabled(w, data))
  }

  /** Issued, revoked, bound and disabled, each counted once. */
  function Recorded(w: World, l: Ledger): nat {
    |l.issued| + |RevokedKeys(w, l)| + |l.bindings| + |DisabledKeys(w, l)|
  }

  lemma IssuanceCounted(w: World, l: Ledger, key: string, data: Bytes, entry: AuditEntry)
    requires LawfulIssuance(w, l, key, data, entry)
    ensures Recorded(w, l.(issued := l.issued[key := data])) == Recorded(w, l) + 1
  {
    hide IssuanceSound, Tagged;
    TaggedUpdate(l.issued, key, data, data => IsRevoked(w, data));
  }

  lemma BindingCounted(w: World, l: Ledger, key: string, data: Bytes, entry: AuditEntry)
    requires LawfulBinding(w, l, key, data, entry)
    ensures Recorded(w, l.(bindings := l.bindings[key := data])) == Recorded(w, l) + 1
  {
    hide CheckBinding, Tagged;
    TaggedUpdate(l.bindings, key, data, data => IsDisabled(w, data));
  }

  lemma LawfulCounted(w: World, l: Ledger, c: Change)
    requires Inv(w, l) && Lawful(w, l, c) && l.sequence + 1 < TWO64
    ensures Recorded(w, Apply(w, l, c)) == Recorded(w, l) + if c.Write? then 1 else 0
  {
    hide Record, AppendAudit, AuditKey, Indexed, Numbered, LawfulIssuance, LawfulBinding, Tagged;
    match c
    case Nothing =>
    case Note(entry) =>
      AppendFields(w, l, entry);
    case Write(b, key, data, entry) =>
      WriteFields(w, l, c);
      if b == Issued {
        IssuanceCounted(w, l, key, data, entry);
      } else {
        BindingCounted(w, l, key, data, entry);
      }
  }
}
