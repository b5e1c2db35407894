/** What every transaction of the signer keeps, and why it implies the start-up check. */
module SignerInvariant {
  import opened Text
  import opened Signer

  // ---------- the digest index ----------

  const HEADER: set<string> := {"version", "issuer", "policy"}

  function BucketNamed(name: string): Option<Bucket> {
    if name == Name(Issued) then Some(Issued)
    else if name == Name(Bindings) then Some(Bindings)
    else if name == Name(Audit) then Some(Audit)
    else None
  }

  lemma BucketNames(b: Bucket, name: string)
    ensures BucketNamed(name) == Some(b) <==> name == Name(b)
  {
    assert Name(Issued)[0] == 'i' && Name(Bindings)[0] == 'b' && Name(Audit)[0] == 'a';
  }

  lemma SplitParts(a: string, b: string, c: string)
    requires ':' !in a && ':' !in b
    ensures SplitInThree(a + [':'] + (b + [':'] + c)) == [a, b, c]
  {
    CutAt(a, ':', b + [':'] + c);
    CutAt(b, ':', c);
  }

  lemma PartsJoin(x: string)
    requires |SplitInThree(x)| == 3
    ensures var parts := SplitInThree(x); x == parts[0] + [':'] + (parts[1] + [':'] + parts[2])
  {}

  lemma IndexKeyParts(b: Bucket, key: string)
    ensures IndexKey(b, key) == "sha256" + [':'] + (Name(b) + [':'] + key)
    ensures IndexKey(b, key) !in HEADER && HasPrefix(IndexKey(b, key), "sha256:")
  {
    assert "sha256:" == "sha256" + [':'];
    assert IndexKey(b, key)[0] == 's';
  }

  /** Which record an index key stands for. */
  function Origin(key: string): Option<(Bucket, string)> {
    var parts := SplitInThree(key);
    if |parts| == 3 && parts[0] == "sha256" && BucketNamed(parts[1]).Some?
        then Some((BucketNamed(parts[1]).value, parts[2]))
    else None
  }

  /** Index keys name their record: the bucket and the key can be read back. */
  lemma OriginOfIndexKey(b: Bucket, key: string)
    ensures SplitInThree(IndexKey(b, key)) == ["sha256", Name(b), key]
    ensures Origin(IndexKey(b, key)) == Some((b, key))
    ensures IndexKey(b, key) !in HEADER && HasPrefix(IndexKey(b, key), "sha256:")
  {
    hide Name, BucketNamed, IndexKey, SplitInThree;
    IndexKeyParts(b, key);
    SplitParts("sha256", Name(b), key);
    BucketNames(b, Name(b));
  }

  lemma OriginIsExact(x: string)
    requires Origin(x).Some?
    ensures x == IndexKey(Origin(x).value.0, Origin(x).value.1)
  {
    hide Name, BucketNamed, IndexKey, SplitInThree;
    var (b, key) := Origin(x).value;
    BucketNames(b, SplitInThree(x)[1]);
    PartsJoin(x);
    IndexKeyParts(b, key);
  }

  predicate HeaderKey(x: string) {
    x in HEADER
  }

  ghost predicate Header(w: World, l: Ledger) {
    "version" in l.meta && "issuer" in l.meta && "policy" in l.meta && CheckHeader(w, l)
  }

  predicate FiledUnder(w: World, l: Ledger, b: Bucket, key: string)
    requires key in Records(l, b)
  {
    IndexKey(b, key) in l.meta && l.meta[IndexKey(b, key)] == w.digest(Records(l, b)[key])
  }

  predicate HasRecord(l: Ledger, x: string) {
    Origin(x).Some? && Origin(x).value.1 in Records(l, Origin(x).value.0)
  }

  /** Every record has its digest in `meta`, and `meta` holds nothing else but the header. */
  ghost predicate Indexed(w: World, l: Ledger) {
    && Header(w, l)
    && (forall b: Bucket, key | key in Records(l, b) :: FiledUnder(w, l, b, key))
    && (forall x | x in l.meta && !HeaderKey(x) :: HasRecord(l, x))
  }

  lemma PutKeepsHeader(w: World, l: Ledger, b: Bucket, key: string, data: Bytes)
    requires Header(w, l)
    ensures Header(w, PutRecord(w, l, b, key, data))
  {
    OriginOfIndexKey(b, key);
    hide IndexKey, Origin, SplitInThree;
    assert forall x | x in HEADER :: x != IndexKey(b, key);
  }

  lemma PutFiles(w: World, l: Ledger, b: Bucket, key: string, data: Bytes, b': Bucket, key': string)
    requires Indexed(w, l) && key' in Records(PutRecord(w, l, b, key, data), b')
    ensures FiledUnder(w, PutRecord(w, l, b, key, data), b', key')
  {
    hide IndexKey, Origin, SplitInThree, Name, HeaderKey, Header;
    OriginOfIndexKey(b, key);
    OriginOfIndexKey(b', key');
    if b' != b || key' != key {
      assert key' in Records(l, b') && Records(PutRecord(w, l, b, key, data), b')[key'] == Records(l, b')[key'];
      assert FiledUnder(w, l, b', key');
    }
  }

  lemma PutRecorded(w: World, l: Ledger, b: Bucket, key: string, data: Bytes, x: string)
    requires Indexed(w, l) && x in PutRecord(w, l, b, key, data).meta && !HeaderKey(x)
    ensures HasRecord(PutRecord(w, l, b, key, data), x)
  {
    hide IndexKey, Origin, SplitInThree, Name, HeaderKey, Header;
    OriginOfIndexKey(b, key);
    if x != IndexKey(b, key) {
      assert HasRecord(l, x);
    }
  }

  lemma PutKeepsIndex(w: World, l: Ledger, b: Bucket, key: string, data: Bytes)
    requires Indexed(w, l)
    ensures Indexed(w, PutRecord(w, l, b, key, data))
  {
    hide PutRecord, FiledUnder, HasRecord, HeaderKey, Header;
    var l' := PutRecord(w, l, b, key, data);
    PutKeepsHeader(w, l, b, key, data);
    forall b': Bucket, key' | key' in Records(l', b') ensures FiledUnder(w, l', b', key') {
      PutFiles(w, l, b, key, data, b', key');
    }
    forall x | x in l'.meta && !HeaderKey(x) ensures HasRecord(l', x) {
      PutRecorded(w, l, b, key, data, x);
    }
  }

  lemma IndexedImpliesDigests(w: World, l: Ledger)
    requires Indexed(w, l)
    ensures forall b: Bucket, key | key in Records(l, b) :: CheckRecordDigest(w, l, b, key)
    ensures forall key | key in l.meta :: CheckIndexEntry(w, l, key)
  {
    hide IndexKey, Origin, SplitInThree;
    forall b: Bucket, key | key in Records(l, b) ensures CheckRecordDigest(w, l, b, key) {
      assert FiledUnder(w, l, b, key);
    }
    forall x | x in l.meta ensures CheckIndexEntry(w, l, x) {
      if HasPrefix(x, "sha256:") {
        HeaderIsNotIndex(x);
        assert HasRecord(l, x);
        OriginIsExact(x);
        var (b, key) := Origin(x).value;
        OriginOfIndexKey(b, key);
        assert FiledUnder(w, l, b, key);
        NamedBucket(l, b);
      }
    }
  }

  lemma HeaderIsNotIndex(x: string)
    requires HasPrefix(x, "sha256:")
    ensures !HeaderKey(x)
  {
    assert x[0] == 's';
  }

  lemma NamedBucket(l: Ledger, b: Bucket)
    ensures Named(l, Name(b)) == Some(Records(l, b))
  {
    assert Name(Issued)[0] == 'i' && Name(Bindings)[0] == 'b' && Name(Audit)[0] == 'a';
  }

  // ---------- the audit trail ----------

  ghost predicate IsNumber(key: string, n: nat, last: nat) {
    1 <= n <= last && key == AuditKey(n)
  }

  /** The entries are numbered 1 to `last`, without gaps. */
  ghost predicate Numbered(audit: map<string, Bytes>, last: nat) {
    && |audit| == last < TWO64
    && (forall n | 1 <= n <= last :: AuditKey(n) in audit)
    && (forall key | key in audit :: IsNumbered(key, last))
  }

  ghost predicate IsNumbered(key: string, last: nat) {
    exists n :: IsNumber(key, n, last)
  }

  lemma NumberedNext(audit: map<string, Bytes>, last: nat, data: Bytes)
    requires Numbered(audit, last) && last + 1 < TWO64
    ensures AuditKey(last + 1) !in audit
    ensures Numbered(audit[AuditKey(last + 1) := data], last + 1)
  {
    hide AuditKey;
    forall n | 1 <= n <= last ensures AuditKey(n) != AuditKey(last + 1) {
      AuditKeysDiffer(n, last + 1);
    }
    forall key | key in audit ensures IsNumbered(key, last + 1) {
      var n :| IsNumber(key, n, last);
      assert IsNumber(key, n, last + 1);
    }
    assert IsNumber(AuditKey(last + 1), last + 1, last + 1);
  }

  lemma AuditKeysDiffer(m: nat, n: nat)
    requires m < n < TWO64
    ensures AuditKey(m) != AuditKey(n)
  {
    TwentyDigitKeys(m, n);
  }

  // ---------- the records ----------

  /** An issued record is keyed by the canonical text of a UUID other than zero. */
  ghost predicate IssuanceSound(w: World, key: string, data: Bytes) {
    CheckIssuance(w, key, data) && ValidUuid(w, key)
  }

  ghost predicate RecordsSound(w: World, l: Ledger) {
    && (forall key | key in l.issued :: IssuanceSound(w, key, l.issued[key]))
    && (forall key | key in l.bindings :: CheckBinding(w, key, l.bindings[key]))
  }

  /** A revocation in the audit trail is a revocation in the records. */
  ghost predicate RevocationsStand(w: World, l: Ledger) {
    forall key | key in l.audit ::
      var e := w.decodeAudit(l.audit[key]);
      e.Some? && (e.value.action == "revoke" ==> e.value.id in l.issued && IsRevoked(w, l.issued[e.value.id]))
  }

  ghost predicate Inv(w: World, l: Ledger) {
    Indexed(w, l) && Numbered(l.audit, l.sequence) && RecordsSound(w, l) && RevocationsStand(w, l)
  }

  lemma InvImpliesConsistent(w: World, l: Ledger)
    requires Inv(w, l)
    ensures Consistent(w, l)
  {
    IndexedImpliesDigests(w, l);
  }

  lemma InitialInv(w: World)
    ensures Inv(w, Initial(w))
  {}

  // ---------- one recorded change ----------

  /** The index says nothing about the sequence number. */
  lemma SequenceIsNotIndexed(w: World, l: Ledger, n: nat)
    requires Indexed(w, l)
    ensures Indexed(w, l.(sequence := n))
  {
    hide IndexKey, Origin, HeaderKey, SplitInThree;
    var l' := l.(sequence := n);
    forall b: Bucket, key | key in Records(l', b) ensures FiledUnder(w, l', b, key) {
      assert FiledUnder(w, l, b, key);
    }
    forall x | x in l'.meta && !HeaderKey(x) ensures HasRecord(l', x) {
      assert HasRecord(l, x);
    }
  }

  lemma AppendFields(w: World, l: Ledger, entry: AuditEntry)
    requires l.sequence + 1 < TWO64
    ensures var l' := AppendAudit(w, l, entry);
            && l'.sequence == l.sequence + 1
            && l'.issued == l.issued && l'.bindings == l.bindings
            && l'.audit == l.audit[AuditKey(l.sequence + 1) := w.encodeAudit(entry)]
  {
    hide IndexKey, AuditKey;
  }

  lemma AppendKeeps(w: World, l: Ledger, entry: AuditEntry)
    requires Indexed(w, l) && Numbered(l.audit, l.sequence) && l.sequence + 1 < TWO64
    ensures Indexed(w, AppendAudit(w, l, entry))
    ensures var l' := AppendAudit(w, l, entry); Numbered(l'.audit, l'.sequence)
    ensures AuditKey(l.sequence + 1) !in l.audit
  {
    hide Indexed, Numbered, AuditKey, PutRecord;
    var next := l.sequence + 1;
    SequenceIsNotIndexed(w, l, next);
    PutKeepsIndex(w, l.(sequence := next), Audit, AuditKey(next), w.encodeAudit(entry));
    NumberedNext(l.audit, l.sequence, w.encodeAudit(entry));
    AppendFields(w, l, entry);
  }

  lemma RecordKeeps(w: World, l: Ledger, b: Bucket, key: string, data: Bytes, entry: AuditEntry)
    requires Indexed(w, l) && Numbered(l.audit, l.sequence) && l.sequence + 1 < TWO64 && b != Audit
    ensures var l' := Record(w, l, b, key, data, entry);
            && Indexed(w, l') && Numbered(l'.audit, l'.sequence)
            && l'.sequence == l.sequence + 1
            && Records(l', b) == Records(l, b)[key := data]
            && (b != Issued ==> l'.issued == l.issued) && (b != Bindings ==> l'.bindings == l.bindings)
            && AuditKey(l.sequence + 1) !in l.audit
            && l'.audit == l.audit[AuditKey(l.sequence + 1) := w.encodeAudit(entry)]
  {
    hide Indexed, Numbered, AuditKey, IndexKey, AppendAudit;
    var put := PutRecord(w, l, b, key, data);
    PutKeepsIndex(w, l, b, key, data);
    AppendKeeps(w, put, entry);
    AppendFields(w, put, entry);
  }
}
