/** What the start-up check guarantees of whatever file it is given: what each accepted
    record holds, and that the digests in `meta` fix the records. */
module SignerTamper {
  import opened Text
  import opened Signer
  import opened SignerInvariant
  import opened SignerBook
  import opened SignerRefinement

  /** The certificate on record is for the requested key and name, with the number that
      names the record, signed by this authority. */
  ghost predicate IsCertified(w: World, key: string, r: Issuance) {
    exists id: Uuid, csr: Csr, cert: Certificate ::
      && w.parseUuid(key) == Some(id) && w.parseCsr(r.csr) == Some(csr) && w.parseChain(r.chain) == Some(cert)
      && r.digest == w.digest(r.csr) && r.serial == Decimal(id)
      && cert == Certificate(true, id, csr.publicKey, csr.subject, w.authorityChain)
      && (r.revokedAt.Some? <==> r.reason != "")
  }

  lemma AcceptedRecord(w: World, l: Ledger, key: string)
    requires Consistent(w, l) && key in l.issued
    ensures w.decodeIssuance(l.issued[key]).Some? && IsCertified(w, key, w.decodeIssuance(l.issued[key]).value)
  {
    hide Decimal, CheckRecordDigest, CheckIndexEntry, CheckBinding;
    assert CheckIssuance(w, key, l.issued[key]);
    var r := w.decodeIssuance(l.issued[key]).value;
    var id, cert := w.parseUuid(key).value, w.parseChain(r.chain).value;
    DecimalInjective(cert.serial, id);
    assert cert == Certificate(true, id, w.parseCsr(r.csr).value.publicKey, w.parseCsr(r.csr).value.subject,
                               w.authorityChain);
  }

  lemma AcceptedBinding(w: World, l: Ledger, node: string)
    requires Trusted(w) && Consistent(w, l) && node in l.bindings
    ensures w.decodeBinding(l.bindings[node]).Some?
    ensures var b := w.decodeBinding(l.bindings[node]).value; b.nodeId == node && GoodBinding(w, b)
  {
    hide CheckRecordDigest, CheckIndexEntry, CheckIssuance, ValidBinding, GoodBinding, Trusted;
    assert CheckBinding(w, node, l.bindings[node]);
    BindingIs(w, w.decodeBinding(l.bindings[node]).value);
  }

  /** The file of another authority, version or policy is refused. */
  lemma ForeignIsRefused(w: World, l: Ledger)
    requires Consistent(w, l)
    ensures "version" in l.meta && l.meta["version"] == "1"
    ensures "policy" in l.meta && l.meta["policy"] == "rsa-client-v1-24h"
    ensures w.issuer != "" ==> "issuer" in l.meta && l.meta["issuer"] == w.issuer
    ensures forall other: World | other.issuer != w.issuer :: !Consistent(other, l)
    ensures l.sequence == |l.audit| % TWO64
  {
    hide CheckRecordDigest, CheckIndexEntry, CheckIssuance, CheckBinding;
  }

  /** No digest is empty. */
  ghost predicate GoodDigest(w: World) {
    forall x: Bytes :: w.digest(x) != ""
  }

  lemma NamedIs(l: Ledger, b: Bucket)
    ensures Named(l, Name(b)) == Some(Records(l, b))
  {
    assert Name(Issued)[0] == 'i' && Name(Bindings)[0] == 'b' && Name(Audit)[0] == 'a' && "meta"[0] == 'm';
  }

  /** With the index entry present, the record is what it names, or absent and empty. */
  lemma IndexNames(w: World, l: Ledger, b: Bucket, key: string)
    requires Consistent(w, l) && IndexKey(b, key) in l.meta
    ensures l.meta[IndexKey(b, key)] == w.digest(Get(Records(l, b), key))
  {
    hide CheckRecordDigest, CheckIssuance, CheckBinding, IndexKey, SplitInThree, Named, Origin;
    OriginOfIndexKey(b, key);
    NamedIs(l, b);
    assert CheckIndexEntry(w, l, IndexKey(b, key));
  }

  lemma RecordHasIndex(w: World, l: Ledger, b: Bucket, key: string)
    requires Consistent(w, l) && GoodDigest(w) && key in Records(l, b)
    ensures IndexKey(b, key) in l.meta
  {
    hide CheckIndexEntry, CheckIssuance, CheckBinding, IndexKey;
    assert CheckRecordDigest(w, l, b, key);
  }

  /** Two accepted files with the same `meta` hold the same records, as far as digests tell. */
  lemma IndexFixesRecords(w: World, l: Ledger, l': Ledger, b: Bucket, key: string)
    requires Consistent(w, l) && Consistent(w, l') && GoodDigest(w) && l.meta == l'.meta
    ensures w.digest(Get(Records(l, b), key)) == w.digest(Get(Records(l', b), key))
  {
    hide Consistent, IndexKey, Records;
    if key in Records(l, b) {
      RecordHasIndex(w, l, b, key);
    }
    if key in Records(l', b) {
      RecordHasIndex(w, l', b, key);
    }
    if IndexKey(b, key) in l.meta {
      IndexNames(w, l, b, key);
      IndexNames(w, l', b, key);
    }
  }

  /** A record changed, added or taken away behind the signer's back is seen. */
  lemma TamperingIsSeen(w: World, l: Ledger, l': Ledger, b: Bucket, key: string)
    requires Consistent(w, l) && GoodDigest(w) && l.meta == l'.meta
    requires w.digest(Get(Records(l, b), key)) != w.digest(Get(Records(l', b), key))
    ensures !Consistent(w, l')
  {
    hide Consistent, Records;
    if Consistent(w, l') {
      IndexFixesRecords(w, l, l', b, key);
    }
  }
}
