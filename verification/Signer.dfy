/** The certificate signer's ledger: one bbolt file with the buckets `issued`,
    `bindings` and `audit`, and in `meta` a digest of every record. One writer at a
    time runs each operation in a transaction that commits whole or leaves no trace.

    Libraries outside the ledger (SHA-256, JSON, UUID text, X.509) are functions of a
    `World`; what is relied on about them is `Trusted`. */
module Signer {
  import opened Text

  type Bytes = string
  type Uuid = n: nat | n < 0x1_0000_0000_0000_0000_0000_0000_0000_0000 witness 0

  const TWO64: nat := 0x1_0000_0000_0000_0000
  const POLICY := "rsa-client-v1-24h"

  datatype Error = Status(code: nat) | InvalidState | Other

  datatype Result<+T> = Ok(value: T) | Err(error: Error)

  datatype Issuance = Issuance(csr: Bytes, digest: string, chain: string, serial: string, reason: string,
                               revokedAt: Option<int>)

  datatype Descriptor = Descriptor(purpose: string, version: int, keyId: string, digest: string, der: Bytes)

  datatype Binding = Binding(workspaceId: string, nodeId: string, endpointId: string, approvalId: string,
                             approvalHash: string, exportedAt: int, keys: seq<Descriptor>, disabled: bool)

  datatype AuditEntry = AuditEntry(action: string, id: string, at: int)

  datatype Csr = Csr(publicKey: Bytes, subject: Bytes)

  /** A certificate at the head of a PEM chain, with the text after it. */
  datatype Certificate = Certificate(signedByAuthority: bool, serial: nat, publicKey: Bytes, subject: Bytes,
                                     rest: string)

  datatype World = World(
    issuer: string,
    authorityChain: string,
    digest: Bytes -> string,
    uuidText: Uuid -> string,
    parseUuid: string -> Option<Uuid>,
    encodeIssuance: Issuance -> Bytes,
    decodeIssuance: Bytes -> Option<Issuance>,
    encodeBinding: Binding -> Bytes,
    decodeBinding: Bytes -> Option<Binding>,
    encodeAudit: AuditEntry -> Bytes,
    decodeAudit: Bytes -> Option<AuditEntry>,
    parseCsr: Bytes -> Option<Csr>,
    parseChain: string -> Option<Certificate>,
    sealingKey: Bytes -> bool)

  /** JSON and UUID text round-trip, and an absent value is not a binding. */
  ghost predicate Trusted(w: World) {
    && (forall r: Issuance :: w.decodeIssuance(w.encodeIssuance(r)) == Some(r))
    && (forall b: Binding :: w.decodeBinding(w.encodeBinding(b)) == Some(b))
    && (forall e: AuditEntry :: w.decodeAudit(w.encodeAudit(e)) == Some(e))
    && w.decodeBinding("") == None
    && (forall id: Uuid :: w.parseUuid(w.uuidText(id)) == Some(id))
  }

  // ---------- request text ----------

  predicate ValidUuid(w: World, s: string) {
    var id := w.parseUuid(s);
    id.Some? && id.value != 0 && w.uuidText(id.value) == s
  }

  predicate SealPurpose(s: string) {
    s == "user_password" || s == "certificate_p12_password"
  }

  predicate ValidName(s: string, max: nat) {
    0 < |s| <= max && forall i | 0 <= i < |s| :: 33 as char <= s[i] <= 126 as char && s[i] != '/' && s[i] != '\\'
  }

  /** White space, as trimming sees it. */
  predicate IsSpace(c: char) {
    var n := c as int;
    9 <= n <= 13 || n in {32, 0x85, 0xA0, 0x1680, 0x2028, 0x2029, 0x202F, 0x205F, 0x3000} || 0x2000 <= n <= 0x200A
  }

  predicate Blank(s: string) {
    forall i | 0 <= i < |s| :: IsSpace(s[i])
  }

  /** A positive serial in canonical decimal of at most 40 characters. */
  predicate AcceptedSerial(s: string) {
    var n := ParseInteger(s);
    n.Some? && n.value > 0 && Decimal(n.value) == s && |s| <= 40
  }

  predicate ValidDescriptor(w: World, k: Descriptor) {
    && SealPurpose(k.purpose) && k.version == 1 && ValidName(k.keyId, 128)
    && Hex64(k.digest) && w.digest(k.der) == k.digest && w.sealingKey(k.der)
  }

  predicate ValidBinding(w: World, b: Binding) {
    && ValidUuid(w, b.workspaceId) && ValidUuid(w, b.nodeId) && ValidUuid(w, b.approvalId)
    && Hex64(b.approvalHash) && Hex64(b.endpointId) && b.exportedAt != 0
    && |b.keys| == 2
    && (forall i | 0 <= i < 2 :: ValidDescriptor(w, b.keys[i]))
    && b.keys[0].purpose != b.keys[1].purpose
    && b.keys[0].keyId != b.keys[1].keyId
    && b.keys[0].digest != b.keys[1].digest
  }

  // ---------- the store ----------

  datatype Bucket = Issued | Bindings | Audit

  function Name(b: Bucket): (s: string)
    ensures ':' !in s
  {
    match b
    case Issued => "issued"
    case Bindings => "bindings"
    case Audit => "audit"
  }

  datatype Ledger = Ledger(meta: map<string, Bytes>, issued: map<string, Bytes>, bindings: map<string, Bytes>,
                           audit: map<string, Bytes>, sequence: nat)

  function Records(l: Ledger, b: Bucket): map<string, Bytes> {
    match b
    case Issued => l.issued
    case Bindings => l.bindings
    case Audit => l.audit
  }

  function Get(m: map<string, Bytes>, key: string): Bytes {
    if key in m then m[key] else ""
  }

  function Initial(w: World): Ledger {
    Ledger(map["version" := "1", "issuer" := w.issuer, "policy" := POLICY], map[], map[], map[], 0)
  }

  function IndexKey(b: Bucket, key: string): string {
    "sha256:" + Name(b) + ":" + key
  }

  function AuditKey(n: nat): string {
    ZeroPadded(n, 20)
  }

  /** Store a record together with its digest. */
  function PutRecord(w: World, l: Ledger, b: Bucket, key: string, data: Bytes): Ledger {
    var indexed := l.(meta := l.meta[IndexKey(b, key) := w.digest(data)]);
    match b
    case Issued => indexed.(issued := l.issued[key := data])
    case Bindings => indexed.(bindings := l.bindings[key := data])
    case Audit => indexed.(audit := l.audit[key := data])
  }

  /** Append the next numbered audit entry; the sequence is a 64-bit counter. */
  function AppendAudit(w: World, l: Ledger, entry: AuditEntry): Ledger {
    var n := (l.sequence + 1) % TWO64;
    PutRecord(w, l.(sequence := n), Audit, AuditKey(n), w.encodeAudit(entry))
  }

  function Record(w: World, l: Ledger, b: Bucket, key: string, data: Bytes, entry: AuditEntry): Ledger {
    AppendAudit(w, PutRecord(w, l, b, key, data), entry)
  }

  // ---------- the consistency check ----------

  predicate CheckHeader(w: World, l: Ledger) {
    Get(l.meta, "version") == "1" && Get(l.meta, "issuer") == w.issuer && Get(l.meta, "policy") == POLICY
  }

  function SplitInThree(s: string): seq<string> {
    var p := Cut(s, ':');
    if !p.found then [s]
    else
      var q := Cut(p.after, ':');
      if !q.found then [p.before, p.after] else [p.before, q.before, q.after]
  }

  /** A bucket by name, `meta` included. */
  function Named(l: Ledger, name: string): Option<map<string, Bytes>> {
    if name == "meta" then Some(l.meta)
    else if name == Name(Issued) then Some(l.issued)
    else if name == Name(Bindings) then Some(l.bindings)
    else if name == Name(Audit) then Some(l.audit)
    else None
  }

  predicate CheckRecordDigest(w: World, l: Ledger, b: Bucket, key: string)
    requires key in Records(l, b)
  {
    Get(l.meta, IndexKey(b, key)) == w.digest(Records(l, b)[key])
  }

  predicate CheckIndexEntry(w: World, l: Ledger, key: string)
    requires key in l.meta
  {
    HasPrefix(key, "sha256:") ==>
      var parts := SplitInThree(key);
      |parts| == 3 && Named(l, parts[1]).Some? && l.meta[key] == w.digest(Get(Named(l, parts[1]).value, parts[2]))
  }

  predicate CheckIssuance(w: World, key: string, data: Bytes) {
    var id, record := w.parseUuid(key), w.decodeIssuance(data);
    && id.Some? && record.Some?
    && var r := record.value;
       var csr, cert := w.parseCsr(r.csr), w.parseChain(r.chain);
       && r.digest == w.digest(r.csr)
       && r.serial == Decimal(id.value)
       && csr.Some? && cert.Some?
       && cert.value.rest == w.authorityChain
       && cert.value.signedByAuthority
       && Decimal(cert.value.serial) == r.serial
       && cert.value.publicKey == csr.value.publicKey
       && cert.value.subject == csr.value.subject
       && (r.revokedAt.None? <==> r.reason == "")
  }

  predicate CheckBinding(w: World, key: string, data: Bytes) {
    var b := w.decodeBinding(data);
    b.Some? && b.value.nodeId == key && ValidBinding(w, b.value)
  }

  /** Everything the start-up check looks at. */
  ghost predicate Consistent(w: World, l: Ledger) {
    && l.sequence == |l.audit| % TWO64
    && CheckHeader(w, l)
    && (forall b: Bucket, key | key in Records(l, b) :: CheckRecordDigest(w, l, b, key))
    && (forall key | key in l.meta :: CheckIndexEntry(w, l, key))
    && (forall key | key in l.issued :: CheckIssuance(w, key, l.issued[key]))
    && (forall key | key in l.bindings :: CheckBinding(w, key, l.bindings[key]))
  }

  // ---------- transactions ----------

  /** One signing transaction. `minted` is the authority's answer for this CSR and
      serial number; it is consulted only for a new certificate. */
  function SignStep(w: World, l: Ledger, id: Uuid, der: Bytes, minted: Result<string>, at: int): (Ledger,
                    Result<Issuance>) {
    var key := w.uuidText(id);
    if key in l.issued then
      var stored := w.decodeIssuance(l.issued[key]);
      if stored.None? then (l, Err(InvalidState))
      else if stored.value.digest != w.digest(der) then (l, Err(Status(409)))
      else (l, Ok(stored.value))
    else if w.parseCsr(der).None? then (l, Err(Status(422)))
    else if minted.Err? then (l, Err(minted.error))
    else
      var record := Issuance(der, w.digest(der), minted.value, Decimal(id), "", None);
      (Record(w, l, Issued, key, w.encodeIssuance(record), AuditEntry("issue", key, at)), Ok(record))
  }

  function RevokeStep(w: World, l: Ledger, id: string, serial: string, reason: string, at: int): (Ledger, Result<()>) {
    if id !in l.issued then (l, Err(Status(404)))
    else
      var stored := w.decodeIssuance(l.issued[id]);
      if stored.None? then (l, Err(InvalidState))
      else if serial != stored.value.serial || (stored.value.revokedAt.Some? && stored.value.reason != reason)
          then (l, Err(Status(409)))
      else if stored.value.revokedAt.Some? then (l, Ok(()))
      else
        var record := stored.value.(reason := reason, revokedAt := Some(at));
        (Record(w, l, Issued, id, w.encodeIssuance(record), AuditEntry("revoke", id, at)), Ok(()))
  }

  predicate KeyMatches(w: World, k: Descriptor, public: Descriptor) {
    public.purpose == k.purpose && public.version == k.version && public.keyId == k.keyId && public.digest == k.digest
        &&
    w.digest(public.der) == k.digest
  }

  /** The exported public keys, put into the approved descriptors they match. */
  function FillKey(w: World, k: Descriptor, exported: seq<Descriptor>): Option<Descriptor> {
    if exported == [] then None
    else
      var last := exported[|exported| - 1];
      if KeyMatches(w, k, last) then Some(k.(der := last.der)) else FillKey(w, k, exported[..|exported| - 1])
  }

  const MINUTE: int := 60_000_000_000
  const MAX_AGE: int := 15 * MINUTE

  /** The clock is read once for each of the two age tests. */
  predicate FreshExport(approved: Binding, exported: Binding, now: int, later: int) {
    && !approved.disabled && approved.exportedAt <= now + MINUTE && later - approved.exportedAt <= MAX_AGE
    && approved.nodeId == exported.nodeId && approved.endpointId == exported.endpointId
    && |approved.keys| == 2 && |exported.keys| == 2
  }

  function ImportStep(w: World, l: Ledger, approved: Binding, exported: Binding, now: int, later: int,
                      at: int): (Ledger, Result<()>) {
    if !FreshExport(approved, exported, now, later) then (l, Err(Other))
    else
      var first, second := FillKey(w, approved.keys[0], exported.keys), FillKey(w, approved.keys[1], exported.keys);
      if first.None? || second.None? then (l, Err(Other))
      else
        var filled := approved.(keys := [first.value, second.value]);
        if !ValidBinding(w, filled) then (l, Err(Other)) else StoreBinding(w, l, filled, at)
  }

  function StoreBinding(w: World, l: Ledger, b: Binding, at: int): (Ledger, Result<()>) {
    if b.nodeId in l.bindings then
      var stored := l.bindings[b.nodeId];
      var previous := w.decodeBinding(stored);
      if previous.None? || previous.value.disabled then (l, Err(Other))
      else if stored != w.encodeBinding(b.(exportedAt := previous.value.exportedAt)) then (l, Err(Other))
      else (l, Ok(()))
    else
      (Record(w, l, Bindings, b.nodeId, w.encodeBinding(b), AuditEntry("import:" + b.approvalId, b.nodeId, at)), Ok(()))
  }

  function DisableStep(w: World, l: Ledger, node: string, at: int): (Ledger, Result<()>) {
    var stored := w.decodeBinding(Get(l.bindings, node));
    if stored.None? then (l, Err(Other))
    else if stored.value.disabled then (l, Ok(()))
    else
      var record := stored.value.(disabled := true);
      (Record(w, l, Bindings, node, w.encodeBinding(record), AuditEntry("disable", node, at)), Ok(()))
  }

  datatype RevokedEntry = RevokedEntry(serial: int, at: int)

  datatype Crl = Crl(number: nat, entries: set<RevokedEntry>)

  predicate Listable(w: World, data: Bytes) {
    var r := w.decodeIssuance(data);
    r.Some? && (r.value.revokedAt.Some? ==> ParseInteger(r.value.serial).Some?)
  }

  predicate IsRevoked(w: World, data: Bytes) {
    var r := w.decodeIssuance(data);
    r.Some? && r.value.revokedAt.Some?
  }

  function EntryOf(w: World, data: Bytes): RevokedEntry
    requires IsRevoked(w, data) && Listable(w, data)
  {
    var r := w.decodeIssuance(data).value;
    RevokedEntry(ParseInteger(r.serial).value, r.revokedAt.value)
  }

  function EntriesAmong(w: World, issued: map<string, Bytes>, keys: set<string>): set<RevokedEntry>
    requires keys <= issued.Keys && forall key | key in keys :: Listable(w, issued[key])
  {
    set key | key in keys && IsRevoked(w, issued[key]) :: EntryOf(w, issued[key])
  }

  function Entries(w: World, l: Ledger): set<RevokedEntry>
    requires forall key | key in l.issued :: Listable(w, l.issued[key])
  {
    EntriesAmong(w, l.issued, l.issued.Keys)
  }

  /** A revocation list takes the audit number of its own export. */
  ghost function CrlStep(w: World, l: Ledger, at: int): (Ledger, Result<Crl>) {
    var l' := AppendAudit(w, l, AuditEntry("crl", w.issuer, at));
    if forall key | key in l.issued :: Listable(w, l.issued[key]) then (l', Ok(Crl(l'.sequence, Entries(w, l))))
    else (l, Err(InvalidState))
  }

  /** A snapshot is accepted only from `minimum` audit entries on. */
  predicate RestoreAccepts(l: Ledger, minimum: int) {
    minimum >= 0 && l.sequence >= minimum
  }
}
