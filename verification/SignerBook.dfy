/** The signer as its clients may think of it: a register of certificates and bindings and
    one log. There are no buckets, digests, encodings or sequence numbers here, only what
    every request does and how it is answered. */
module SignerBook {
  import opened Text
  import opened Signer
  import opened SignerService
  import opened SignerRuns

  datatype Revocation = Revocation(reason: string, at: int)

  datatype Card = Card(csr: Bytes, chain: string, revoked: Option<Revocation>)

  datatype Book = Book(cards: map<string, Card>, nodes: map<string, Binding>, log: seq<AuditEntry>, failed: bool)

  const EMPTY := Book(map[], map[], [], false)

  // ---------- requests ----------

  ghost predicate IsUuid(w: World, s: string) {
    exists id: Uuid :: id != 0 && w.uuidText(id) == s
  }

  ghost predicate IsSerial(s: string) {
    |s| <= 40 && exists n: nat :: n > 0 && s == Decimal(n)
  }

  ghost predicate ProperSign(w: World, q: Request) {
    && IsUuid(w, q.id) && q.idempotencyKey == q.id
    && q.der.Some? && |q.der.value| > 0 && q.serial == "" && q.reason == ""
  }

  ghost predicate ProperRevoke(w: World, q: Request) {
    && IsUuid(w, q.id) && q.idempotencyKey == q.id + ":revoke" && q.csr == "" && IsSerial(q.serial)
    && (exists i | 0 <= i < |q.reason| :: !IsSpace(q.reason[i])) && Utf8Length(q.reason) <= 512
  }

  // ---------- answers ----------

  function Noted(b: Book, action: string, id: string, at: int): Book {
    b.(log := b.log + [AuditEntry(action, id, at)])
  }

  /** A new certificate, or the one on record if it was asked for with the same request. */
  function SignBook(w: World, b: Book, id: string, der: Bytes, minted: Result<string>, at: int): (Book,
                    Result<string>) {
    if id in b.cards then
      (b, if w.digest(b.cards[id].csr) == w.digest(der) then Ok(b.cards[id].chain) else Err(Status(409)))
    else if w.parseCsr(der).None? then (b, Err(Status(422)))
    else
      match minted
      case Err(_) => (b, minted)
      case Ok(chain) => (Noted(b.(cards := b.cards[id := Card(der, chain, None)]), "issue", id, at), minted)
  }

  /** Revoked once, for one reason, by whoever knows the serial number. */
  function RevokeBook(w: World, b: Book, id: string, serial: string, reason: string, at: int): (Book, Result<string>) {
    if id !in b.cards then (b, Err(Status(404)))
    else if w.parseUuid(id).None? || serial != Decimal(w.parseUuid(id).value) then (b, Err(Status(409)))
    else
      match b.cards[id].revoked
      case Some(r) => (b, if r.reason == reason then Ok("") else Err(Status(409)))
      case None =>
        (Noted(b.(cards := b.cards[id := b.cards[id].(revoked := Some(Revocation(reason, at)))]), "revoke", id, at),
         Ok(""))
  }

  /** What is heard of a result, and what is kept: a process killed before the commit leaves
      nothing, one killed after it has not answered; any error that is not a status stops
      the process from serving. */
  function Heard(b: Book, done: (Book, Result<string>), code: nat, fate: Fate, dies: bool): (Book, Option<Response>) {
    if dies then (b, None)
    else
      match done.1
      case Err(Status(c)) => (b, Some(Response(c, "")))
      case Err(_) => (b.(failed := true), Some(Response(503, "")))
      case Ok(chain) =>
        if fate == StorageFault then (b.(failed := true), Some(Response(503, "")))
        else if fate == CrashReply then (done.0, None)
        else (done.0, Some(Response(code, chain)))
  }

  /** Signing can be killed while it prepares, and then while it writes. */
  predicate SignDies(w: World, b: Book, id: string, der: Bytes, minted: Result<string>, fate: Fate) {
    && id !in b.cards && w.parseCsr(der).Some?
    && (fate == CrashPrepare || (minted.Ok? && fate in {CrashSigned, CrashCommit}))
  }

  ghost function Respond(w: World, b: Book, q: Request, minted: Result<string>, at: int, fate: Fate): (Book,
                         Option<Response>) {
    if b.failed then (b, Some(Response(503, "")))
    else if q.revoke then
      if !ProperRevoke(w, q) then (b, Some(Response(400, "")))
      else
        var done := RevokeBook(w, b, q.id, q.serial, q.reason, at);
        Heard(b, done, 204, fate, done.0 != b && fate == CrashCommit)
    else if !ProperSign(w, q) then (b, Some(Response(400, "")))
    else Heard(b, SignBook(w, b, q.id, q.der.value, minted, at), 200, fate,
               SignDies(w, b, q.id, q.der.value, minted, fate))
  }

  // ---------- bindings ----------

  predicate Printable(s: string) {
    forall i | 0 <= i < |s| :: 33 <= s[i] as int <= 126 && s[i] as int !in {47, 92}
  }

  predicate GoodKey(w: World, k: Descriptor) {
    && k.version == 1 && 1 <= |k.keyId| <= 128 && Printable(k.keyId)
    && Hex64(k.digest) && w.digest(k.der) == k.digest && w.sealingKey(k.der)
  }

  /** One key for each of the two purposes, with different names and contents. */
  ghost predicate GoodBinding(w: World, b: Binding) {
    && IsUuid(w, b.workspaceId) && IsUuid(w, b.nodeId) && IsUuid(w, b.approvalId)
    && Hex64(b.approvalHash) && Hex64(b.endpointId) && b.exportedAt != 0
    && |b.keys| == 2 && GoodKey(w, b.keys[0]) && GoodKey(w, b.keys[1])
    && {b.keys[0].purpose, b.keys[1].purpose} == {"user_password", "certificate_p12_password"}
    && b.keys[0].keyId != b.keys[1].keyId && b.keys[0].digest != b.keys[1].digest
  }

  predicate SameKey(w: World, k: Descriptor, public: Descriptor) {
    public == k.(der := public.der) && w.digest(public.der) == k.digest
  }

  /** The exported contents of an approved key. */
  function Taken(w: World, k: Descriptor, exported: seq<Descriptor>): Option<Descriptor>
    requires |exported| == 2
  {
    if SameKey(w, k, exported[1]) then Some(exported[1])
    else if SameKey(w, k, exported[0]) then Some(exported[0])
    else None
  }

  /** At most a minute ahead of the clock and at most a quarter of an hour old. */
  predicate Timely(approved: Binding, now: int, later: int) {
    approved.exportedAt - now <= 60_000_000_000 && later - approved.exportedAt <= 900_000_000_000
  }

  ghost function Completed(w: World, approved: Binding, exported: Binding, now: int, later: int): Option<Binding> {
    if approved.disabled || !Timely(approved, now, later) || approved.nodeId != exported.nodeId
       || approved.endpointId != exported.endpointId || |approved.keys| != 2 || |exported.keys| != 2 then None
    else
      var first, second := Taken(w, approved.keys[0], exported.keys), Taken(w, approved.keys[1], exported.keys);
      if first.None? || second.None? then None
      else
        var filled := approved.(keys := [first.value, second.value]);
        if GoodBinding(w, filled) then Some(filled) else None
  }

  /** A node is bound once; the same binding exported again is no new one. */
  ghost function ImportBook(w: World, b: Book, approved: Binding, exported: Binding, now: int, later: int,
                            at: int): (Book, bool) {
    var filled := Completed(w, approved, exported, now, later);
    if filled.None? then (b, false)
    else
      var node := filled.value.nodeId;
      if node in b.nodes then
        (b, !b.nodes[node].disabled && b.nodes[node] == filled.value.(exportedAt := b.nodes[node].exportedAt))
      else (Noted(b.(nodes := b.nodes[node := filled.value]), "import:" + filled.value.approvalId, node, at), true)
  }

  function DisableBook(b: Book, node: string, at: int): (Book, bool) {
    if node !in b.nodes then (b, false)
    else if b.nodes[node].disabled then (b, true)
    else (Noted(b.(nodes := b.nodes[node := b.nodes[node].(disabled := true)]), "disable", node, at), true)
  }

  // ---------- histories ----------

  ghost function NextBook(w: World, b: Book, e: Event): Book {
    match e
    case Http(q, minted, at, fate) => Respond(w, b, q, minted, at, fate).0
    case Import(approved, exported, now, later, at, committed) =>
      if committed then ImportBook(w, b, approved, exported, now, later, at).0 else b
    case Disable(node, at, committed) => if committed then DisableBook(b, node, at).0 else b
    case ExportCrl(at, committed, _) => if committed then Noted(b, "crl", w.issuer, at) else b
    case Restart => b.(failed := false)
  }

  ghost function BookOf(w: World, events: seq<Event>): Book {
    if events == [] then EMPTY else NextBook(w, BookOf(w, events[..|events| - 1]), events[|events| - 1])
  }
}
