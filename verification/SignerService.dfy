/** The signer as a process: the HTTP handler in front of the ledger, the crash points
    inside a transaction, and the command-line operations on the same file. */
module SignerService {
  import opened Text
  import opened Signer

  /** How an attempt ends: it may be killed at a marked point, or the storage may fail. */
  datatype Fate = Completes | CrashPrepare | CrashSigned | CrashCommit | CrashReply | StorageFault

  /** A committed ledger, and the answer unless the process died first. */
  datatype Attempt<+T> = Attempt(ledger: Ledger, answer: Option<Result<T>>)

  function Finish<T>(before: Ledger, after: Ledger, result: Result<T>, fate: Fate): Attempt<T> {
    if result.Err? then Attempt(before, Some(result))
    else if fate == StorageFault then Attempt(before, Some(Err(Other)))
    else if fate == CrashReply then Attempt(after, None)
    else Attempt(after, Some(result))
  }

  function SignAttempt(w: World, l: Ledger, id: Uuid, der: Bytes, minted: Result<string>, at: int,
                       fate: Fate): Attempt<Issuance> {
    var (l', result) := SignStep(w, l, id, der, minted, at);
    var working := w.uuidText(id) !in l.issued && w.parseCsr(der).Some?;
    if working && (fate == CrashPrepare || (minted.Ok? && (fate == CrashSigned || fate == CrashCommit)))
        then Attempt(l, None)
    else Finish(l, l', result, fate)
  }

  function RevokeAttempt(w: World, l: Ledger, id: string, serial: string, reason: string, at: int,
                         fate: Fate): Attempt<()> {
    var (l', result) := RevokeStep(w, l, id, serial, reason, at);
    var working := result.Ok? && !IsRevoked(w, l.issued[id]);
    if working && fate == CrashCommit then Attempt(l, None) else Finish(l, l', result, fate)
  }

  /** A decoded request body with its Idempotency-Key header; `der` is the strict base64
      reading of `csr`. */
  datatype Request = Request(revoke: bool, id: string, csr: string, der: Option<Bytes>, serial: string,
                             reason: string, idempotencyKey: string)

  datatype Response = Response(code: nat, chain: string)

  datatype Process = Process(ledger: Ledger, failed: bool)

  predicate GoodSign(w: World, q: Request) {
    ValidUuid(w, q.id) && q.der.Some? && q.der.value != "" && q.serial == "" && q.reason == ""
        && q.idempotencyKey == q.id
  }

  predicate GoodRevoke(w: World, q: Request) {
    && ValidUuid(w, q.id) && q.idempotencyKey == q.id + ":revoke" && q.csr == ""
    && AcceptedSerial(q.serial) && !Blank(q.reason) && Utf8Length(q.reason) <= 512
  }

  /** A refusal keeps its status; any other error stops the process from serving. */
  function Answer(p: Process, l: Ledger, error: Option<Error>, success: Response): (Process, Response) {
    match error
    case None => (Process(l, p.failed), success)
    case Some(Status(code)) => (Process(l, p.failed), Response(code, ""))
    case Some(_) => (Process(l, true), Response(503, ""))
  }

  function Handle(w: World, p: Process, q: Request, minted: Result<string>, at: int, fate: Fate): (Process,
                  Option<Response>) {
    if p.failed then (p, Some(Response(503, "")))
    else if q.revoke then
      if !GoodRevoke(w, q) then (p, Some(Response(400, "")))
      else
        var a := RevokeAttempt(w, p.ledger, q.id, q.serial, q.reason, at, fate);
        if a.answer.None? then (Process(a.ledger, false), None)
        else
          var (p', response) := Answer(p, a.ledger, if a.answer.value.Ok? then None
              else Some(a.answer.value.error), Response(204, ""));
          (p', Some(response))
    else if !GoodSign(w, q) then (p, Some(Response(400, "")))
    else
      var a := SignAttempt(w, p.ledger, w.parseUuid(q.id).value, q.der.value, minted, at, fate);
      if a.answer.None? then (Process(a.ledger, false), None)
      else
        var result := a.answer.value;
        var (p', response) := Answer(p, a.ledger, if result.Ok? then None else Some(result.error),
                                     Response(200, if result.Ok? then result.value.chain else ""));
        (p', Some(response))
  }

  // ---------- the mutable objects ----------

  /** An open read-write transaction. */
  class Transaction {
    const world: World
    var meta: map<string, Bytes>
    var issued: map<string, Bytes>
    var bindings: map<string, Bytes>
    var audit: map<string, Bytes>
    var sequence: nat

    ghost function View(): Ledger
      reads this
    {
      Ledger(meta, issued, bindings, audit, sequence)
    }

    constructor (world: World, l: Ledger)
      ensures this.world == world && View() == l
    {
      this.world := world;
      meta, issued, bindings, audit, sequence := l.meta, l.issued, l.bindings, l.audit, l.sequence;
    }

    method Put(b: Bucket, key: string, data: Bytes)
      modifies this
      ensures View() == PutRecord(world, old(View()), b, key, data)
    {
      match b {
        case Issued => issued := issued[key := data];
        case Bindings => bindings := bindings[key := data];
        case Audit => audit := audit[key := data];
      }
      meta := meta[IndexKey(b, key) := world.digest(data)];
    }

    method AppendEntry(action: string, id: string, at: int)
      modifies this
      ensures View() == AppendAudit(world, old(View()), AuditEntry(action, id, at))
    {
      sequence := (sequence + 1) % TWO64;
      Put(Audit, AuditKey(sequence), world.encodeAudit(AuditEntry(action, id, at)));
    }

    /** Commit: the ledger the file now holds. */
    method Commit() returns (l: Ledger)
      ensures l == View()
    {
      l := Ledger(meta, issued, bindings, audit, sequence);
    }
  }

  /** The ledger file. `db` is what is committed; a transaction works on its own copy. */
  class Store {
    const world: World
    var db: Ledger

    constructor (world: World)
      ensures this.world == world && db == Initial(world)
    {
      this.world := world;
      db := Initial(world);
    }

    method Sign(id: Uuid, der: Bytes, minted: Result<string>, at: int, fate: Fate)
                returns (answer: Option<Result<Issuance>>)
      modifies this
      ensures Attempt(db, answer) == SignAttempt(world, old(db), id, der, minted, at, fate)
    {
      hide PutRecord, AppendAudit, Decimal;
      var key := world.uuidText(id);
      var result: Issuance;
      if key in db.issued {
        var stored := world.decodeIssuance(db.issued[key]);
        if stored.None? {
          return Some(Err(InvalidState));
        }
        if stored.value.digest != world.digest(der) {
          return Some(Err(Status(409)));
        }
        result := stored.value;
        if fate == StorageFault {
          return Some(Err(Other));
        }
      } else {
        var tx := new Transaction(world, db);
        if world.parseCsr(der).None? {
          return Some(Err(Status(422)));
        }
        if fate == CrashPrepare {
          return None;
        }
        if minted.Err? {
          return Some(Err(minted.error));
        }
        if fate == CrashSigned {
          return None;
        }
        result := Issuance(der, world.digest(der), minted.value, Decimal(id), "", None);
        tx.Put(Issued, key, world.encodeIssuance(result));
        tx.AppendEntry("issue", key, at);
        if fate == CrashCommit {
          return None;
        }
        if fate == StorageFault {
          return Some(Err(Other));
        }
        db := tx.Commit();
      }
      answer := if fate == CrashReply then None else Some(Ok(result));
    }

    method Revoke(id: string, serial: string, reason: string, at: int, fate: Fate) returns (answer: Option<Result<()>>)
      modifies this
      ensures Attempt(db, answer) == RevokeAttempt(world, old(db), id, serial, reason, at, fate)
    {
      hide PutRecord, AppendAudit;
      if id !in db.issued {
        return Some(Err(Status(404)));
      }
      var stored := world.decodeIssuance(db.issued[id]);
      if stored.None? {
        return Some(Err(InvalidState));
      }
      var r := stored.value;
      if serial != r.serial || (r.revokedAt.Some? && r.reason != reason) {
        return Some(Err(Status(409)));
      }
      var tx := new Transaction(world, db);
      if r.revokedAt.None? {
        tx.Put(Issued, id, world.encodeIssuance(r.(reason := reason, revokedAt := Some(at))));
        tx.AppendEntry("revoke", id, at);
        if fate == CrashCommit {
          return None;
        }
      }
      if fate == StorageFault {
        return Some(Err(Other));
      }
      db := tx.Commit();
      answer := if fate == CrashReply then None else Some(Ok(()));
    }

    method Disable(node: string, at: int) returns (result: Result<()>)
      modifies this
      ensures (db, result) == DisableStep(world, old(db), node, at)
    {
      var stored := world.decodeBinding(Get(db.bindings, node));
      if stored.None? {
        return Err(Other);
      }
      if stored.value.disabled {
        return Ok(());
      }
      var tx := new Transaction(world, db);
      tx.Put(Bindings, node, world.encodeBinding(stored.value.(disabled := true)));
      tx.AppendEntry("disable", node, at);
      db := tx.Commit();
      result := Ok(());
    }

    /** The approved descriptor with the key of the last export that matches it. */
    method MatchKey(k: Descriptor, exported: seq<Descriptor>) returns (filled: Option<Descriptor>)
      ensures filled == FillKey(world, k, exported)
    {
      filled := None;
      for i := 0 to |exported|
        invariant filled == FillKey(world, k, exported[..i])
      {
        assert exported[..i + 1][..i] == exported[..i];
        if KeyMatches(world, k, exported[i]) {
          filled := Some(k.(der := exported[i].der));
        }
      }
      assert exported[..|exported|] == exported;
    }

    method ImportBinding(approved: Binding, exported: Binding, now: int, later: int, at: int)
                         returns (result: Result<()>)
      modifies this
      ensures (db, result) == ImportStep(world, old(db), approved, exported, now, later, at)
    {
      if !FreshExport(approved, exported, now, later) {
        return Err(Other);
      }
      var first := MatchKey(approved.keys[0], exported.keys);
      if first.None? {
        return Err(Other);
      }
      var second := MatchKey(approved.keys[1], exported.keys);
      if second.None? {
        return Err(Other);
      }
      var b := approved.(keys := [first.value, second.value]);
      if !ValidBinding(world, b) {
        return Err(Other);
      }
      result := SaveBinding(b, at);
    }

    method SaveBinding(b: Binding, at: int) returns (result: Result<()>)
      modifies this
      ensures (db, result) == StoreBinding(world, old(db), b, at)
    {
      if b.nodeId in db.bindings {
        var stored := db.bindings[b.nodeId];
        var previous := world.decodeBinding(stored);
        if previous.None? || previous.value.disabled {
          return Err(Other);
        }
        if stored != world.encodeBinding(b.(exportedAt := previous.value.exportedAt)) {
          return Err(Other);
        }
        return Ok(());
      }
      var tx := new Transaction(world, db);
      tx.Put(Bindings, b.nodeId, world.encodeBinding(b));
      tx.AppendEntry("import:" + b.approvalId, b.nodeId, at);
      db := tx.Commit();
      result := Ok(());
    }

    method ExportCrl(at: int) returns (result: Result<Crl>)
      modifies this
      ensures (db, result) == CrlStep(world, old(db), at)
    {
      var tx := new Transaction(world, db);
      tx.AppendEntry("crl", world.issuer, at);
      var collected := CollectRevoked(world, db);
      if collected.None? {
        return Err(InvalidState);
      }
      db := tx.Commit();
      result := Ok(Crl(db.sequence, collected.value));
    }
  }

  lemma AddEntry(w: World, issued: map<string, Bytes>, keys: set<string>, key: string)
    requires keys <= issued.Keys && key in issued && Listable(w, issued[key])
    requires forall k | k in keys :: Listable(w, issued[k])
    ensures EntriesAmong(w, issued, keys + {key})
            == EntriesAmong(w, issued, keys) + if IsRevoked(w, issued[key]) then {EntryOf(w, issued[key])} else {}
  {
    hide Listable, IsRevoked, EntryOf;
  }

  /** The entries of a revocation list, record by record; none if a record is unreadable. */
  method CollectRevoked(w: World, l: Ledger) returns (entries: Option<set<RevokedEntry>>)
    ensures entries.Some? <==> forall key | key in l.issued :: Listable(w, l.issued[key])
    ensures entries.Some? ==> entries.value == Entries(w, l)
  {
    hide Listable, IsRevoked, EntryOf, EntriesAmong;
    var found: set<RevokedEntry> := {};
    var keys := l.issued.Keys;
    var pending := keys;
    NoEntries(w, l.issued);
    assert keys - pending == {};
    while pending != {}
      invariant pending <= keys
      invariant forall key | key in keys - pending :: Listable(w, l.issued[key])
      invariant found == EntriesAmong(w, l.issued, keys - pending)
      decreases |pending|
    {
      var key :| key in pending;
      var data := l.issued[key];
      if !Listable(w, data) {
        return None;
      }
      AddEntry(w, l.issued, keys - pending, key);
      assert keys - (pending - {key}) == (keys - pending) + {key};
      pending := pending - {key};
      if IsRevoked(w, data) {
        found := found + {EntryOf(w, data)};
      }
    }
    assert keys - pending == keys;
    entries := Some(found);
  }

  lemma NoEntries(w: World, issued: map<string, Bytes>)
    ensures EntriesAmong(w, issued, {}) == {}
  {}

  // ---------- the start-up check ----------

  method CheckDigests(w: World, l: Ledger, b: Bucket) returns (ok: bool)
    ensures ok <==> forall key | key in Records(l, b) :: CheckRecordDigest(w, l, b, key)
  {
    var pending := Records(l, b).Keys;
    while pending != {}
      invariant pending <= Records(l, b).Keys
      invariant forall key | key in Records(l, b) && key !in pending :: CheckRecordDigest(w, l, b, key)
      decreases |pending|
    {
      var key :| key in pending;
      if !CheckRecordDigest(w, l, b, key) {
        return false;
      }
      pending := pending - {key};
    }
    ok := true;
  }

  method CheckIndex(w: World, l: Ledger) returns (ok: bool)
    ensures ok <==> forall key | key in l.meta :: CheckIndexEntry(w, l, key)
  {
    var pending := l.meta.Keys;
    while pending != {}
      invariant pending <= l.meta.Keys
      invariant forall key | key in l.meta && key !in pending :: CheckIndexEntry(w, l, key)
      decreases |pending|
    {
      var key :| key in pending;
      if !CheckIndexEntry(w, l, key) {
        return false;
      }
      pending := pending - {key};
    }
    ok := true;
  }

  method CheckIssuances(w: World, l: Ledger) returns (ok: bool)
    ensures ok <==> forall key | key in l.issued :: CheckIssuance(w, key, l.issued[key])
  {
    var pending := l.issued.Keys;
    while pending != {}
      invariant pending <= l.issued.Keys
      invariant forall key | key in l.issued && key !in pending :: CheckIssuance(w, key, l.issued[key])
      decreases |pending|
    {
      var key :| key in pending;
      if !CheckIssuance(w, key, l.issued[key]) {
        return false;
      }
      pending := pending - {key};
    }
    ok := true;
  }

  method CheckBindings(w: World, l: Ledger) returns (ok: bool)
    ensures ok <==> forall key | key in l.bindings :: CheckBinding(w, key, l.bindings[key])
  {
    var pending := l.bindings.Keys;
    while pending != {}
      invariant pending <= l.bindings.Keys
      invariant forall key | key in l.bindings && key !in pending :: CheckBinding(w, key, l.bindings[key])
      decreases |pending|
    {
      var key :| key in pending;
      if !CheckBinding(w, key, l.bindings[key]) {
        return false;
      }
      pending := pending - {key};
    }
    ok := true;
  }

  /** The whole check, in its own order. */
  method Check(w: World, l: Ledger) returns (ok: bool)
    ensures ok <==> Consistent(w, l)
  {
    hide CheckHeader, CheckRecordDigest, CheckIndexEntry, CheckIssuance, CheckBinding;
    if l.sequence != |l.audit| % TWO64 || !CheckHeader(w, l) {
      return false;
    }
    var issued := CheckDigests(w, l, Issued);
    if !issued { return false; }
    var bindings := CheckDigests(w, l, Bindings);
    if !bindings { return false; }
    var audit := CheckDigests(w, l, Audit);
    if !audit { return false; }
    var index := CheckIndex(w, l);
    if !index { return false; }
    var issuances := CheckIssuances(w, l);
    if !issuances { return false; }
    ok := CheckBindings(w, l);
  }
}
