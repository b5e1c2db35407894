/** Schema migration of the control plane's PostgreSQL database. Two artifacts describe
    it: the schema of a fresh install, and the revisions that lead to the same schema
    from an older one. The journal in the database holds one receipt per revision.

    A schema is known here by its catalog fingerprint. */
module Migration {
  import opened Text

  const CHECKPOINT_REF := "v1.2.0@169102557cd610847c9f6ac2083336cdcf82c483"
  const CHECKPOINT_CHECKSUM := "d837335f22c70858f4e2a5277332e478ecd6032e7b55f57d6512484bfab6f172"
  const TRANSITION_CHECKSUM := "970d63e2b1845808d8d49885bf90b2a133b4cf28fa08c336b0a45ff7e51cb5bd"

  // ---------- artifacts ----------

  datatype Receipt = Receipt(checksum: string, steps: nat)

  /** `catalog` is the fingerprint in the metadata of the last step, if it is well formed. */
  datatype Revision = Revision(number: int, checksum: string, steps: nat, catalog: Option<string>,
                               checkpoint: Option<Receipt>)

  datatype Checkpoint = Checkpoint(epoch: int, revision: int, ref: string, receipt: Option<Receipt>,
                                   catalog: Option<string>)

  datatype Transition = Transition(checksum: string, steps: nat, endsInCleanup: bool, catalog: Option<string>)

  datatype Schema = Schema(kind: string, epoch: int, number: int, checksum: string, steps: nat,
                           catalog: Option<string>, history: string)

  datatype Upgrade = Upgrade(kind: string, epoch: int, base: Option<Receipt>, baseCatalog: Option<string>,
                             revisions: seq<Revision>, previous: Option<Checkpoint>, transition: Option<Transition>)

  datatype Artifacts = Artifacts(schema: Schema, upgrade: Upgrade)

  /** What reading the SQL markers already guarantees. */
  predicate WellRead(a: Artifacts) {
    && a.schema.epoch > 0 && a.schema.steps > 0
    && (forall i | 0 <= i < |a.upgrade.revisions| ::
          a.upgrade.revisions[i].number == i + 1 && a.upgrade.revisions[i].steps > 0)
    && (a.upgrade.previous.Some? ==>
          a.upgrade.transition.Some? && a.upgrade.previous.value.epoch == a.upgrade.epoch - 1 > 0)
  }

  function Last(a: Artifacts): nat {
    |a.upgrade.revisions|
  }

  /** The fingerprint expected after a revision. */
  function Catalog(a: Artifacts, revision: int): Option<string> {
    if revision == 0 then a.upgrade.baseCatalog
    else if revision < 0 || revision > Last(a) then None
    else a.upgrade.revisions[revision - 1].catalog
  }

  function CheckpointOf(a: Artifacts, revision: int): Option<Receipt>
    requires 0 <= revision <= Last(a)
  {
    if revision == 0 then a.upgrade.base else a.upgrade.revisions[revision - 1].checkpoint
  }

  /** The two artifacts belong together; `covered` is the checksum of the upgrade history
      that the schema claims to cover. */
  predicate Accepted(a: Artifacts, covered: string) {
    var s, u := a.schema, a.upgrade;
    && s.kind == "schema" && u.kind == "upgrade" && s.epoch == u.epoch && s.number == Last(a)
    && u.base.Some? && (s.epoch > 1 ==> u.previous.Some? && u.transition.Some?)
    && (s.epoch > 1 && s.number == 0 ==> s.history == u.transition.value.checksum)
    && (s.epoch > 1 && s.number > 0 ==> u.transition.value.checksum == TRANSITION_CHECKSUM)
    && (s.number > 0 ==> s.history == covered)
    && s.catalog.Some? && s.catalog == Catalog(a, s.number)
    && CheckpointOf(a, s.number) == Some(Receipt(s.checksum, s.steps))
    && (forall i | 0 <= i < Last(a) :: u.revisions[i].catalog.Some?)
    && (u.previous.Some? ==> AcceptedTransition(a))
  }

  predicate AcceptedTransition(a: Artifacts)
    requires a.upgrade.previous.Some?
  {
    var p, t := a.upgrade.previous.value, a.upgrade.transition;
    && t.Some? && t.value.steps >= 2 && t.value.endsInCleanup
    && t.value.catalog.Some? && t.value.catalog == Catalog(a, 0)
    && p.receipt == Some(Receipt(CHECKPOINT_CHECKSUM, 1)) && p.ref == CHECKPOINT_REF && p.epoch == 1 && p.revision == 0
    && p.catalog.Some?
  }

  // ---------- the journal ----------

  datatype Row = Row(epoch: int, revision: int, checksum: string, state: string, step: int, started: int,
                     verified: Option<int>)

  predicate Matches(row: Row, r: Receipt) {
    row.state == "verified" && row.step == r.steps && row.verified.Some? && row.verified.value >= row.started
        && row.checksum == r.checksum
  }

  /** The receipt a row must carry, by where it stands: the first row of the run shows a
      checkpoint (the base one after a retained previous row), later rows a revision. */
  function Expected(a: Artifacts, revision: int, first: bool): Option<Receipt>
    requires 0 <= revision <= Last(a)
  {
    if first then CheckpointOf(a, revision)
    else if revision == 0 then None
    else Some(Receipt(a.upgrade.revisions[revision - 1].checksum, a.upgrade.revisions[revision - 1].steps))
  }

  predicate RowFits(a: Artifacts, row: Row, revision: int, first: bool) {
    && row.epoch == a.schema.epoch && row.revision == revision && 0 <= revision <= Last(a)
    && Expected(a, revision, first).Some? && Matches(row, Expected(a, revision, first).value)
  }

  /** A contiguous run of exact receipts; after a retained row it starts at zero. */
  predicate IsRun(a: Artifacts, rows: seq<Row>, retained: bool) {
    && rows != [] && (retained ==> rows[0].revision == 0)
    && forall i | 0 <= i < |rows| :: RowFits(a, rows[i], rows[0].revision + i, i == 0)
  }

  predicate IsPrevious(a: Artifacts, row: Row) {
    a.upgrade.previous.Some? &&
    var p := a.upgrade.previous.value;
    p.receipt.Some? && row.epoch == p.epoch && row.revision == p.revision && Matches(row, p.receipt.value)
  }

  /** Only the pinned previous checkpoint is there. */
  predicate IsPending(a: Artifacts, rows: seq<Row>) {
    |rows| == 1 && rows[0].epoch != a.schema.epoch && IsPrevious(a, rows[0])
  }

  /** An optional previous checkpoint, then a run. */
  predicate IsJournal(a: Artifacts, rows: seq<Row>) {
    || IsPending(a, rows)
    || IsRun(a, rows, false)
    || (|rows| > 1 && rows[0].epoch != a.schema.epoch && IsPrevious(a, rows[0]) && IsRun(a, rows[1..], true))
  }

  function Head(a: Artifacts, rows: seq<Row>): int {
    if rows == [] || IsPending(a, rows) then 0 else rows[|rows| - 1].revision
  }

  datatype Admission = Admission(head: int, pending: bool)

  /** `admit`: one pass over the rows in order. */
  method Admit(a: Artifacts, rows: seq<Row>) returns (admission: Option<Admission>)
    requires a.upgrade.base.Some? && (a.upgrade.previous.Some? ==> a.upgrade.previous.value.receipt.Some?)
    ensures admission.Some? <==> IsJournal(a, rows)
    ensures admission.Some? ==> admission.value == Admission(Head(a, rows), IsPending(a, rows))
  {
    if rows == [] {
      return None;
    }
    var current, retained := rows, false;
    if rows[0].epoch != a.schema.epoch {
      if !IsPrevious(a, rows[0]) {
        return None;
      }
      current, retained := rows[1..], true;
      if current == [] {
        return Some(Admission(0, true));
      }
    }
    var last := 0;
    for i := 0 to |current|
      invariant forall j | 0 <= j < i :: RowFits(a, current[j], current[0].revision + j, j == 0)
      invariant i > 0 ==> last == current[i - 1].revision && (retained ==> current[0].revision == 0)
    {
      var row := current[i];
      if row.epoch != a.schema.epoch || row.revision < 0 || row.revision > Last(a)
          || (i > 0 && row.revision != last + 1) {
        return None;
      }
      var expected: Option<Receipt>;
      if i == 0 && retained {
        if row.revision != 0 {
          return None;
        }
        expected := a.upgrade.base;
      } else if i == 0 {
        expected := if row.revision > 0 then a.upgrade.revisions[row.revision - 1].checkpoint else a.upgrade.base;
        if expected.None? {
          return None;
        }
      } else {
        var r := a.upgrade.revisions[row.revision - 1];
        expected := Some(Receipt(r.checksum, r.steps));
      }
      if !Matches(row, expected.value) {
        return None;
      }
      last := row.revision;
    }
    admission := Some(Admission(last, false));
  }

  // ---------- laws of the journal ----------

  function Revised(r: Revision): Receipt {
    Receipt(r.checksum, r.steps)
  }

  /** Every nonempty beginning of a run is a run, and so is the run with the next receipt. */
  lemma RunPrefix(a: Artifacts, rows: seq<Row>, retained: bool, k: nat)
    requires IsRun(a, rows, retained) && 0 < k <= |rows|
    ensures IsRun(a, rows[..k], retained)
  {
    hide RowFits;
    assert rows[..k][0] == rows[0];
  }

  lemma RunExtends(a: Artifacts, rows: seq<Row>, retained: bool, row: Row)
    requires WellRead(a) && IsRun(a, rows, retained)
    requires RowFits(a, row, rows[|rows| - 1].revision + 1, false)
    ensures IsRun(a, rows + [row], retained)
  {
    var last := |rows| - 1;
    assert RowFits(a, rows[last], rows[0].revision + last, last == 0);
    assert row.revision == rows[0].revision + last + 1;
    assert (rows + [row])[0] == rows[0];
  }

  /** The same for journals, with or without the previous checkpoint in front. */
  lemma JournalPrefix(a: Artifacts, rows: seq<Row>, k: nat)
    requires IsJournal(a, rows) && 0 < k <= |rows|
    ensures IsJournal(a, rows[..k])
    ensures k == |rows| || IsPending(a, rows[..k]) || Head(a, rows[..k]) == rows[k - 1].revision
  {
    hide IsRun, IsPrevious;
    if IsRun(a, rows, false) {
      RunPrefix(a, rows, false, k);
    } else if k > 1 {
      RunPrefix(a, rows[1..], true, k - 1);
      assert rows[..k][1..] == rows[1..][..k - 1];
    } else {
      assert rows[..1][0] == rows[0];
    }
  }

  lemma JournalExtends(a: Artifacts, rows: seq<Row>, row: Row)
    requires WellRead(a) && IsJournal(a, rows) && !IsPending(a, rows)
    requires RowFits(a, row, Head(a, rows) + 1, false)
    ensures IsJournal(a, rows + [row]) && Head(a, rows + [row]) == Head(a, rows) + 1 && !IsPending(a, rows + [row])
  {
    hide IsPrevious;
    if IsRun(a, rows, false) {
      hide IsRun, RowFits;
      RunExtends(a, rows, false, row);
    } else {
      hide IsRun, RowFits;
      RunExtends(a, rows[1..], true, row);
      assert (rows + [row])[1..] == rows[1..] + [row];
    }
    assert row.revision == Head(a, rows) + 1;
  }

  /** The artifacts of a later release: more revisions, everything else as before. */
  predicate LaterRelease(a: Artifacts, b: Artifacts) {
    && b.schema.epoch == a.schema.epoch && b.upgrade.previous == a.upgrade.previous
    && b.upgrade.base == a.upgrade.base && b.upgrade.baseCatalog == a.upgrade.baseCatalog
    && a.upgrade.revisions <= b.upgrade.revisions
  }

  /** A later release accepts every journal an earlier one accepts, with the same head. */
  lemma LaterReleaseAdmits(a: Artifacts, b: Artifacts, rows: seq<Row>)
    requires IsJournal(a, rows) && LaterRelease(a, b)
    ensures IsJournal(b, rows) && Head(b, rows) == Head(a, rows) && (IsPending(b, rows) <==> IsPending(a, rows))
  {
    hide IsRun;
    if IsRun(a, rows, false) {
      RunLater(a, b, rows, false);
    } else if |rows| > 1 {
      RunLater(a, b, rows[1..], true);
    }
  }

  lemma RunLater(a: Artifacts, b: Artifacts, rows: seq<Row>, retained: bool)
    requires IsRun(a, rows, retained) && LaterRelease(a, b)
    ensures IsRun(b, rows, retained)
  {
    forall i | 0 <= i < |rows| ensures RowFits(b, rows[i], rows[0].revision + i, i == 0) {
      assert RowFits(a, rows[i], rows[0].revision + i, i == 0);
    }
  }

  // ---------- the database ----------

  /** `inUse` is false for a database without any object of its own. */
  datatype Database = Database(inUse: bool, catalog: string, rows: seq<Row>)

  /** A schema in the middle of the transition: its fingerprint, and the fingerprint
      without the two metadata tables that are about to be dropped. */
  datatype Halfway = Halfway(catalog: string, business: string)

  /** What the SQL of each step makes of a schema, or that it fails. `partitions` says whether
      the month partitions can be made in the end; the fingerprint does not see them. */
  datatype Sql = Sql(
    install: Option<string>,
    upgrade: (int, string) -> Option<string>,
    transition: string -> Option<Halfway>,
    cleanup: string -> Option<string>,
    partitions: bool)

  predicate Before(x: Row, y: Row) {
    x.epoch < y.epoch || (x.epoch == y.epoch && x.revision < y.revision)
  }

  /** Insert into the table read in order of epoch and revision; the pair is its key. */
  function Insert(rows: seq<Row>, row: Row): Option<seq<Row>> {
    if rows == [] then Some([row])
    else
      var last := rows[|rows| - 1];
      if Before(last, row) then Some(rows + [row])
      else if !Before(row, last) then None
      else
        var rest := Insert(rows[..|rows| - 1], row);
        if rest.None? then None else Some(rest.value + [last])
  }

  function Verified(a: Artifacts, revision: int, r: Receipt, now: int): Row {
    Row(a.schema.epoch, revision, r.checksum, "verified", r.steps, now, Some(now))
  }

  function DropEpoch(rows: seq<Row>, epoch: int): seq<Row> {
    if rows == [] then []
    else DropEpoch(rows[..|rows| - 1], epoch) + if rows[|rows| - 1].epoch == epoch then [] else [rows[|rows| - 1]]
  }

  /** A transaction: the new database, or nothing if it was rolled back. */
  function Install(a: Artifacts, sql: Sql, db: Database, now: int): Option<Database> {
    var rows := Insert(db.rows, Verified(a, a.schema.number, Receipt(a.schema.checksum, a.schema.steps), now));
    if sql.install.None? || sql.install != Catalog(a, a.schema.number) || rows.None? then None
    else Some(Database(true, sql.install.value, rows.value))
  }

  function ApplyRevision(a: Artifacts, sql: Sql, db: Database, r: Revision, now: int): Option<Database> {
    var after := sql.upgrade(r.number, db.catalog);
    var rows := Insert(db.rows, Verified(a, r.number, Revised(r), now));
    if after.None? || after != Catalog(a, r.number) || rows.None? then None
    else Some(db.(catalog := after.value, rows := rows.value))
  }

  /** The new checkpoint is verified before the old metadata is dropped, and again after. */
  function ApplyTransition(a: Artifacts, sql: Sql, db: Database, now: int): Option<Database>
    requires a.upgrade.base.Some? && a.upgrade.previous.Some?
  {
    var halfway := sql.transition(db.catalog);
    var rows := Insert(db.rows, Verified(a, 0, a.upgrade.base.value, now));
    if halfway.None? || Some(halfway.value.business) != Catalog(a, 0) || rows.None? || !IsJournal(a, rows.value)
        || IsPending(a, rows.value) then None
    else
      var after := sql.cleanup(halfway.value.catalog);
      var kept := DropEpoch(rows.value, a.upgrade.previous.value.epoch);
      if after.None? || after != Catalog(a, 0) || !IsJournal(a, kept) || IsPending(a, kept) || |kept| != 1 then None
      else Some(Database(true, after.value, kept))
  }

  datatype Outcome = Done | Failed | Killed

  datatype Progress = Progress(db: Database, outcome: Outcome)

  function Ended(sql: Sql, db: Database): Progress {
    Progress(db, if sql.partitions then Done else Failed)
  }

  /** The revisions above `head`, from the one at index `k`, each in its own transaction;
      the process is killed once `budget` transactions have committed. */
  function ApplyAll(a: Artifacts, sql: Sql, db: Database, k: nat, head: int, now: int, budget: nat): Progress
    decreases Last(a) - k
  {
    if k >= Last(a) then Ended(sql, db)
    else if a.upgrade.revisions[k].number <= head then ApplyAll(a, sql, db, k + 1, head, now, budget)
    else if budget == 0 then Progress(db, Killed)
    else
      var next := ApplyRevision(a, sql, db, a.upgrade.revisions[k], now);
      if next.None? then Progress(db, Failed) else ApplyAll(a, sql, next.value, k + 1, head, now, budget - 1)
  }

  /** A database that is in use: admit its journal, check its schema, bring it up to date. */
  function Update(a: Artifacts, sql: Sql, db: Database, now: int, budget: nat): Progress
    requires a.upgrade.base.Some?
  {
    if !IsJournal(a, db.rows) then Progress(db, Failed)
    else if IsPending(a, db.rows) then
      if a.upgrade.previous.value.catalog != Some(db.catalog) then Progress(db, Failed)
      else if budget == 0 then Progress(db, Killed)
      else
        var next := ApplyTransition(a, sql, db, now);
        if next.None? then Progress(db, Failed) else ApplyAll(a, sql, next.value, 0, 0, now, budget - 1)
    else if Catalog(a, Head(a, db.rows)) != Some(db.catalog) then Progress(db, Failed)
    else ApplyAll(a, sql, db, 0, Head(a, db.rows), now, budget)
  }

  function Migrate(a: Artifacts, sql: Sql, db: Database, now: int, budget: nat): Progress
    requires a.upgrade.base.Some?
  {
    if db.inUse then Update(a, sql, db, now, budget)
    else if budget == 0 then Progress(db, Killed)
    else
      var installed := Install(a, sql, db, now);
      if installed.None? then Progress(db, Failed) else Update(a, sql, installed.value, now, budget - 1)
  }

  // ---------- convergence ----------

  /** States the migration can start from: empty, the pinned previous checkpoint, or any
      admitted journal, each with the schema that belongs to it. */
  predicate Supported(a: Artifacts, db: Database) {
    if !db.inUse then db.rows == []
    else
      && IsJournal(a, db.rows)
      && Some(db.catalog) == if IsPending(a, db.rows) then a.upgrade.previous.value.catalog
         else Catalog(a, Head(a, db.rows))
  }

  predicate Converged(a: Artifacts, db: Database) {
    && db.inUse && IsJournal(a, db.rows) && !IsPending(a, db.rows)
    && Head(a, db.rows) == Last(a) && Catalog(a, Last(a)) == Some(db.catalog)
  }

  /** In use, admitted and checked, at revision `head`. */
  predicate At(a: Artifacts, db: Database, head: int) {
    && db.inUse && IsJournal(a, db.rows) && !IsPending(a, db.rows)
    && Head(a, db.rows) == head && Catalog(a, head) == Some(db.catalog)
  }

  lemma LastRow(a: Artifacts, rows: seq<Row>)
    requires IsJournal(a, rows) && !IsPending(a, rows)
    ensures rows != [] && rows[|rows| - 1].epoch == a.schema.epoch && 0 <= Head(a, rows) <= Last(a)
  {
    hide IsPrevious, Matches, Expected;
    if IsRun(a, rows, false) {
      var k := |rows| - 1;
      assert RowFits(a, rows[k], rows[0].revision + k, k == 0);
    } else {
      var run := rows[1..];
      var k := |run| - 1;
      assert RowFits(a, run[k], run[0].revision + k, k == 0);
    }
  }

  lemma RevisionApplied(a: Artifacts, sql: Sql, db: Database, k: nat, now: int)
    requires WellRead(a) && k < Last(a) && At(a, db, k)
    requires ApplyRevision(a, sql, db, a.upgrade.revisions[k], now).Some?
    ensures At(a, ApplyRevision(a, sql, db, a.upgrade.revisions[k], now).value, k + 1)
  {
    hide IsJournal, IsPending, IsRun;
    var r := a.upgrade.revisions[k];
    var row := Verified(a, r.number, Revised(r), now);
    LastRow(a, db.rows);
    HeadIsLast(a, db.rows);
    JournalExtends(a, db.rows, row);
  }

  lemma HeadIsLast(a: Artifacts, rows: seq<Row>)
    requires rows != [] && !IsPending(a, rows)
    ensures Head(a, rows) == rows[|rows| - 1].revision
  {}

  lemma {:induction false} AllApplied(a: Artifacts, sql: Sql, db: Database, k: nat, head: int, now: int, budget: nat)
    requires WellRead(a) && k <= Last(a) && 0 <= head <= Last(a) && At(a, db, if k <= head then head else k)
    ensures var p := ApplyAll(a, sql, db, k, head, now, budget);
            && Supported(a, p.db) && (p.outcome.Done? ==> Converged(a, p.db))
            && (head == Last(a) ==> p == Ended(sql, db))
    decreases Last(a) - k
  {
    hide At, ApplyRevision, Supported, Converged;
    AtIsSupported(a, db, if k <= head then head else k);
    if k < Last(a) {
      if k + 1 <= head {
        AllApplied(a, sql, db, k + 1, head, now, budget);
      } else if budget > 0 {
        var next := ApplyRevision(a, sql, db, a.upgrade.revisions[k], now);
        if next.Some? {
          RevisionApplied(a, sql, db, k, now);
          AllApplied(a, sql, next.value, k + 1, head, now, budget - 1);
        }
      }
    } else {
      ConvergedAtLast(a, db);
    }
  }

  lemma ConvergedAtLast(a: Artifacts, db: Database)
    ensures At(a, db, Last(a)) <==> Converged(a, db)
  {}

  lemma AtIsSupported(a: Artifacts, db: Database, m: int)
    requires At(a, db, m)
    ensures Supported(a, db)
  {}

  /** A fresh install is admitted at the last revision. */
  lemma Installed(a: Artifacts, covered: string, sql: Sql, db: Database, now: int)
    requires WellRead(a) && Accepted(a, covered) && db.rows == [] && Install(a, sql, db, now).Some?
    ensures At(a, Install(a, sql, db, now).value, Last(a))
  {
    var rows := Install(a, sql, db, now).value.rows;
    var row := Verified(a, a.schema.number, Receipt(a.schema.checksum, a.schema.steps), now);
    assert rows == [row];
    assert RowFits(a, row, a.schema.number, true);
    assert IsRun(a, rows, false);
  }

  lemma Transitioned(a: Artifacts, covered: string, sql: Sql, db: Database, now: int)
    requires WellRead(a) && Accepted(a, covered) && IsPending(a, db.rows) && ApplyTransition(a, sql, db, now).Some?
    ensures At(a, ApplyTransition(a, sql, db, now).value, 0)
  {
    hide IsJournal, IsRun, Matches, Accepted;
    NeedsBase(a, covered);
    var row := Verified(a, 0, a.upgrade.base.value, now);
    PreviousEpoch(a, covered);
    assert Before(db.rows[0], row);
    assert db.rows == [db.rows[0]];
    var rows := Insert(db.rows, row).value;
    assert rows == [db.rows[0], row];
    TwoRows(db.rows[0], row, a.upgrade.previous.value.epoch);
  }

  lemma PreviousEpoch(a: Artifacts, covered: string)
    requires WellRead(a) && Accepted(a, covered) && a.upgrade.previous.Some?
    ensures a.upgrade.previous.value.epoch < a.schema.epoch
  {}

  lemma TwoRows(x: Row, y: Row, epoch: int)
    requires x.epoch == epoch && y.epoch != epoch
    ensures DropEpoch([x, y], epoch) == [y]
  {
    assert [x][..0] == [] && DropEpoch([x], epoch) == [];
    assert [x, y][..1] == [x];
  }

  /** Success means convergence: from whatever database it started, a run that succeeds
      ends at the last revision with the schema of a fresh install. A run that fails or is
      killed leaves a state that can be started from again. */
  lemma MigrationConverges(a: Artifacts, covered: string, sql: Sql, db: Database, now: int, budget: nat)
    requires WellRead(a) && Accepted(a, covered)
    ensures var p := Migrate(a, sql, db, now, budget);
            && (p.outcome.Done? && (db.inUse || db.rows == [])
               ==> Converged(a, p.db) && Some(p.db.catalog) == a.schema.catalog)
            && (Supported(a, db) ==> Supported(a, p.db))
  {
    hide At, Supported, Update, Install, Accepted;
    NeedsBase(a, covered);
    if db.inUse {
      UpdateConverges(a, covered, sql, db, now, budget);
    } else if budget > 0 {
      var installed := Install(a, sql, db, now);
      if installed.Some? && db.rows == [] {
        Installed(a, covered, sql, db, now);
        AtIsSupported(a, installed.value, Last(a));
        assert installed.value.inUse by { AtIsUsed(a, installed.value, Last(a)); }
        UpdateConverges(a, covered, sql, installed.value, now, budget - 1);
      } else {
        EmptyIsSupported(a, db);
      }
    }
    LastCatalog(a, covered);
  }

  lemma NeedsBase(a: Artifacts, covered: string)
    requires Accepted(a, covered)
    ensures a.upgrade.base.Some?
  {}

  lemma LastCatalog(a: Artifacts, covered: string)
    requires Accepted(a, covered)
    ensures a.schema.catalog == Catalog(a, Last(a))
  {}

  lemma AtIsUsed(a: Artifacts, db: Database, m: int)
    requires At(a, db, m)
    ensures db.inUse
  {}

  lemma EmptyIsSupported(a: Artifacts, db: Database)
    ensures !db.inUse && Supported(a, db) ==> db.rows == []
  {}

  lemma UpdateConverges(a: Artifacts, covered: string, sql: Sql, db: Database, now: int, budget: nat)
    requires WellRead(a) && Accepted(a, covered) && db.inUse && a.upgrade.base.Some?
    ensures var p := Update(a, sql, db, now, budget);
            (p.outcome.Done? ==> Converged(a, p.db)) && (Supported(a, db) ==> Supported(a, p.db))
  {
    hide ApplyTransition, ApplyAll, IsRun, Catalog, Accepted;
    if IsJournal(a, db.rows) {
      if IsPending(a, db.rows) {
        if a.upgrade.previous.value.catalog == Some(db.catalog) && budget > 0 {
          var next := ApplyTransition(a, sql, db, now);
          if next.Some? {
            Transitioned(a, covered, sql, db, now);
            FromHere(a, sql, next.value, 0, now, budget - 1);
          }
        }
      } else if Catalog(a, Head(a, db.rows)) == Some(db.catalog) {
        FromHere(a, sql, db, Head(a, db.rows), now, budget);
      }
    }
  }

  lemma FromHere(a: Artifacts, sql: Sql, db: Database, head: int, now: int, budget: nat)
    requires WellRead(a) && At(a, db, head)
    ensures var p := ApplyAll(a, sql, db, 0, head, now, budget);
            (p.outcome.Done? ==> Converged(a, p.db)) && Supported(a, p.db) && (head == Last(a) ==> p == Ended(sql, db))
  {
    LastRow(a, db.rows);
    hide At, Supported, Converged;
    AllApplied(a, sql, db, 0, head, now, budget);
  }

  /** Once converged, a further run touches nothing, and succeeds if the partitions do. */
  lemma RerunIsIdle(a: Artifacts, covered: string, sql: Sql, db: Database, now: int, budget: nat)
    requires WellRead(a) && Accepted(a, covered) && Converged(a, db)
    ensures Migrate(a, sql, db, now, budget) == Ended(sql, db)
  {
    hide ApplyAll, Accepted;
    ConvergedAtLast(a, db);
    FromHere(a, sql, db, Last(a), now, budget);
  }

  // ---------- kills and reruns ----------

  /** The SQL does what the fingerprints in the artifacts say. */
  predicate SqlWorks(a: Artifacts, sql: Sql) {
    && sql.install == a.schema.catalog && sql.partitions
    && (forall k | 0 <= k < Last(a) && Catalog(a, k).Some?
       :: sql.upgrade(k + 1, Catalog(a, k).value) == Catalog(a, k + 1))
    && (a.upgrade.previous.Some? && a.upgrade.previous.value.catalog.Some? ==>
          var halfway := sql.transition(a.upgrade.previous.value.catalog.value);
          halfway.Some? && Some(halfway.value.business) == Catalog(a, 0)
              && sql.cleanup(halfway.value.catalog) == Catalog(a, 0))
  }

  lemma RevisionWorks(a: Artifacts, sql: Sql, db: Database, k: nat, now: int)
    requires WellRead(a) && SqlWorks(a, sql) && k < Last(a) && At(a, db, k) && Catalog(a, k + 1).Some?
    ensures ApplyRevision(a, sql, db, a.upgrade.revisions[k], now).Some?
  {
    hide IsJournal, IsPending, IsRun;
    LastRow(a, db.rows);
    HeadIsLast(a, db.rows);
    assert sql.upgrade(k + 1, Catalog(a, k).value) == Catalog(a, k + 1);
    assert Before(db.rows[|db.rows| - 1], Verified(a, k + 1, Revised(a.upgrade.revisions[k]), now));
  }

  lemma {:induction false} AllWork(a: Artifacts, sql: Sql, db: Database, k: nat, head: int, now: int, budget: nat)
    requires WellRead(a) && SqlWorks(a, sql) && (forall i | 0 < i <= Last(a) :: Catalog(a, i).Some?)
    requires k <= Last(a) && 0 <= head <= Last(a) && At(a, db, if k <= head then head else k) && budget >= Last(a) - k
    ensures ApplyAll(a, sql, db, k, head, now, budget).outcome.Done?
    decreases Last(a) - k
  {
    assert sql.partitions;
    hide At, ApplyRevision, SqlWorks, Catalog;
    if k < Last(a) {
      if k + 1 <= head {
        AllWork(a, sql, db, k + 1, head, now, budget);
      } else {
        assert Catalog(a, k + 1).Some?;
        RevisionWorks(a, sql, db, k, now);
        RevisionApplied(a, sql, db, k, now);
        AllWork(a, sql, ApplyRevision(a, sql, db, a.upgrade.revisions[k], now).value, k + 1, head, now, budget - 1);
      }
    }
  }

  lemma AllCatalogs(a: Artifacts, covered: string)
    requires WellRead(a) && Accepted(a, covered)
    ensures forall i | 0 < i <= Last(a) :: Catalog(a, i).Some?
  {}

  lemma TransitionWorks(a: Artifacts, covered: string, sql: Sql, db: Database, now: int)
    requires WellRead(a) && Accepted(a, covered) && SqlWorks(a, sql) && IsPending(a, db.rows)
    requires a.upgrade.previous.value.catalog == Some(db.catalog)
    ensures ApplyTransition(a, sql, db, now).Some?
  {
    NeedsBase(a, covered);
    PreviousEpoch(a, covered);
    var row := Verified(a, 0, a.upgrade.base.value, now);
    SqlTransition(a, sql, db.catalog);
    hide Accepted, WellRead, SqlWorks, Catalog;
    assert db.rows == [db.rows[0]] && Before(db.rows[0], row);
    assert db.rows + [row] == [db.rows[0], row];
    assert Insert(db.rows, row) == Some(db.rows + [row]);
    TwoRows(db.rows[0], row, a.upgrade.previous.value.epoch);
    assert RowFits(a, row, 0, true) && IsRun(a, [row], true) && IsRun(a, [row], false);
    assert [db.rows[0], row][1..] == [row];
  }

  lemma SqlTransition(a: Artifacts, sql: Sql, catalog: string)
    requires SqlWorks(a, sql) && a.upgrade.previous.Some? && a.upgrade.previous.value.catalog == Some(catalog)
    ensures var halfway := sql.transition(catalog);
            halfway.Some? && Some(halfway.value.business) == Catalog(a, 0)
                && sql.cleanup(halfway.value.catalog) == Catalog(a, 0)
  {}

  /** With enough time, a run from any supported state succeeds. */
  lemma MigrationFinishes(a: Artifacts, covered: string, sql: Sql, db: Database, now: int, budget: nat)
    requires WellRead(a) && Accepted(a, covered) && SqlWorks(a, sql) && Supported(a, db) && budget >= Last(a) + 2
    ensures a.upgrade.base.Some? && Migrate(a, sql, db, now, budget).outcome.Done?
  {
    NeedsBase(a, covered);
    if db.inUse {
      UpdateFinishes(a, covered, sql, db, now, budget);
    } else {
      InstallWorks(a, covered, sql, db, now);
      Installed(a, covered, sql, db, now);
      var installed := Install(a, sql, db, now).value;
      AtIsSupported(a, installed, Last(a));
      UpdateFinishes(a, covered, sql, installed, now, budget - 1);
    }
  }

  lemma InstallWorks(a: Artifacts, covered: string, sql: Sql, db: Database, now: int)
    requires Accepted(a, covered) && SqlWorks(a, sql) && db.rows == []
    ensures Install(a, sql, db, now).Some?
  {}

  lemma UpdateFinishes(a: Artifacts, covered: string, sql: Sql, db: Database, now: int, budget: nat)
    requires WellRead(a) && Accepted(a, covered) && SqlWorks(a, sql) && Supported(a, db) && db.inUse && budget > Last(a)
    requires a.upgrade.base.Some?
    ensures Update(a, sql, db, now, budget).outcome.Done?
  {
    AllCatalogs(a, covered);
    hide Accepted, WellRead, SqlWorks, ApplyTransition, ApplyAll, IsRun;
    if IsPending(a, db.rows) {
      TransitionWorks(a, covered, sql, db, now);
      Transitioned(a, covered, sql, db, now);
      AllWork(a, sql, ApplyTransition(a, sql, db, now).value, 0, 0, now, budget - 1);
    } else {
      LastRow(a, db.rows);
      AllWork(a, sql, db, 0, Head(a, db.rows), now, budget);
    }
  }

  /** One run: the release it belongs to, its clock, and after how many transactions it was
      killed. */
  datatype Attempt = Attempt(a: Artifacts, covered: string, sql: Sql, now: int, budget: nat)

  predicate Genuine(r: Attempt) {
    WellRead(r.a) && Accepted(r.a, r.covered) && r.a.upgrade.base.Some?
  }

  /** Each run is by the release before it or a later one. */
  predicate InOrder(runs: seq<Attempt>) {
    && (forall i | 0 <= i < |runs| :: Genuine(runs[i]))
    && (forall i | 0 < i < |runs| :: LaterRelease(runs[i - 1].a, runs[i].a))
  }

  function AfterRuns(db: Database, runs: seq<Attempt>): Database
    requires InOrder(runs)
  {
    if runs == [] then db
    else
      var last := runs[|runs| - 1];
      Migrate(last.a, last.sql, AfterRuns(db, runs[..|runs| - 1]), last.now, last.budget).db
  }

  /** What one release can start from, so can every later one. */
  lemma LaterReleaseSupports(a: Artifacts, b: Artifacts, db: Database)
    requires Supported(a, db) && LaterRelease(a, b)
    ensures Supported(b, db)
  {
    if db.inUse {
      LaterReleaseAdmits(a, b, db.rows);
      if !IsPending(a, db.rows) {
        LastRow(a, db.rows);
      }
    }
  }

  lemma {:induction false} RunsStaySupported(db: Database, runs: seq<Attempt>)
    requires InOrder(runs) && runs != [] && Supported(runs[0].a, db)
    ensures Supported(runs[|runs| - 1].a, AfterRuns(db, runs))
    decreases |runs|
  {
    hide Supported, Migrate, LaterRelease, WellRead, Accepted;
    var before, last := runs[..|runs| - 1], runs[|runs| - 1];
    assert Genuine(last);
    if before != [] {
      RunsStaySupported(db, before);
      assert LaterRelease(runs[|runs| - 2].a, last.a);
      LaterReleaseSupports(before[|before| - 1].a, last.a, AfterRuns(db, before));
    }
    MigrationConverges(last.a, last.covered, last.sql, AfterRuns(db, before), last.now, last.budget);
  }

  /** From the empty database, the previous checkpoint or any admitted journal, through any
      number of runs that failed or were killed, each of the same release or a later one, the
      next complete run ends at the schema of a fresh install of its own release. */
  lemma KilledRunsConverge(db: Database, runs: seq<Attempt>)
    requires InOrder(runs) && runs != [] && Supported(runs[0].a, db)
    requires var last := runs[|runs| - 1]; SqlWorks(last.a, last.sql) && last.budget >= Last(last.a) + 2
    ensures var last := runs[|runs| - 1];
            var p := Migrate(last.a, last.sql, AfterRuns(db, runs[..|runs| - 1]), last.now, last.budget);
            p.outcome.Done? && p.db == AfterRuns(db, runs) && Converged(last.a, p.db)
                && Some(p.db.catalog) == last.a.schema.catalog
  {
    hide SqlWorks, Supported, Converged, Migrate, LaterRelease, WellRead, Accepted;
    var before, last := runs[..|runs| - 1], runs[|runs| - 1];
    assert Genuine(last);
    var reached := AfterRuns(db, before);
    if before != [] {
      RunsStaySupported(db, before);
      assert LaterRelease(runs[|runs| - 2].a, last.a);
      LaterReleaseSupports(before[|before| - 1].a, last.a, reached);
    }
    MigrationFinishes(last.a, last.covered, last.sql, reached, last.now, last.budget);
    MigrationConverges(last.a, last.covered, last.sql, reached, last.now, last.budget);
    EmptyIsSupported(last.a, reached);
  }

  // ---------- the runner ----------

  class Connection {
    var db: Database

    constructor (db: Database)
      ensures this.db == db
    {
      this.db := db;
    }

    /** The revisions above the head, one transaction each. */
    method ApplyRevisions(a: Artifacts, sql: Sql, head: int, now: int, budget: nat) returns (outcome: Outcome)
      modifies this
      ensures Progress(db, outcome) == ApplyAll(a, sql, old(db), 0, head, now, budget)
    {
      var left := budget;
      for k := 0 to Last(a)
        invariant ApplyAll(a, sql, db, k, head, now, left) == ApplyAll(a, sql, old(db), 0, head, now, budget)
      {
        var r := a.upgrade.revisions[k];
        if r.number > head {
          if left == 0 {
            return Killed;
          }
          var next := ApplyRevision(a, sql, db, r, now);
          if next.None? {
            return Failed;
          }
          db, left := next.value, left - 1;
        }
      }
      outcome := if sql.partitions then Done else Failed;
    }

    method Run(a: Artifacts, sql: Sql, now: int, budget: nat) returns (outcome: Outcome)
      requires a.upgrade.base.Some? && (a.upgrade.previous.Some? ==> a.upgrade.previous.value.receipt.Some?)
      modifies this
      ensures Progress(db, outcome) == Migrate(a, sql, old(db), now, budget)
    {
      hide ApplyAll, IsJournal, ApplyTransition, Install, Catalog, IsPending;
      var left := budget;
      if !db.inUse {
        if left == 0 {
          return Killed;
        }
        var installed := Install(a, sql, db, now);
        if installed.None? {
          return Failed;
        }
        db, left := installed.value, left - 1;
      }
      var admission := Admit(a, db.rows);
      if admission.None? {
        return Failed;
      }
      if admission.value.pending {
        PendingHasPrevious(a, db.rows);
        if a.upgrade.previous.value.catalog != Some(db.catalog) {
          return Failed;
        }
        if left == 0 {
          return Killed;
        }
        var next := ApplyTransition(a, sql, db, now);
        if next.None? {
          return Failed;
        }
        db, left := next.value, left - 1;
      } else if Catalog(a, admission.value.head) != Some(db.catalog) {
        return Failed;
      }
      outcome := ApplyRevisions(a, sql, admission.value.head, now, left);
    }
  }

  lemma PendingHasPrevious(a: Artifacts, rows: seq<Row>)
    requires IsPending(a, rows)
    ensures a.upgrade.previous.Some? && Head(a, rows) == 0
  {}
}
