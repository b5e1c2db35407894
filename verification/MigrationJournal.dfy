/** The revision journal written out: the receipts that the artifacts call for, column by
    column. A journal is admitted exactly when it consists of these, each verified not
    before it was started, and a database is brought up to date exactly from these. */
module MigrationJournal {
  import opened Text
  import opened Migration

  /** The columns of a row without its times. */
  datatype Entry = Entry(epoch: int, revision: int, checksum: string, state: string, step: int)

  /** Only the previous checkpoint, or the revisions from a checkpoint up to the head, with
      or without the previous one in front. */
  datatype Shape = OnlyPrevious | Through(start: nat, head: nat, retained: bool)

  predicate HasPrevious(a: Artifacts) {
    var p := a.upgrade.previous;
    p.Some? && p.value.receipt.Some? && p.value.epoch != a.schema.epoch
  }

  predicate HasCheckpoint(a: Artifacts, revision: nat) {
    if revision == 0 then a.upgrade.base.Some?
    else revision <= |a.upgrade.revisions| && a.upgrade.revisions[revision - 1].checkpoint.Some?
  }

  predicate Possible(a: Artifacts, s: Shape) {
    match s
    case OnlyPrevious => HasPrevious(a)
    case Through(start, head, retained) =>
      && start <= head <= |a.upgrade.revisions| && HasCheckpoint(a, start)
      && (retained ==> start == 0 && HasPrevious(a))
  }

  function PreviousEntry(a: Artifacts): Entry
    requires HasPrevious(a)
  {
    var p := a.upgrade.previous.value;
    Entry(p.epoch, p.revision, p.receipt.value.checksum, "verified", p.receipt.value.steps)
  }

  function CheckpointEntry(a: Artifacts, revision: nat): Entry
    requires HasCheckpoint(a, revision)
  {
    var r := if revision == 0 then a.upgrade.base.value else a.upgrade.revisions[revision - 1].checkpoint.value;
    Entry(a.schema.epoch, revision, r.checksum, "verified", r.steps)
  }

  function RevisionEntry(a: Artifacts, revision: nat): Entry
    requires 0 < revision <= |a.upgrade.revisions|
  {
    var r := a.upgrade.revisions[revision - 1];
    Entry(a.schema.epoch, revision, r.checksum, "verified", r.steps)
  }

  function Run(a: Artifacts, start: nat, head: nat): (entries: seq<Entry>)
    requires start <= head <= |a.upgrade.revisions| && HasCheckpoint(a, start)
    ensures |entries| == head - start + 1
  {
    if head == start then [CheckpointEntry(a, start)] else Run(a, start, head - 1) + [RevisionEntry(a, head)]
  }

  function Entries(a: Artifacts, s: Shape): seq<Entry>
    requires Possible(a, s)
  {
    match s
    case OnlyPrevious => [PreviousEntry(a)]
    case Through(start, head, retained) => (if retained then [PreviousEntry(a)] else []) + Run(a, start, head)
  }

  function EntryOf(row: Row): Entry {
    Entry(row.epoch, row.revision, row.checksum, row.state, row.step)
  }

  function EntriesOf(rows: seq<Row>): seq<Entry> {
    seq(|rows|, i requires 0 <= i < |rows| => EntryOf(rows[i]))
  }

  predicate InTime(row: Row) {
    row.verified.Some? && row.started <= row.verified.value
  }

  predicate WrittenOut(a: Artifacts, rows: seq<Row>, s: Shape) {
    Possible(a, s) && EntriesOf(rows) == Entries(a, s) && forall i | 0 <= i < |rows| :: InTime(rows[i])
  }

  function HeadOf(s: Shape): nat {
    if s.OnlyPrevious? then 0 else s.head
  }

  // ---------- admitted is written out ----------

  lemma {:induction false} RunEntry(a: Artifacts, start: nat, head: nat, i: nat)
    requires start <= head <= |a.upgrade.revisions| && HasCheckpoint(a, start) && i <= head - start
    ensures Run(a, start, head)[i] == if i == 0 then CheckpointEntry(a, start) else RevisionEntry(a, start + i)
    decreases head
  {
    if i < head - start {
      RunEntry(a, start, head - 1, i);
    }
  }

  lemma FitsIsEntry(a: Artifacts, row: Row, revision: int, first: bool)
    requires 0 <= revision <= |a.upgrade.revisions|
    requires if first then HasCheckpoint(a, revision) else revision > 0
    ensures RowFits(a, row, revision, first)
            <==> InTime(row)
                 && EntryOf(row) == if first then CheckpointEntry(a, revision) else RevisionEntry(a, revision)
  {}

  lemma FitsMeans(a: Artifacts, row: Row, revision: int, first: bool)
    requires RowFits(a, row, revision, first)
    ensures 0 <= revision <= |a.upgrade.revisions| && row.revision == revision && row.epoch == a.schema.epoch
    ensures if first then HasCheckpoint(a, revision) else revision > 0
  {}

  lemma RunIsWritten(a: Artifacts, rows: seq<Row>, start: nat)
    requires rows != [] && start + |rows| - 1 <= |a.upgrade.revisions| && HasCheckpoint(a, start)
    ensures (forall i | 0 <= i < |rows| :: RowFits(a, rows[i], start + i, i == 0))
            <==> EntriesOf(rows) == Run(a, start, start + |rows| - 1) && forall i | 0 <= i < |rows| :: InTime(rows[i])
  {
    hide RowFits, InTime, EntryOf, CheckpointEntry, RevisionEntry;
    var run := Run(a, start, start + |rows| - 1);
    forall i | 0 <= i < |rows|
      ensures RowFits(a, rows[i], start + i, i == 0) <==> InTime(rows[i]) && EntriesOf(rows)[i] == run[i]
    {
      RunEntry(a, start, start + |rows| - 1, i);
      FitsIsEntry(a, rows[i], start + i, i == 0);
    }
    assert EntriesOf(rows) == run <==> forall i | 0 <= i < |rows| :: EntriesOf(rows)[i] == run[i];
  }

  lemma RunFacts(a: Artifacts, rows: seq<Row>, retained: bool)
    requires IsRun(a, rows, retained)
    ensures rows != []
    ensures var start := rows[0].revision;
            && 0 <= start && start + |rows| - 1 <= |a.upgrade.revisions| && HasCheckpoint(a, start)
            && EntriesOf(rows) == Run(a, start, start + |rows| - 1) && (forall i | 0 <= i < |rows| :: InTime(rows[i]))
            && rows[|rows| - 1].revision == start + |rows| - 1 && rows[0].epoch == a.schema.epoch
  {
    hide RowFits, InTime, HasCheckpoint, Run, EntriesOf, EntryOf;
    var start, last := rows[0].revision, |rows| - 1;
    assert RowFits(a, rows[0], start + 0, true);
    assert RowFits(a, rows[last], start + last, last == 0);
    FitsMeans(a, rows[0], start, true);
    FitsMeans(a, rows[last], start + last, last == 0);
    RunIsWritten(a, rows, start);
  }

  lemma PreviousIsEntry(a: Artifacts, row: Row)
    ensures row.epoch != a.schema.epoch && IsPrevious(a, row)
            <==> HasPrevious(a) && EntryOf(row) == PreviousEntry(a) && InTime(row)
  {}

  lemma PutFirst(row: Row, rows: seq<Row>)
    ensures EntriesOf([row] + rows) == [EntryOf(row)] + EntriesOf(rows)
  {}

  lemma AdmittedIsWritten(a: Artifacts, rows: seq<Row>) returns (s: Shape)
    requires IsJournal(a, rows)
    ensures WrittenOut(a, rows, s) && HeadOf(s) == Head(a, rows) && (s.OnlyPrevious? <==> IsPending(a, rows))
  {
    hide IsRun, IsPrevious, InTime, HasCheckpoint, HasPrevious, PreviousEntry, EntryOf, EntriesOf, Run;
    if IsPending(a, rows) {
      s := OnlyPrevious;
      PreviousIsEntry(a, rows[0]);
      OneEntry(rows);
    } else if IsRun(a, rows, false) {
      RunFacts(a, rows, false);
      s := Through(rows[0].revision, rows[|rows| - 1].revision, false);
      assert Entries(a, s) == Run(a, s.start, s.head);
    } else {
      RetainedRun(a, rows);
      s := Through(0, rows[|rows| - 1].revision, true);
    }
  }

  lemma OneEntry(rows: seq<Row>)
    requires |rows| == 1
    ensures EntriesOf(rows) == [EntryOf(rows[0])]
  {}

  lemma RetainedRun(a: Artifacts, rows: seq<Row>)
    requires |rows| > 1 && rows[0].epoch != a.schema.epoch && IsPrevious(a, rows[0]) && IsRun(a, rows[1..], true)
    ensures var head := rows[|rows| - 1].revision;
            && head >= 0 && WrittenOut(a, rows, Through(0, head, true))
  {
    var run := rows[1..];
    ZeroStart(a, run);
    hide IsRun, IsPrevious, InTime, HasCheckpoint, HasPrevious, PreviousEntry, EntryOf, EntriesOf, Run;
    PreviousIsEntry(a, rows[0]);
    RunFacts(a, run, true);
    PutFirst(rows[0], run);
    assert rows == [rows[0]] + run;
    assert rows[|rows| - 1] == run[|run| - 1];
    forall i | 0 <= i < |rows| ensures InTime(rows[i]) {
      assert i > 0 ==> rows[i] == run[i - 1];
    }
  }

  lemma ZeroStart(a: Artifacts, run: seq<Row>)
    requires IsRun(a, run, true)
    ensures run[0].revision == 0
  {}

  // ---------- written out is admitted ----------

  lemma RunIsAdmitted(a: Artifacts, rows: seq<Row>, start: nat, head: nat, retained: bool)
    requires start <= head <= |a.upgrade.revisions| && HasCheckpoint(a, start) && (retained ==> start == 0)
    requires EntriesOf(rows) == Run(a, start, head) && forall i | 0 <= i < |rows| :: InTime(rows[i])
    ensures IsRun(a, rows, retained) && rows[0].revision == start && rows[|rows| - 1].revision == head
  {
    hide RowFits, InTime, HasCheckpoint, CheckpointEntry, RevisionEntry;
    assert |rows| == |EntriesOf(rows)| == head - start + 1;
    RunIsWritten(a, rows, start);
    var last := |rows| - 1;
    assert RowFits(a, rows[0], start + 0, true);
    assert RowFits(a, rows[last], start + last, last == 0);
    FitsMeans(a, rows[0], start, true);
    FitsMeans(a, rows[last], start + last, last == 0);
  }

  lemma WrittenIsAdmitted(a: Artifacts, rows: seq<Row>, s: Shape)
    requires WrittenOut(a, rows, s)
    ensures IsJournal(a, rows) && Head(a, rows) == HeadOf(s) && (IsPending(a, rows) <==> s.OnlyPrevious?)
  {
    hide IsRun, IsPrevious, InTime, HasCheckpoint, HasPrevious, PreviousEntry, Run;
    assert |rows| == |EntriesOf(rows)|;
    match s
    case OnlyPrevious =>
      assert EntriesOf(rows)[0] == EntryOf(rows[0]);
      PreviousIsEntry(a, rows[0]);
    case Through(start, head, false) =>
      assert Entries(a, s) == Run(a, start, head);
      RunIsAdmitted(a, rows, start, head, false);
      RunFacts(a, rows, false);
    case Through(start, head, true) =>
      var run := rows[1..];
      assert rows == [rows[0]] + run;
      PutFirst(rows[0], run);
      assert EntriesOf(rows)[0] == PreviousEntry(a) && EntriesOf(rows)[1..] == Run(a, start, head);
      PreviousIsEntry(a, rows[0]);
      RunIsAdmitted(a, run, start, head, true);
  }

  /** A journal is admitted exactly when it is one of those written out. */
  lemma AdmittedExactly(a: Artifacts, rows: seq<Row>)
    ensures IsJournal(a, rows) <==> exists s :: WrittenOut(a, rows, s)
  {
    hide IsJournal, WrittenOut, IsPending;
    if IsJournal(a, rows) {
      var s := AdmittedIsWritten(a, rows);
    }
    if s :| WrittenOut(a, rows, s) {
      WrittenIsAdmitted(a, rows, s);
    }
  }

  lemma {:induction false} RunIsKnown(a: Artifacts, start: nat, head: nat)
    requires start <= head <= |a.upgrade.revisions| && HasCheckpoint(a, start)
    ensures Run(a, start, head)[0].revision == start && Run(a, start, head)[0].epoch == a.schema.epoch
    decreases head
  {
    if head > start {
      RunIsKnown(a, start, head - 1);
    }
  }

  /** The numbers in a journal fix all the rest: with the same epochs and revisions there is
      only one admitted journal, up to its times. */
  lemma NoOtherReceipts(a: Artifacts, rows: seq<Row>, others: seq<Row>)
    requires IsJournal(a, rows) && IsJournal(a, others) && |rows| == |others|
    requires forall i | 0 <= i < |rows| :: rows[i].epoch == others[i].epoch && rows[i].revision == others[i].revision
    ensures EntriesOf(rows) == EntriesOf(others)
  {
    hide IsJournal, InTime, HasCheckpoint, HasPrevious, PreviousEntry, Run, IsPending;
    var s := AdmittedIsWritten(a, rows);
    var s' := AdmittedIsWritten(a, others);
    SameShape(a, s, s', EntriesOf(rows), EntriesOf(others));
  }

  lemma FirstEntry(a: Artifacts, s: Shape)
    requires Possible(a, s)
    ensures var entries := Entries(a, s);
            && entries != []
            && (entries[0].epoch != a.schema.epoch <==> s.OnlyPrevious? || s.retained)
            && (s.Through? && !s.retained ==> entries[0].revision == s.start)
            && |entries| == if s.OnlyPrevious? then 1 else s.head - s.start + if s.retained then 2 else 1
  {
    if s.Through? {
      RunIsKnown(a, s.start, s.head);
      assert !s.retained ==> Entries(a, s) == Run(a, s.start, s.head);
    }
  }

  lemma SameShape(a: Artifacts, s: Shape, s': Shape, entries: seq<Entry>, others: seq<Entry>)
    requires Possible(a, s) && Possible(a, s') && entries == Entries(a, s) && others == Entries(a, s')
    requires |entries| == |others|
    requires forall i | 0 <= i < |entries| ::
               entries[i].epoch == others[i].epoch && entries[i].revision == others[i].revision
    ensures s == s'
  {
    hide Entries, HasPrevious, HasCheckpoint;
    FirstEntry(a, s);
    FirstEntry(a, s');
  }

  /** A row with another checksum, state or number of steps, or one that was not verified or
      verified before it was started, spoils the journal. */
  lemma ChangedIsRefused(a: Artifacts, rows: seq<Row>, i: nat, row: Row)
    requires IsJournal(a, rows) && i < |rows| && row.epoch == rows[i].epoch && row.revision == rows[i].revision
    requires EntryOf(row) != EntryOf(rows[i]) || !InTime(row)
    ensures !IsJournal(a, rows[i := row])
  {
    var others := rows[i := row];
    if IsJournal(a, others) {
      hide IsJournal, InTime;
      AllInTime(a, others, i);
      NoOtherReceipts(a, rows, others);
      SameEntry(rows, others, i);
    }
  }

  lemma AllInTime(a: Artifacts, rows: seq<Row>, i: nat)
    requires IsJournal(a, rows) && i < |rows|
    ensures InTime(rows[i])
  {
    hide IsJournal, IsPending, Possible, Entries;
    var s := AdmittedIsWritten(a, rows);
  }

  lemma SameEntry(rows: seq<Row>, others: seq<Row>, i: nat)
    requires EntriesOf(rows) == EntriesOf(others) && i < |rows| == |others|
    ensures EntryOf(rows[i]) == EntryOf(others[i])
  {
    assert EntriesOf(rows)[i] == EntriesOf(others)[i];
  }

  // ---------- what a run does with it ----------

  /** A run with enough time and working SQL succeeds exactly from the supported states, and
      leaves any other database that is in use as it was. */
  lemma FinishesExactlyWhen(a: Artifacts, covered: string, sql: Sql, db: Database, now: int, budget: nat)
    requires WellRead(a) && Accepted(a, covered) && SqlWorks(a, sql) && budget >= Last(a) + 2
    requires db.inUse || db.rows == []
    ensures a.upgrade.base.Some?
    ensures Migrate(a, sql, db, now, budget).outcome.Done? <==> Supported(a, db)
    ensures !Supported(a, db) ==> Migrate(a, sql, db, now, budget) == Progress(db, Failed)
  {
    NeedsBase(a, covered);
    if Supported(a, db) {
      hide Accepted, SqlWorks, Supported, Migrate;
      MigrationFinishes(a, covered, sql, db, now, budget);
    } else {
      hide Accepted, SqlWorks, IsRun, IsPrevious, ApplyAll, ApplyTransition;
    }
  }

  /** Nothing is committed with another schema than the artifacts give: each transaction
      goes through exactly when its SQL succeeds and gives the fingerprint expected, for the
      transition both before and after the old metadata is dropped. */
  lemma CommitsOnlyExpected(a: Artifacts, covered: string, sql: Sql, db: Database, now: int)
    requires WellRead(a) && Accepted(a, covered) && IsPending(a, db.rows)
    ensures a.upgrade.base.Some?
    ensures ApplyTransition(a, sql, db, now).Some? <==>
              && sql.transition(db.catalog).Some?
              && Some(sql.transition(db.catalog).value.business) == a.upgrade.baseCatalog
              && sql.cleanup(sql.transition(db.catalog).value.catalog).Some?
              && sql.cleanup(sql.transition(db.catalog).value.catalog) == a.upgrade.baseCatalog
  {
    NeedsBase(a, covered);
    PreviousEpoch(a, covered);
    var row := Verified(a, 0, a.upgrade.base.value, now);
    hide Accepted, WellRead;
    assert db.rows == [db.rows[0]] && Before(db.rows[0], row);
    assert db.rows + [row] == [db.rows[0], row];
    assert Insert(db.rows, row) == Some(db.rows + [row]);
    TwoRows(db.rows[0], row, a.upgrade.previous.value.epoch);
    assert RowFits(a, row, 0, true) && IsRun(a, [row], true) && IsRun(a, [row], false);
    assert [db.rows[0], row][1..] == [row];
  }

  // ---------- the pair of artifacts ----------

  /** The revisions fix the schema they lead to: with the same upgrade artifact and history
      checksum, two accepted pairs have the same schema artifact. */
  lemma UpgradeFixesSchema(a: Artifacts, b: Artifacts, covered: string)
    requires Accepted(a, covered) && Accepted(b, covered) && a.upgrade == b.upgrade
    requires a.schema.number > 0 || a.schema.epoch > 1
    ensures a.schema == b.schema
  {}

  /** Every accepted pair starts from the same previous checkpoint, whatever its release. */
  lemma OnePrevious(a: Artifacts, covered: string)
    requires Accepted(a, covered) && a.upgrade.previous.Some?
    ensures var p := a.upgrade.previous.value;
            && p.epoch == 1 && p.revision == 0 && p.ref == "v1.2.0@169102557cd610847c9f6ac2083336cdcf82c483"
            && p.receipt == Some(Receipt("d837335f22c70858f4e2a5277332e478ecd6032e7b55f57d6512484bfab6f172", 1))
    ensures a.schema.number > 0 && a.schema.epoch > 1 ==>
              a.upgrade.transition.value.checksum == "970d63e2b1845808d8d49885bf90b2a133b4cf28fa08c336b0a45ff7e51cb5bd"
    ensures a.upgrade.transition.value.catalog.Some? && a.upgrade.transition.value.catalog == a.upgrade.baseCatalog
    ensures a.upgrade.transition.value.steps >= 2 && a.upgrade.transition.value.endsInCleanup
  {}

  /** The next release: one revision more, with a checkpoint for the schema it leads to. */
  function NextRelease(a: Artifacts, r: Receipt, schema: Receipt, catalog: string, covered: string): Artifacts {
    var n := |a.upgrade.revisions| + 1;
    var revision := Revision(n, r.checksum, r.steps, Some(catalog), Some(schema));
    Artifacts(a.schema.(number := n, checksum := schema.checksum, steps := schema.steps, catalog := Some(catalog),
                        history := covered),
              a.upgrade.(revisions := a.upgrade.revisions + [revision]))
  }

  /** It is accepted in its turn, and is a later release; the transition must be the pinned
      one by then. */
  lemma NextReleaseIsAccepted(a: Artifacts, covered: string, r: Receipt, schema: Receipt, catalog: string, next: string)
    requires WellRead(a) && Accepted(a, covered) && r.steps > 0 && schema.steps > 0
    requires a.schema.epoch > 1 ==> a.upgrade.transition.value.checksum == TRANSITION_CHECKSUM
    ensures var b := NextRelease(a, r, schema, catalog, next); WellRead(b) && Accepted(b, next) && LaterRelease(a, b)
  {
    var b := NextRelease(a, r, schema, catalog, next);
    assert b.upgrade.revisions[..Last(a)] == a.upgrade.revisions;
  }
}
