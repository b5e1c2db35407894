/** What any number of compaction runs, finished or aborted, leaves of a retired journal. */
module CompactionResults {
  import opened Text
  import opened Compaction

  /** A run that commits, or one that is refused by the system on the way and rolled back. */
  datatype Event = Compacted(now: int) | Aborted

  ghost function Next(digest: Bytes -> Bytes, j: Journal, binding: Bytes, legacy: bool, e: Event): Journal {
    if e.Aborted? then j else CompactStep(digest, j, binding, legacy, e.now).0
  }

  ghost function Run(digest: Bytes -> Bytes, j: Journal, binding: Bytes, legacy: bool, events: seq<Event>): Journal {
    if events == [] then j
    else Next(digest, Run(digest, j, binding, legacy, events[..|events| - 1]), binding, legacy, events[|events| - 1])
  }

  function Commits(events: seq<Event>): nat {
    if events == [] then 0
    else Commits(events[..|events| - 1]) + if events[|events| - 1].Compacted? then 1 else 0
  }

  // ---------- evidence ----------

  /** The row is as it was, or its result is gone, had no proof, and is buried by digest. */
  predicate RowKept(digest: Bytes -> Bytes, first: Journal, j: Journal, k: Bytes)
    requires k in first.commands
  {
    var c := first.commands[k];
    && k in j.commands
    && (|| j.commands[k] == c
        || (&& Unproved(c) && j.commands[k] == c.(result := None)
            && k in j.tombstones && j.tombstones[k].result == digest(c.result.value)))
  }

  predicate EffectKept(digest: Bytes -> Bytes, first: Journal, j: Journal, k: Bytes)
    requires k in first.effects
  {
    && k in j.effects
    && (|| j.effects[k] == first.effects[k]
        || (&& k in first.commands && Unproved(first.commands[k]) && j.effects[k] == ""
            && k in j.tombstones && j.tombstones[k].synthetic == Some(digest(first.effects[k]))))
  }

  predicate MetadataKept(first: Journal, j: Journal) {
    forall name | name in first.metadata :: name in j.metadata && j.metadata[name] == first.metadata[name]
  }

  predicate TombstonesKept(first: Journal, j: Journal) {
    forall k | k in first.tombstones :: k in j.tombstones && j.tombstones[k] == first.tombstones[k]
  }

  predicate Evidence(digest: Bytes -> Bytes, first: Journal, j: Journal) {
    && j.commands.Keys == first.commands.Keys && j.effects.Keys == first.effects.Keys
    && (forall k | k in first.commands :: RowKept(digest, first, j, k))
    && (forall k | k in first.effects :: EffectKept(digest, first, j, k))
    && j.revisions == first.revisions && MetadataKept(first, j) && TombstonesKept(first, j)
  }

  lemma OpenKeeps(digest: Bytes -> Bytes, first: Journal, j: Journal, binding: Bytes)
    requires Evidence(digest, first, j)
    ensures Evidence(digest, first, Opened(j, binding))
  {
    var o := Opened(j, binding);
    assert forall k | k in first.commands :: RowKept(digest, first, j, k) ==> RowKept(digest, first, o, k);
    assert forall k | k in first.effects :: EffectKept(digest, first, j, k) ==> EffectKept(digest, first, o, k);
  }

  lemma SettleKeeps(digest: Bytes -> Bytes, first: Journal, j: Journal, done: set<Bytes>, now: int)
    requires Evidence(digest, first, j) && done <= Eligible(j)
    ensures Evidence(digest, first, Settled(digest, j, done, now))
  {
    var s := Settled(digest, j, done, now);
    forall k | k in first.commands ensures RowKept(digest, first, s, k) {
      assert RowKept(digest, first, j, k);
    }
    forall k | k in first.effects ensures EffectKept(digest, first, s, k) {
      assert EffectKept(digest, first, j, k);
      if k in done {
        assert RowKept(digest, first, j, k);
      }
    }
  }

  lemma StepKeeps(digest: Bytes -> Bytes, first: Journal, j: Journal, binding: Bytes, legacy: bool, e: Event)
    requires Evidence(digest, first, j)
    ensures Evidence(digest, first, Next(digest, j, binding, legacy, e))
  {
    hide Evidence, Accepts, Opened, Settled, Batch;
    if e.Compacted? && Accepts(j, binding, legacy) {
      OpenKeeps(digest, first, j, binding);
      BatchSize(Opened(j, binding));
      SettleKeeps(digest, first, Opened(j, binding), Batch(Opened(j, binding)), e.now);
    }
  }

  /** However many runs commit or abort: no row disappears, each result is there or buried
      by its own digest, rows with a privileged proof and revision floors are untouched. */
  lemma {:induction false} EvidenceIsConserved(digest: Bytes -> Bytes, j: Journal, binding: Bytes, legacy: bool,
                                               events: seq<Event>)
    ensures Evidence(digest, j, Run(digest, j, binding, legacy, events))
  {
    if events != [] {
      hide Evidence, Next;
      var before := events[..|events| - 1];
      EvidenceIsConserved(digest, j, binding, legacy, before);
      StepKeeps(digest, j, Run(digest, j, binding, legacy, before), binding, legacy, events[|events| - 1]);
    }
  }

  /** A row with a privileged proof keeps its result and its effect. */
  lemma ProvedRowsStay(digest: Bytes -> Bytes, j: Journal, binding: Bytes, legacy: bool, events: seq<Event>, k: Bytes)
    requires k in j.commands && j.commands[k].proof.Some?
    ensures var j' := Run(digest, j, binding, legacy, events);
            && k in j'.commands && j'.commands[k] == j.commands[k]
            && (k in j.effects ==> k in j'.effects && j'.effects[k] == j.effects[k])
  {
    EvidenceIsConserved(digest, j, binding, legacy, events);
    hide Run;
    var j' := Run(digest, j, binding, legacy, events);
    assert RowKept(digest, j, j', k);
    assert k in j.effects ==> EffectKept(digest, j, j', k);
  }

  // ---------- progress ----------

  lemma TablesStayKnown(tables: set<string>)
    requires NEEDED <= tables <= KNOWN
    ensures NEEDED <= tables + {"retired_command_details"} <= KNOWN
  {}

  lemma AuthorityStays(j: Journal, binding: Bytes, legacy: bool)
    ensures Authority(Opened(j, binding).metadata, binding, legacy) <==> Authority(j.metadata, binding, legacy)
  {}

  lemma AcceptsStays(digest: Bytes -> Bytes, j: Journal, binding: Bytes, legacy: bool, done: set<Bytes>, now: int)
    requires Accepts(j, binding, legacy) && done <= Eligible(Opened(j, binding))
    ensures Accepts(Settled(digest, Opened(j, binding), done, now), binding, legacy)
  {
    hide Mentions, Authority;
    TablesStayKnown(j.tables);
    AuthorityStays(j, binding, legacy);
  }

  lemma SettledSets(digest: Bytes -> Bytes, j: Journal, done: set<Bytes>, now: int)
    requires done <= Eligible(j)
    ensures var s := Settled(digest, j, done, now); Eligible(s) == Eligible(j) - done && Stuck(s) == Stuck(j)
  {}

  lemma OpenedSets(j: Journal, binding: Bytes)
    ensures Eligible(Opened(j, binding)) == Eligible(j) && Stuck(Opened(j, binding)) == Stuck(j)
  {}

  lemma PendingSets(j: Journal)
    ensures Pending(j) == Eligible(j) + Stuck(j)
  {}

  /** One run takes the oldest 32 rows, or all there are, and leaves the journal acceptable. */
  lemma StepProgress(digest: Bytes -> Bytes, j: Journal, binding: Bytes, legacy: bool, now: int)
    requires Accepts(j, binding, legacy)
    ensures var (j', out) := CompactStep(digest, j, binding, legacy, now);
            && Accepts(j', binding, legacy) && Stuck(j') == Stuck(j)
            && |Eligible(j')| == (if BATCH < |Eligible(j)| then |Eligible(j)| - BATCH else 0)
            && out == Done(|Eligible(j)| <= BATCH && Stuck(j) == {})
  {
    hide Accepts, Opened, Settled, Batch, Eligible, Stuck, Pending;
    var o := Opened(j, binding);
    var done := Batch(o);
    BatchSize(o);
    OpenedSets(j, binding);
    SettledSets(digest, o, done, now);
    AcceptsStays(digest, j, binding, legacy, done, now);
    var j' := Settled(digest, o, done, now);
    PendingSets(j');
    assert |Eligible(o) - done| == |Eligible(o)| - |done|;
    assert |Eligible(j')| == 0 <==> Eligible(j') == {};
  }

  lemma {:induction false} RunProgress(digest: Bytes -> Bytes, j: Journal, binding: Bytes, legacy: bool,
                                       events: seq<Event>)
    requires Accepts(j, binding, legacy)
    ensures var j' := Run(digest, j, binding, legacy, events);
            && Accepts(j', binding, legacy) && Stuck(j') == Stuck(j)
            && var done := BATCH * Commits(events);
               |Eligible(j')| == if done < |Eligible(j)| then |Eligible(j)| - done else 0
  {
    hide Accepts, Eligible, Stuck, CompactStep;
    if events != [] {
      var before, last := events[..|events| - 1], events[|events| - 1];
      RunProgress(digest, j, binding, legacy, before);
      if last.Compacted? {
        StepProgress(digest, Run(digest, j, binding, legacy, before), binding, legacy, last.now);
      }
    }
  }

  /** After k committed runs the next one reports completion exactly when 32 * (k + 1) covers
      the rows there were and no row had both a tombstone and a result. Aborts do not count. */
  lemma CompleteOnTime(digest: Bytes -> Bytes, j: Journal, binding: Bytes, legacy: bool, events: seq<Event>, now: int)
    requires Accepts(j, binding, legacy)
    ensures CompactStep(digest, Run(digest, j, binding, legacy, events), binding, legacy, now).1
            == Done(|Eligible(j)| <= BATCH * (Commits(events) + 1) && Stuck(j) == {})
  {
    hide Accepts, Eligible, Stuck, CompactStep, Run;
    RunProgress(digest, j, binding, legacy, events);
    StepProgress(digest, Run(digest, j, binding, legacy, events), binding, legacy, now);
  }

  lemma FreshIsNotStuck(j: Journal)
    requires j.tombstones == map[]
    ensures Stuck(j) == {}
  {}

  /** A journal that was never compacted is complete with the run that takes its last rows. */
  lemma FreshIsComplete(digest: Bytes -> Bytes, j: Journal, binding: Bytes, legacy: bool, events: seq<Event>, now: int)
    requires Accepts(j, binding, legacy) && j.tombstones == map[]
    ensures CompactStep(digest, Run(digest, j, binding, legacy, events), binding, legacy, now).1
            == Done(|Eligible(j)| <= BATCH * (Commits(events) + 1))
  {
    hide Accepts, Eligible, CompactStep, Run;
    FreshIsNotStuck(j);
    CompleteOnTime(digest, j, binding, legacy, events, now);
  }

  function StuckJournal(binding: Bytes, k: Bytes): Journal {
    var command := Command("succeeded", Some("r"), None, None, 0, "");
    Journal(NEEDED + {"retired_command_details"}, map["controller_binding" := binding],
            map[k := command], map[], map[], map[k := Tombstone("d", None, 0)])
  }

  /** One row with a tombstone and a result: acceptable, nothing to do, and never complete. */
  lemma NeverComplete(digest: Bytes -> Bytes, binding: Bytes, k: Bytes, events: seq<Event>, now: int)
    ensures var j := StuckJournal(binding, k);
            && Accepts(j, binding, false) && Eligible(j) == {}
            && CompactStep(digest, Run(digest, j, binding, false, events), binding, false, now).1 == Done(false)
  {
    var j := StuckJournal(binding, k);
    TablesStayKnown(NEEDED);
    assert k in Stuck(j);
    hide Run, CompactStep, Stuck, StuckJournal;
    CompleteOnTime(digest, j, binding, false, events, now);
  }
}
