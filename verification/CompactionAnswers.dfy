/** A compaction run told by the columns of the journal alone: which journals are refused,
    and what becomes of each row. */
module CompactionAnswers {
  import opened Text
  import opened Compaction
  import opened CompactionResults

  /** Capital letters count like small ones. */
  predicate SpellsReconciliation(word: string) {
    var w := "reconciliation";
    |word| == |w| && forall i | 0 <= i < |w| :: word[i] == w[i] || word[i] as int + 32 == w[i] as int
  }

  ghost predicate NeedsReconciliation(error: string) {
    exists before, word, after :: SpellsReconciliation(word) && error == before + word + after
  }

  /** Work on this row may still be going on. */
  ghost predicate IsOpen(c: Command) {
    c.state !in {"succeeded", "failed"} || (c.error.Some? && NeedsReconciliation(c.error.value))
  }

  predicate OtherAuthority(j: Journal, binding: Bytes, legacy: bool) {
    if "controller_binding" in j.metadata then j.metadata["controller_binding"] != binding else !legacy
  }

  predicate KnownTable(name: string) {
    || name == "agent_metadata" || name == "command_journal" || name == "synthetic_effects"
    || name == "synthetic_effect_counter" || name == "telemetry_buffer" || name == "telemetry_drop_counters"
    || name == "applied_resource_revisions" || name == "retired_command_details"
  }

  predicate OtherSchema(j: Journal) {
    || "agent_metadata" !in j.tables || "command_journal" !in j.tables || "synthetic_effects" !in j.tables
    || exists t | t in j.tables :: !KnownTable(t)
  }

  ghost predicate Hindered(j: Journal, binding: Bytes, legacy: bool) {
    OtherSchema(j) || OtherAuthority(j, binding, legacy) || exists k | k in j.commands :: IsOpen(j.commands[k])
  }

  lemma SpellsIsSame(word: string)
    ensures SpellsReconciliation(word) <==> SameIgnoringCase(word, "reconciliation")
  {
    var w := "reconciliation";
    assert forall i | 0 <= i < |w| :: 'a' <= w[i] <= 'z' && Lower(w[i]) == w[i];
    if |word| == |w| {
      forall i | 0 <= i < |w|
        ensures (word[i] == w[i] || word[i] as int + 32 == w[i] as int) <==> Lower(word[i]) == Lower(w[i])
      {
        LowerOf(word[i], w[i]);
      }
    }
  }

  lemma LowerOf(c: char, small: char)
    requires 'a' <= small <= 'z'
    ensures (c == small || c as int + 32 == small as int) <==> Lower(c) == small
  {}

  lemma MentionsIs(s: string)
    ensures Mentions(s, "reconciliation") <==> NeedsReconciliation(s)
  {
    hide SpellsReconciliation, SameIgnoringCase;
    var n := |"reconciliation"|;
    if i :| 0 <= i <= |s| && MentionsAt(s, "reconciliation", i) {
      var before, word, after := s[..i], s[i..i + n], s[i + n..];
      SpellsIsSame(word);
      assert s == before + word + after;
    }
    if before, word, after :| SpellsReconciliation(word) && s == before + word + after {
      SpellsIsSame(word);
      assert |word| == n by { SpelledLength(word); }
      assert s[|before|..|before| + n] == word;
      assert MentionsAt(s, "reconciliation", |before|);
    }
  }

  lemma SpelledLength(word: string)
    requires SpellsReconciliation(word)
    ensures |word| == |"reconciliation"|
  {}

  lemma SchemaIs(j: Journal)
    ensures NEEDED <= j.tables <= KNOWN <==> !OtherSchema(j)
  {
    assert forall t :: t in KNOWN <==> KnownTable(t);
  }

  lemma AcceptsIs(j: Journal, binding: Bytes, legacy: bool)
    ensures Accepts(j, binding, legacy) <==> !Hindered(j, binding, legacy)
  {
    hide Mentions, NeedsReconciliation, OtherSchema;
    SchemaIs(j);
    forall k | k in j.commands ensures Unresolved(j.commands[k]) <==> IsOpen(j.commands[k]) {
      if j.commands[k].error.Some? {
        MentionsIs(j.commands[k].error.value);
      }
    }
  }

  /** A journal is refused exactly when its schema or its authority is another, or a command
      of it is still open; and then nothing of it ever changes, however often it is tried. */
  lemma {:induction false} RefusedExactlyWhen(digest: Bytes -> Bytes, j: Journal, binding: Bytes, legacy: bool,
                                              events: seq<Event>, now: int)
    ensures var j' := Run(digest, j, binding, legacy, events);
            && (CompactStep(digest, j', binding, legacy, now).1.Refused? <==> Hindered(j, binding, legacy))
            && (Hindered(j, binding, legacy) ==> j' == j)
    decreases |events|
  {
    hide Accepts, Hindered, Opened, Settled, Batch, Pending;
    AcceptsIs(j, binding, legacy);
    if Accepts(j, binding, legacy) {
      RunProgress(digest, j, binding, legacy, events);
    } else if events != [] {
      RefusedExactlyWhen(digest, j, binding, legacy, events[..|events| - 1], now);
    }
  }

  // ---------- row by row ----------

  predicate Later(j: Journal, k: Bytes, x: Bytes)
    requires k in j.commands && x in j.commands
  {
    var a, b := j.commands[k].updatedAt, j.commands[x].updatedAt;
    a < b || (a == b && Less(k, x))
  }

  /** A row with a result, without a proof and not yet buried. */
  predicate IsDue(j: Journal, k: Bytes) {
    k in j.commands && j.commands[k].result.Some? && j.commands[k].proof.None? && k !in j.tombstones
  }

  /** A run that is not refused buries due rows, oldest first: a buried row loses its result
      and the text of its effect to their digests, dated now; every other row stays as it
      is; and the retired binding is on record. */
  lemma RowByRow(digest: Bytes -> Bytes, j: Journal, binding: Bytes, legacy: bool, now: int, k: Bytes, x: Bytes)
    requires !Hindered(j, binding, legacy) && k in j.commands && x in j.commands
    ensures var j' := CompactStep(digest, j, binding, legacy, now).0;
            && k in j'.commands
            && (if j'.commands[k] != j.commands[k] then
                  && IsDue(j, k) && j'.commands[k] == j.commands[k].(result := None)
                  && (k in j.effects ==> k in j'.effects && j'.effects[k] == "")
                  && k in j'.tombstones
                  && j'.tombstones[k] == Tombstone(digest(j.commands[k].result.value),
                                                   if k in j.effects then Some(digest(j.effects[k])) else None, now)
                else
                  && (k in j.effects ==> k in j'.effects && j'.effects[k] == j.effects[k])
                  && (k in j'.tombstones <==> k in j.tombstones)
                  && (k in j.tombstones ==> j'.tombstones[k] == j.tombstones[k]))
            && (x in j'.commands && j'.commands[k] != j.commands[k] && IsDue(j, x) && j'.commands[x] == j.commands[x]
                ==> Later(j, k, x))
            && "retired_binding" in j'.metadata
            && ("retired_binding" !in j.metadata ==> j'.metadata["retired_binding"] == binding)
  {
    hide Accepts, Hindered, Oldest, Pending, Batch, Before, Later;
    AcceptsIs(j, binding, legacy);
    var o := Opened(j, binding);
    BatchSize(o);
    assert forall y :: y in Eligible(o) <==> IsDue(j, y);
    if k in Batch(o) && x !in Batch(o) && IsDue(j, x) {
      BatchIsOlder(o, k, x);
      assert Later(j, k, x) by { LaterIs(j, o, k, x); }
    }
  }

  lemma BatchIsOlder(o: Journal, k: Bytes, x: Bytes)
    requires k in Batch(o) && x !in Batch(o) && x in Eligible(o)
    ensures k in o.commands && x in o.commands && Before(o.commands, k, x)
  {
    hide Oldest, Before;
    OldestFirst(o.commands, Eligible(o), BATCH);
    var rows := Oldest(o.commands, Eligible(o), BATCH);
    var i :| 0 <= i < |rows| && rows[i] == k;
  }

  lemma LaterIs(j: Journal, o: Journal, k: Bytes, x: Bytes)
    requires k in j.commands && x in j.commands && o.commands == j.commands && Before(o.commands, k, x)
    ensures Later(j, k, x)
  {}
}
