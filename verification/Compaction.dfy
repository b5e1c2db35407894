/** Compacting the command journal of a retired binding, a batch of rows at a time. */
module Compaction {
  import opened Text

  type Bytes = string

  const BATCH := 32

  /** One command row; `rest` stands for the columns that compaction does not look at. */
  datatype Command = Command(state: string, result: Option<Bytes>, error: Option<string>, proof: Option<Bytes>,
                             updatedAt: int, rest: Bytes)

  datatype Tombstone = Tombstone(result: Bytes, synthetic: Option<Bytes>, at: int)

  datatype Journal = Journal(
    tables: set<string>,
    metadata: map<string, Bytes>,
    commands: map<Bytes, Command>,
    effects: map<Bytes, Bytes>,
    revisions: map<string, int>,
    tombstones: map<Bytes, Tombstone>)

  datatype Outcome = Refused | Done(complete: bool)

  // ---------- guards ----------

  const NEEDED := {"agent_metadata", "command_journal", "synthetic_effects"}

  const KNOWN := {"agent_metadata", "command_journal", "synthetic_effects", "synthetic_effect_counter",
                  "telemetry_buffer", "telemetry_drop_counters", "applied_resource_revisions",
                      "retired_command_details"}

  function Lower(c: char): char {
    if 'A' <= c <= 'Z' then (c as int + 32) as char else c
  }

  predicate SameIgnoringCase(a: string, b: string) {
    |a| == |b| && forall i | 0 <= i < |a| :: Lower(a[i]) == Lower(b[i])
  }

  predicate MentionsAt(s: string, word: string, i: nat) {
    i + |word| <= |s| && SameIgnoringCase(s[i..i + |word|], word)
  }

  predicate Mentions(s: string, word: string) {
    exists i | 0 <= i <= |s| :: MentionsAt(s, word, i)
  }

  predicate Unresolved(c: Command) {
    (c.state != "succeeded" && c.state != "failed") || (c.error.Some? && Mentions(c.error.value, "reconciliation"))
  }

  predicate Authority(metadata: map<string, Bytes>, binding: Bytes, legacy: bool) {
    if "controller_binding" in metadata then metadata["controller_binding"] == binding else legacy
  }

  predicate Accepts(j: Journal, binding: Bytes, legacy: bool) {
    && NEEDED <= j.tables <= KNOWN
    && Authority(j.metadata, binding, legacy)
    && forall k | k in j.commands :: !Unresolved(j.commands[k])
  }

  // ---------- rows ----------

  predicate Unproved(c: Command) {
    c.result.Some? && c.proof.None?
  }

  /** The rows whose result is still there without a privileged proof. */
  function Pending(j: Journal): set<Bytes> {
    set k | k in j.commands && Unproved(j.commands[k])
  }

  /** The rows a batch is taken from. */
  function Eligible(j: Journal): set<Bytes> {
    set k | k in j.commands && Unproved(j.commands[k]) && k !in j.tombstones
  }

  /** Rows that have both a tombstone and a result. */
  function Stuck(j: Journal): set<Bytes> {
    set k | k in j.commands && Unproved(j.commands[k]) && k in j.tombstones
  }

  // ---------- oldest first ----------

  predicate Before(commands: map<Bytes, Command>, a: Bytes, b: Bytes)
    requires a in commands && b in commands
  {
    commands[a].updatedAt < commands[b].updatedAt || (commands[a].updatedAt == commands[b].updatedAt && Less(a, b))
  }

  ghost predicate IsLeast(commands: map<Bytes, Command>, keys: set<Bytes>, k: Bytes)
    requires keys <= commands.Keys
  {
    k in keys && forall x | x in keys :: x == k || Before(commands, k, x)
  }

  lemma BeforeIsOrder(commands: map<Bytes, Command>, a: Bytes, b: Bytes, c: Bytes)
    requires a in commands && b in commands && c in commands
    ensures !Before(commands, a, a)
    ensures a == b || Before(commands, a, b) || Before(commands, b, a)
    ensures Before(commands, a, b) && Before(commands, b, c) ==> Before(commands, a, c)
  {
    LessIrreflexive(a);
    LessTotal(a, b);
    if Less(a, b) && Less(b, c) {
      LessTransitive(a, b, c);
    }
  }

  lemma {:induction false} LeastExists(commands: map<Bytes, Command>, keys: set<Bytes>)
    requires keys != {} && keys <= commands.Keys
    ensures exists k :: IsLeast(commands, keys, k)
    decreases keys
  {
    hide Before;
    var k :| k in keys;
    var others := keys - {k};
    if others == {} {
      assert keys == {k};
      assert IsLeast(commands, keys, k);
    } else {
      LeastExists(commands, others);
      var m :| IsLeast(commands, others, m);
      BeforeIsOrder(commands, k, m, m);
      if Before(commands, k, m) {
        forall x | x in keys ensures x == k || Before(commands, k, x) {
          if x != k {
            BeforeIsOrder(commands, k, m, x);
          }
        }
        assert IsLeast(commands, keys, k);
      } else {
        assert IsLeast(commands, keys, m);
      }
    }
  }

  lemma LeastIsOne(commands: map<Bytes, Command>, keys: set<Bytes>, a: Bytes, b: Bytes)
    requires keys <= commands.Keys && IsLeast(commands, keys, a) && IsLeast(commands, keys, b)
    ensures a == b
  {
    BeforeIsOrder(commands, a, b, a);
  }

  ghost function Oldest(commands: map<Bytes, Command>, keys: set<Bytes>, n: nat): seq<Bytes>
    requires keys <= commands.Keys
  {
    if n == 0 || keys == {} then []
    else
      LeastExists(commands, keys);
      var k :| IsLeast(commands, keys, k);
      [k] + Oldest(commands, keys - {k}, n - 1)
  }

  /** The batch is that many of the rows, each once, in order, and nothing left out is older. */
  lemma {:induction false} OldestFirst(commands: map<Bytes, Command>, keys: set<Bytes>, n: nat)
    requires keys <= commands.Keys
    ensures var rows := Oldest(commands, keys, n);
            && |rows| == (if n < |keys| then n else |keys|)
            && (forall i | 0 <= i < |rows| :: rows[i] in keys)
            && (forall i, x | 0 <= i < |rows| && x in keys && x !in rows :: Before(commands, rows[i], x))
            && (forall i, k | 0 <= i < k < |rows| :: Before(commands, rows[i], rows[k]) && rows[i] != rows[k])
    decreases n
  {
    hide Before;
    if n > 0 && keys != {} {
      var rows := Oldest(commands, keys, n);
      var k := rows[0];
      var others := keys - {k};
      assert IsLeast(commands, keys, k);
      assert rows == [k] + Oldest(commands, others, n - 1);
      OldestFirst(commands, others, n - 1);
      assert rows[1..] == Oldest(commands, others, n - 1);
      assert forall i | 1 <= i < |rows| :: rows[i] == rows[1..][i - 1];
      assert |others| == |keys| - 1;
    }
  }

  function Elements(rows: seq<Bytes>): set<Bytes> {
    set k | k in rows
  }

  lemma {:induction false} DistinctCount(rows: seq<Bytes>)
    requires forall i, k | 0 <= i < k < |rows| :: rows[i] != rows[k]
    ensures |Elements(rows)| == |rows|
  {
    if rows != [] {
      var init, last := rows[..|rows| - 1], rows[|rows| - 1];
      DistinctCount(init);
      assert Elements(rows) == Elements(init) + {last};
    }
  }

  ghost function Batch(j: Journal): set<Bytes> {
    Elements(Oldest(j.commands, Eligible(j), BATCH))
  }

  lemma BatchSize(j: Journal)
    ensures Batch(j) <= Eligible(j)
    ensures |Batch(j)| == if BATCH < |Eligible(j)| then BATCH else |Eligible(j)|
  {
    OldestFirst(j.commands, Eligible(j), BATCH);
    DistinctCount(Oldest(j.commands, Eligible(j), BATCH));
  }

  // ---------- one run ----------

  function TombstoneFor(digest: Bytes -> Bytes, j: Journal, k: Bytes, now: int): Tombstone
    requires k in Eligible(j)
  {
    Tombstone(digest(j.commands[k].result.value), if k in j.effects then Some(digest(j.effects[k])) else None, now)
  }

  function Buried(digest: Bytes -> Bytes, j: Journal, done: set<Bytes>, now: int): map<Bytes, Tombstone>
    requires done <= Eligible(j)
  {
    j.tombstones + map k | k in done :: TombstoneFor(digest, j, k, now)
  }

  function Cleared(commands: map<Bytes, Command>, done: set<Bytes>): map<Bytes, Command> {
    map k | k in commands :: if k in done then commands[k].(result := None) else commands[k]
  }

  function Emptied(effects: map<Bytes, Bytes>, done: set<Bytes>): map<Bytes, Bytes> {
    map k | k in effects :: if k in done then "" else effects[k]
  }

  /** The journal after the rows in `done` have been compacted. */
  function Settled(digest: Bytes -> Bytes, j: Journal, done: set<Bytes>, now: int): Journal
    requires done <= Eligible(j)
  {
    j.(tombstones := Buried(digest, j, done, now), commands := Cleared(j.commands, done),
        effects := Emptied(j.effects, done))
  }

  function Opened(j: Journal, binding: Bytes): Journal {
    j.(tables := j.tables + {"retired_command_details"},
       metadata := if "retired_binding" in j.metadata then j.metadata else j.metadata["retired_binding" := binding])
  }

  ghost function CompactStep(digest: Bytes -> Bytes, j: Journal, binding: Bytes, legacy: bool, now: int): (Journal,
                             Outcome) {
    if !Accepts(j, binding, legacy) then (j, Refused)
    else
      BatchSize(Opened(j, binding));
      var j' := Settled(digest, Opened(j, binding), Batch(Opened(j, binding)), now);
      (j', Done(Pending(j') == {}))
  }

  /** The oldest rows, as the database hands them out. */
  method Fetch(commands: map<Bytes, Command>, keys: set<Bytes>, n: nat) returns (rows: seq<Bytes>)
    requires keys <= commands.Keys
    ensures rows == Oldest(commands, keys, n)
  {
    var others := keys;
    rows := [];
    while |rows| < n && others != {}
      invariant others <= keys && |rows| <= n
      invariant Oldest(commands, keys, n) == rows + Oldest(commands, others, n - |rows|)
      decreases others
    {
      var k := First(commands, others);
      ghost var tail := Oldest(commands, others, n - |rows|);
      LeastIsOne(commands, others, k, tail[0]);
      assert tail == [k] + Oldest(commands, others - {k}, n - |rows| - 1);
      rows, others := rows + [k], others - {k};
    }
  }

  method First(commands: map<Bytes, Command>, keys: set<Bytes>) returns (k: Bytes)
    requires keys != {} && keys <= commands.Keys
    ensures IsLeast(commands, keys, k)
  {
    hide Before;
    k :| k in keys;
    var others := keys - {k};
    while others != {}
      invariant others <= keys && k in keys
      invariant forall x | x in keys && x !in others :: x == k || Before(commands, k, x)
      decreases others
    {
      var y :| y in others;
      BeforeIsOrder(commands, k, y, y);
      if Before(commands, y, k) {
        forall x | x in keys && x !in others ensures Before(commands, y, x) {
          BeforeIsOrder(commands, y, k, x);
        }
        k := y;
      }
      others := others - {y};
    }
  }

  lemma BuryMore(digest: Bytes -> Bytes, j: Journal, done: set<Bytes>, k: Bytes, now: int)
    requires done <= Eligible(j) && k in Eligible(j)
    ensures Buried(digest, j, done + {k}, now) == Buried(digest, j, done, now)[k := TombstoneFor(digest, j, k, now)]
  {
    hide Eligible, TombstoneFor;
  }

  lemma ClearMore(commands: map<Bytes, Command>, done: set<Bytes>, k: Bytes)
    requires k in commands && k !in done
    ensures k in Cleared(commands, done) && Cleared(commands, done)[k] == commands[k]
    ensures Cleared(commands, done + {k}) == Cleared(commands, done)[k := commands[k].(result := None)]
  {}

  lemma EmptyMore(effects: map<Bytes, Bytes>, done: set<Bytes>, k: Bytes)
    requires k !in done
    ensures k in Emptied(effects, done) <==> k in effects
    ensures k in effects ==> Emptied(effects, done)[k] == effects[k]
    ensures Emptied(effects, done + {k}) == if k in effects then Emptied(effects, done)[k := ""]
            else Emptied(effects, done)
  {}

  /** The database of a retired binding, inside one transaction at a time. */
  class RetiredJournal {
    const digest: Bytes -> Bytes
    var tables: set<string>
    var metadata: map<string, Bytes>
    var commands: map<Bytes, Command>
    var effects: map<Bytes, Bytes>
    var revisions: map<string, int>
    var tombstones: map<Bytes, Tombstone>

    function View(): Journal
      reads this
    {
      Journal(tables, metadata, commands, effects, revisions, tombstones)
    }

    constructor (digest: Bytes -> Bytes, j: Journal)
      ensures View() == j && this.digest == digest
    {
      this.digest := digest;
      tables, metadata, commands := j.tables, j.metadata, j.commands;
      effects, revisions, tombstones := j.effects, j.revisions, j.tombstones;
    }

    method CompactRow(k: Bytes, ghost j: Journal, ghost done: set<Bytes>, now: int)
      requires done <= Eligible(j) && k in Eligible(j) && k !in done
      requires View() == Settled(digest, j, done, now)
      modifies this
      ensures View() == Settled(digest, j, done + {k}, now)
    {
      hide Eligible, Buried, Cleared, Emptied;
      EligibleRow(j, k);
      BuryMore(digest, j, done, k, now);
      ClearMore(j.commands, done, k);
      EmptyMore(j.effects, done, k);
      var synthetic := if k in effects then Some(digest(effects[k])) else None;
      tombstones := tombstones[k := Tombstone(digest(commands[k].result.value), synthetic, now)];
      commands := commands[k := commands[k].(result := None)];
      if k in effects {
        effects := effects[k := ""];
      }
    }

    method CompactRows(rows: seq<Bytes>, now: int)
      requires forall i | 0 <= i < |rows| :: rows[i] in Eligible(View())
      requires forall i, k | 0 <= i < k < |rows| :: rows[i] != rows[k]
      modifies this
      ensures Elements(rows) <= Eligible(old(View())) && View() == Settled(digest, old(View()), Elements(rows), now)
    {
      hide Eligible, Settled;
      ghost var j := View();
      SettledNone(digest, j, now);
      assert rows[..0] == [];
      for i := 0 to |rows|
        invariant Elements(rows[..i]) <= Eligible(j)
        invariant View() == Settled(digest, j, Elements(rows[..i]), now)
      {
        NextElement(rows, i);
        CompactRow(rows[i], j, Elements(rows[..i]), now);
      }
      assert rows[..|rows|] == rows;
    }

    method Open(binding: Bytes)
      modifies this
      ensures View() == Opened(old(View()), binding)
    {
      tables := tables + {"retired_command_details"};
      if "retired_binding" !in metadata {
        metadata := metadata["retired_binding" := binding];
      }
    }

    method Compact(binding: Bytes, legacy: bool, now: int) returns (out: Outcome)
      modifies this
      ensures (View(), out) == CompactStep(digest, old(View()), binding, legacy, now)
    {
      hide Accepts, Settled, Eligible, Pending, Oldest, Elements, Before, Opened;
      if !Accepts(View(), binding, legacy) {
        return Refused;
      }
      Open(binding);
      EligibleRows(View());
      OldestFirst(commands, Eligible(View()), BATCH);
      var rows := Fetch(commands, Eligible(View()), BATCH);
      CompactRows(rows, now);
      out := Done(Pending(View()) == {});
    }
  }

  lemma EligibleRows(j: Journal)
    ensures Eligible(j) <= j.commands.Keys
  {}

  lemma EligibleRow(j: Journal, k: Bytes)
    requires k in Eligible(j)
    ensures k in j.commands && j.commands[k].result.Some?
  {}

  lemma SettledNone(digest: Bytes -> Bytes, j: Journal, now: int)
    ensures Elements([]) <= Eligible(j) && Settled(digest, j, Elements([]), now) == j
  {
    hide Eligible, TombstoneFor;
    assert Buried(digest, j, {}, now) == j.tombstones;
    assert Cleared(j.commands, {}) == j.commands;
    assert Emptied(j.effects, {}) == j.effects;
  }

  lemma NextElement(rows: seq<Bytes>, i: nat)
    requires i < |rows| && forall a, b | 0 <= a < b < |rows| :: rows[a] != rows[b]
    ensures rows[i] !in Elements(rows[..i]) && Elements(rows[..i + 1]) == Elements(rows[..i]) + {rows[i]}
  {
    assert rows[..i + 1] == rows[..i] + [rows[i]];
  }
}
